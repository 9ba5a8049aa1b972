/** What is begun can be finished: a thread whose locks are to be had runs through its
    critical section and gives them back without anybody's help. Together with the results
    on sections this says that the threads can do all that the sequential code does. */
module PublisherCompletion {
  import opened Basics
  import opened PublisherTypes
  import opened Commands
  import opened PublisherState
  import opened PublisherThreads
  import opened PublisherSections
  import opened PublisherDeadlock
  import opened PublisherJobs

  /** Only thread `t` moves. */
  ghost predicate Solo(actions: seq<Action>, t: Tid) {
    forall i :: 0 <= i < |actions| ==> actions[i].t == t
  }

  /** The section's loop has come to its end. */
  predicate Finished(th: Thread) {
    || (th.ConnHasSub? && th.ran == |th.request|)
    || (th.AliveScan? && th.todo == {})
    || (th.DistSend? && th.todo == {})
  }

  /** How many rounds the thread's loop still takes. */
  function Rounds(th: Thread): int {
    match th
    case ConnHasSub(_, request, ran, _) => |request| - ran
    case AliveScan(todo, _, _) => |todo|
    case AliveDrop(_, _, todo, _, _) => |todo|
    case DistSend(_, _, todo, _, _) => |todo|
    case SetupAdd(ipcs) => |ipcs|
    case SetupSpawn(topics) => |topics|
    case _ => 0
  }

  function Within(th: Thread): nat {
    if th.AliveDrop? then |th.topics| else 0
  }

  lemma DropStep(s: State, t: Tid) returns (a: Action, s': State)
    requires Inv(s) && t in s.threads && s.threads[t].AliveDrop?
    ensures a.t == t && Next(s, a) == Some(s') && !a.Visit? && InSection(s'.threads[t])
    ensures Rounds(s'.threads[t]) < Rounds(s.threads[t])
            || (Rounds(s'.threads[t]) == Rounds(s.threads[t]) && s'.threads[t].AliveDrop?
                && Within(s'.threads[t]) < Within(s.threads[t]))
  {
    var th := s.threads[t];
    assert Local(s.clients, s.subs, th);
    if th.topics == {} {
      a := Advance(t);
    } else {
      var topic :| topic in th.topics;
      a := Leave(t, topic);
    }
    s' := Next(s, a).value;
  }

  /** One more step inside a section. */
  lemma SectionStep(s: State, t: Tid) returns (a: Action, s': State)
    requires Inv(s) && t in s.threads && InSection(s.threads[t]) && !Finished(s.threads[t])
    ensures a.t == t && Next(s, a) == Some(s') && InSection(s'.threads[t]) && (a.Visit? ==> !a.fails)
    ensures Rounds(s'.threads[t]) >= 0
    ensures || Rounds(s'.threads[t]) < Rounds(s.threads[t])
            || (Rounds(s'.threads[t]) == Rounds(s.threads[t]) && s.threads[t].AliveScan? && s'.threads[t].AliveDrop?)
            || (Rounds(s'.threads[t]) == Rounds(s.threads[t]) && s.threads[t].AliveDrop? && s'.threads[t].AliveDrop?
                && Within(s'.threads[t]) < Within(s.threads[t]))
  {
    var th := s.threads[t];
    assert Local(s.clients, s.subs, th);
    if th.ConnHasSub? {
      a := RunNext(t);
      s' := Next(s, a).value;
    } else if th.AliveDrop? {
      a, s' := DropStep(s, t);
    } else {
      var cid :| cid in th.todo;
      a := Visit(t, cid, false);
      s' := Next(s, a).value;
    }
  }

  lemma {:induction false} SectionFinishes(s: State, t: Tid) returns (actions: seq<Action>, end: State)
    requires Inv(s) && t in s.threads && InSection(s.threads[t]) && Rounds(s.threads[t]) >= 0
    ensures Solo(actions, t) && Stays(s, actions, t) && Run(s, actions) == Some(end)
    ensures t in end.threads && Finished(end.threads[t]) && Broken(actions, t) == {}
    decreases Rounds(s.threads[t]), if s.threads[t].AliveScan? then 1 else 0, Within(s.threads[t])
  {
    if Finished(s.threads[t]) {
      return [], s;
    }
    var a, s1 := SectionStep(s, t);
    NextKeepsInv(s, a);
    var rest;
    rest, end := SectionFinishes(s1, t);
    actions := [a] + rest;
    assert actions[1..] == rest;
  }

  /** A thread that enters its section can complete it on its own. */
  lemma SectionCompletes(s: State, t: Tid, entry: State) returns (actions: seq<Action>, end: State, out: State)
    requires Reachable(s) && Next(s, Acquire(t)) == Some(entry) && t in entry.threads && InSection(entry.threads[t])
    ensures Completes(s, t, entry, actions, end, Advance(t), out)
    ensures Solo(actions, t) && Broken(actions, t) == {}
  {
    ReachableInv(s);
    NextKeepsInv(s, Acquire(t));
    actions, end := SectionFinishes(entry, t);
    SectionRemembersEntry(entry, actions, t);
    FinishedLeaves(end, t);
    out := Next(end, Advance(t)).value;
  }

  lemma FinishedLeaves(end: State, t: Tid)
    requires t in end.threads && Finished(end.threads[t])
    ensures Next(end, Advance(t)).Some?
    ensures t in Next(end, Advance(t)).value.threads && !InSection(Next(end, Advance(t)).value.threads[t])
  {
  }

  lemma ReachableStep(s: State, a: Action)
    requires Reachable(s) && Next(s, a).Some?
    ensures Reachable(Next(s, a).value)
  {
    var init :| Init(init) && ReachableFrom(init, s);
    var s' := ReachableNext(init, s, a);
  }

  /** Whatever a connection reads, it can get done: if the subscriptions are free, it comes
      back to its client with exactly the commands of the text applied. */
  lemma ReadCanBeDone(s: State, t: Tid, text: string) returns (actions: seq<Action>, end: State, out: State)
    requires Reachable(s) && t in s.threads && s.threads[t].ConnClient? && s.subOwner.None?
    ensures Solo(actions, t) && Run(s, [Read(t, Some(text)), Acquire(t)] + actions) == Some(end)
    ensures Next(end, Advance(t)) == Some(out) && out.threads[t] == s.threads[t]
    ensures out.subs == ApplyAll(s.subs, s.threads[t].cid, Parse(text)) && out.clients == s.clients
  {
    var lock := Next(s, Read(t, Some(text))).value;
    ReachableStep(s, Read(t, Some(text)));
    var entry := Next(lock, Acquire(t)).value;
    actions, end, out := SectionCompletes(lock, t, entry);
    ReadRunsItsText(s, t, text, [], lock, entry, actions, end, Advance(t), out);
    RunTwo(s, Read(t, Some(text)), Acquire(t), actions);
  }

  lemma RunTwo(s: State, a: Action, b: Action, rest: seq<Action>)
    requires Next(s, a).Some? && Next(Next(s, a).value, b).Some?
    ensures Run(s, [a, b] + rest) == Run(Next(Next(s, a).value, b).value, rest)
  {
    var all := [a, b] + rest;
    assert all[0] == a && all[1..][0] == b && all[1..][1..] == rest;
  }

  lemma AliveTakesList(s: State, t: Tid) returns (lock: State)
    requires Reachable(s) && t in s.threads && s.threads[t].AliveIdle? && s.listOwner.None? && s.subOwner.None?
    ensures Next(s, Request(t, [])).Some? && Next(Next(s, Request(t, [])).value, Acquire(t)) == Some(lock)
    ensures lock == Put(Put(s, t, AliveWantList, s.clients, s.subs), t, AliveWantSub, s.clients, s.subs)
  {
    lock := Next(Next(s, Request(t, [])).value, Acquire(t)).value;
  }

  /** An alive check can collect if both locks are free. */
  lemma CollectionCanBeDone(s: State, t: Tid) returns (actions: seq<Action>, end: State, out: State)
    requires Reachable(s) && t in s.threads && s.threads[t].AliveIdle? && s.listOwner.None? && s.subOwner.None?
    ensures Solo(actions, t) && Run(s, [Request(t, []), Acquire(t)] + ([Acquire(t)] + actions)) == Some(end)
    ensures Next(end, Advance(t)) == Some(out) && out.threads[t] == AliveRelease
    ensures out.clients == Kept(s.clients, s.clients.Keys)
    ensures out.subs == Purged(s.subs, ClosedIn(s.clients, s.clients.Keys))
  {
    var lock := AliveTakesList(s, t);
    ReachableStep(s, Request(t, []));
    ReachableStep(Next(s, Request(t, [])).value, Acquire(t));
    actions, end, out := AliveCollects(lock, t);
    RunTwo(s, Request(t, []), Acquire(t), [Acquire(t)] + actions);
  }

  lemma AliveCollects(lock: State, t: Tid) returns (actions: seq<Action>, end: State, out: State)
    requires Reachable(lock) && t in lock.threads && lock.threads[t].AliveWantSub? && lock.subOwner.None?
    ensures Solo(actions, t) && Run(lock, [Acquire(t)] + actions) == Some(end)
    ensures Next(end, Advance(t)) == Some(out) && out.threads[t] == AliveRelease
    ensures out.clients == Kept(lock.clients, lock.clients.Keys)
    ensures out.subs == Purged(lock.subs, ClosedIn(lock.clients, lock.clients.Keys))
  {
    var entry := Next(lock, Acquire(t)).value;
    actions, end, out := SectionCompletes(lock, t, entry);
    CollectionRunsAsOne(lock, t, entry, actions, end, Advance(t), out);
    assert ([Acquire(t)] + actions)[1..] == actions;
  }

  lemma MessageSteps(s: State, t: Tid, data: Bytes) returns (s1: State, s2: State, lock: State)
    requires t in s.threads && s.threads[t].DistIdle? && s.listOwner.None? && s.subOwner.None?
    requires s.threads[t].topic in s.subs
    ensures Next(s, Request(t, data)) == Some(s1) && Next(s1, Acquire(t)) == Some(s2) && Next(s2, Advance(t)) == Some(lock)
    ensures JobAt(s1, t).Some? && JobAt(s2, t).Some? && JobAt(lock, t).Some?
    ensures t in lock.threads && lock.threads[t] == DistWantList(s.threads[t].topic, data)
    ensures lock.clients == s.clients && lock.subs == s.subs && lock.listOwner.None?
  {
    var topic := s.threads[t].topic;
    s1 := Put(s, t, DistWantSub(topic, data), s.clients, s.subs);
    s2 := Put(s1, t, DistHasSub(topic, data), s.clients, s.subs);
    lock := Put(s2, t, DistWantList(topic, data), s.clients, s.subs);
  }

  /** A distribution turns a message for an existing topic into a wait for the client list. */
  lemma MessageLooksUp(s: State, t: Tid, data: Bytes) returns (lock: State)
    requires Reachable(s) && t in s.threads && s.threads[t].DistIdle? && s.listOwner.None? && s.subOwner.None?
    ensures Next(s, Request(t, data)).Some? && Works(Next(s, Request(t, data)).value, [Acquire(t), Advance(t)], t)
    ensures Run(Next(s, Request(t, data)).value, [Acquire(t), Advance(t)]) == Some(lock)
    ensures Reachable(lock) && t in lock.threads && lock.threads[t] == DistWantList(s.threads[t].topic, data)
    ensures lock.clients == s.clients && lock.subs == s.subs && lock.listOwner.None?
    ensures s.threads[t].topic in s.subs
  {
    TopicsAreThere(s, t);
    var s1, s2;
    s1, s2, lock := MessageSteps(s, t, data);
    ReachableStep(s, Request(t, data));
    ReachableStep(s1, Acquire(t));
    ReachableStep(s2, Advance(t));
    WorksTwo(s1, Acquire(t), s2, Advance(t), lock, t);
  }

  lemma WorksTwo(s: State, a: Action, s1: State, b: Action, s2: State, t: Tid)
    requires Next(s, a) == Some(s1) && Next(s1, b) == Some(s2)
    requires JobAt(s, t).Some? && JobAt(s1, t).Some? && JobAt(s2, t).Some?
    ensures Works(s, [a, b], t) && Run(s, [a, b]) == Some(s2)
  {
    assert [a, b][1..] == [b] && [b][1..] == [];
    assert Works(s2, [], t);
    assert Works(s1, [b], t) && Run(s1, [b]) == Some(s2);
  }

  /** Whatever message a distribution is handed, if both locks are free it can offer it to
      every established subscriber of its topic. */
  lemma MessageCanBeDone(s: State, t: Tid, data: Bytes) returns (lock: State, actions: seq<Action>, end: State, out: State)
    requires Reachable(s) && t in s.threads && s.threads[t].DistIdle? && s.listOwner.None? && s.subOwner.None?
    ensures Next(s, Request(t, data)).Some?
    ensures Run(Next(s, Request(t, data)).value, [Acquire(t), Advance(t)]) == Some(lock)
    ensures Solo(actions, t) && Run(lock, [Acquire(t)] + actions) == Some(end)
    ensures Next(end, Advance(t)) == Some(out) && out.threads[t] == DistRelease(s.threads[t].topic)
    ensures s.threads[t].topic in s.subs
    ensures out.subs == s.subs && out.clients == Offered(s.clients, s.subs[s.threads[t].topic], data, {})
  {
    lock := MessageLooksUp(s, t, data);
    var entry := Next(lock, Acquire(t)).value;
    actions, end, out := SectionCompletes(lock, t, entry);
    MessageReachesSubscribers(s, t, data, [Acquire(t), Advance(t)], lock, entry, actions, end, Advance(t), out);
    assert ([Acquire(t)] + actions)[1..] == actions;
  }

  // ---------- Locks come free ----------

  /** How far a lock holder is from giving its locks back. */
  function Distance(th: Thread): nat {
    if th.DistHasSub? then 4
    else if th.ConnWantSub? || th.AliveWantSub? || th.SetupAdd? || th.DistWantList? then 3
    else if th.SetupSpawn? || InSection(th) then 2
    else if th.HoldsList() || th.HoldsSub() then 1
    else 0
  }

  predicate HoldsAny(th: Thread) {
    th.HoldsList() || th.HoldsSub()
  }

  /** Nobody but `t` holds a lock. */
  ghost predicate Alone(s: State, t: Tid) {
    (s.listOwner.None? || s.listOwner == Some(t)) && (s.subOwner.None? || s.subOwner == Some(t))
  }

  ghost predicate Nearer(before: Thread, after: Thread) {
    || Distance(after) < Distance(before)
    || (Distance(after) == Distance(before) && Rounds(after) < Rounds(before))
  }

  /** Nearer, or as near and further in the two nested loops of the alive check. */
  ghost predicate Onward(before: Thread, after: Thread) {
    || Nearer(before, after)
    || (Distance(after) == Distance(before) && Rounds(after) == Rounds(before)
        && ((before.AliveScan? && after.AliveDrop?)
            || (before.AliveDrop? && after.AliveDrop? && Within(after) < Within(before))))
  }

  lemma WaiterStep(s: State, t: Tid) returns (a: Action, s': State)
    requires Inv(s) && t in s.threads && HoldsAny(s.threads[t]) && Alone(s, t)
    requires s.threads[t].WantsList() || s.threads[t].WantsSub()
    ensures a.t == t && Next(s, a) == Some(s') && t in s'.threads
    ensures Rounds(s'.threads[t]) >= 0 && Nearer(s.threads[t], s'.threads[t])
  {
    assert Local(s.clients, s.subs, s.threads[t]);
    a := Acquire(t);
    s' := Next(s, a).value;
  }

  lemma SpawnStep(s: State, t: Tid) returns (a: Action, s': State)
    requires t in s.threads && s.threads[t].SetupSpawn?
    ensures a.t == t && Next(s, a) == Some(s') && t in s'.threads
    ensures Rounds(s'.threads[t]) >= 0 && Nearer(s.threads[t], s'.threads[t])
  {
    var th := s.threads[t];
    if th.topics == {} {
      a := Advance(t);
    } else {
      var topic :| topic in th.topics;
      a := Fork(t, topic, FreshTid(s));
    }
    s' := Next(s, a).value;
  }

  lemma AdvanceStep(s: State, t: Tid) returns (s': State)
    requires t in s.threads
    requires var th := s.threads[t];
      Finished(th) || th.AliveRelease? || th.SetupAdd? || th.DistHasSub? || th.DistRelease?
    ensures Next(s, Advance(t)) == Some(s') && t in s'.threads
    ensures Rounds(s'.threads[t]) >= 0 && Nearer(s.threads[t], s'.threads[t])
  {
    s' := Next(s, Advance(t)).value;
  }

  lemma OtherStep(s: State, t: Tid) returns (a: Action, s': State)
    requires Inv(s) && t in s.threads && HoldsAny(s.threads[t])
    requires InSection(s.threads[t]) ==> Finished(s.threads[t])
    requires !s.threads[t].WantsList() && !s.threads[t].WantsSub() && !s.threads[t].SetupSpawn?
    ensures a.t == t && Next(s, a) == Some(s') && t in s'.threads
    ensures Rounds(s'.threads[t]) >= 0 && Nearer(s.threads[t], s'.threads[t])
  {
    if s.threads[t].ConnHasList? || s.threads[t].ConnClient? {
      a := Abort(t);
      s' := Next(s, a).value;
    } else {
      a := Advance(t);
      s' := AdvanceStep(s, t);
    }
  }

  /** The step of a lock holder that is not inside a section, or is done with it. */
  lemma ReleaseStep(s: State, t: Tid) returns (a: Action, s': State)
    requires Inv(s) && t in s.threads && HoldsAny(s.threads[t]) && Alone(s, t)
    requires InSection(s.threads[t]) ==> Finished(s.threads[t])
    ensures a.t == t && Next(s, a) == Some(s') && t in s'.threads
    ensures Rounds(s'.threads[t]) >= 0 && Nearer(s.threads[t], s'.threads[t])
  {
    if s.threads[t].WantsList() || s.threads[t].WantsSub() {
      a, s' := WaiterStep(s, t);
    } else if s.threads[t].SetupSpawn? {
      a, s' := SpawnStep(s, t);
    } else {
      a, s' := OtherStep(s, t);
    }
  }

  lemma AloneStep(s: State, a: Action)
    requires Next(s, a).Some? && Alone(s, a.t)
    ensures Alone(Next(s, a).value, a.t)
  {
  }

  lemma HolderGoesOn(s: State, t: Tid) returns (a: Action, s': State)
    requires Inv(s) && t in s.threads && HoldsAny(s.threads[t]) && Alone(s, t)
    ensures a.t == t && Next(s, a) == Some(s') && Inv(s') && Alone(s', t) && t in s'.threads
    ensures Rounds(s'.threads[t]) >= 0 && Onward(s.threads[t], s'.threads[t])
  {
    if InSection(s.threads[t]) && !Finished(s.threads[t]) {
      a, s' := SectionStep(s, t);
    } else {
      a, s' := ReleaseStep(s, t);
    }
    NextKeepsInv(s, a);
    AloneStep(s, a);
  }

  /** A thread that holds a lock gives all its locks back on its own, provided the locks it
      does not hold are free. */
  lemma {:induction false} LocksComeFree(s: State, t: Tid) returns (actions: seq<Action>, end: State)
    requires Inv(s) && t in s.threads && Alone(s, t) && Rounds(s.threads[t]) >= 0
    ensures Solo(actions, t) && Run(s, actions) == Some(end)
    ensures Inv(end) && end.listOwner.None? && end.subOwner.None?
    decreases Distance(s.threads[t]), Rounds(s.threads[t]), if s.threads[t].AliveScan? then 1 else 0, Within(s.threads[t])
  {
    if !HoldsAny(s.threads[t]) {
      return [], s;
    }
    var a, s1 := HolderGoesOn(s, t);
    var rest;
    rest, end := LocksComeFree(s1, t);
    actions := [a] + rest;
    assert actions[1..] == rest;
  }
}
