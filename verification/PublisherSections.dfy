/** Serialisability: a critical section that other threads interleave with changes the
    shared maps exactly as the sequential code would have on the maps found at its entry. */
module PublisherSections {
  import opened Basics
  import opened PublisherTypes
  import opened Commands
  import opened PublisherState
  import opened PublisherThreads

  predicate InSection(th: Thread) {
    th.ConnHasSub? || th.AliveScan? || th.AliveDrop? || th.DistSend?
  }

  /** Both program counters belong to one execution of a critical section. */
  predicate SameSection(a: Thread, b: Thread) {
    || (a.ConnHasSub? && b.ConnHasSub? && a.cid == b.cid && a.request == b.request && a.subs0 == b.subs0)
    || ((a.AliveScan? || a.AliveDrop?) && (b.AliveScan? || b.AliveDrop?)
        && a.clients0 == b.clients0 && a.subs0 == b.subs0)
    || (a.DistSend? && b.DistSend? && a.topic == b.topic && a.data == b.data && a.clients0 == b.clients0)
  }

  /** Thread `t` stays in its critical section throughout the run. */
  ghost predicate Stays(s: State, actions: seq<Action>, t: Tid)
    decreases actions
  {
    && t in s.threads && InSection(s.threads[t])
    && (actions == [] ||
        (Next(s, actions[0]).Some? && Stays(Next(s, actions[0]).value, actions[1..], t)))
  }

  lemma StepWithinSection(s: State, a: Action, t: Tid)
    requires Inv(s) && Next(s, a).Some?
    requires t in s.threads && InSection(s.threads[t]) && InSection(Next(s, a).value.threads[t])
    ensures SameSection(s.threads[t], Next(s, a).value.threads[t])
    ensures s.threads[t].DistSend? ==> Next(s, a).value.subs == s.subs
    ensures s.threads[t].ConnHasSub? ==> Next(s, a).value.clients == s.clients
  {
    if a.t != t {
      OnlyHoldersWrite(s, a, t);
    }
  }

  /** A step of another thread leaves a map alone while `t` holds its lock. */
  lemma OnlyHoldersWrite(s: State, a: Action, t: Tid)
    requires Inv(s) && Next(s, a).Some? && t in s.threads && a.t != t
    ensures Next(s, a).value.threads[t] == s.threads[t]
    ensures s.threads[t].HoldsList() ==> Next(s, a).value.clients == s.clients
    ensures s.threads[t].HoldsSub() ==> Next(s, a).value.subs == s.subs
  {
    assert s.threads[t].HoldsList() ==> !s.threads[a.t].HoldsList();
    assert s.threads[t].HoldsSub() ==> !s.threads[a.t].HoldsSub();
  }

  lemma {:induction false} SectionRemembersEntry(s: State, actions: seq<Action>, t: Tid)
    requires Inv(s) && Stays(s, actions, t)
    ensures Run(s, actions).Some?
    ensures var s' := Run(s, actions).value;
      && Inv(s') && t in s'.threads
      && SameSection(s.threads[t], s'.threads[t])
      && (s.threads[t].DistSend? ==> s'.subs == s.subs)
      && (s.threads[t].ConnHasSub? ==> s'.clients == s.clients)
    decreases actions
  {
    if actions != [] {
      NextKeepsInv(s, actions[0]);
      StepWithinSection(s, actions[0], t);
      SectionRemembersEntry(Next(s, actions[0]).value, actions[1..], t);
    }
  }

  /** Thread `t` enters a critical section with the step from `s` to `entry` and, whatever
      interleaves, is still in it in `end`. */
  ghost predicate Spans(s: State, t: Tid, entry: State, actions: seq<Action>, end: State) {
    && Reachable(s) && Next(s, Acquire(t)) == Some(entry)
    && Stays(entry, actions, t) && Run(entry, actions) == Some(end)
  }

  /** The subscribers whose sends broke. */
  ghost function Broken(actions: seq<Action>, t: Tid): set<Cid> {
    if actions == [] then {}
    else
      var a := actions[0];
      (if a.Visit? && a.t == t && a.fails then {a.cid} else {}) + Broken(actions[1..], t)
  }

  lemma FailingStep(s: State, a: Action, t: Tid)
    requires Next(s, a).Some? && t in s.threads && s.threads[t].DistSend? && Next(s, a).value.threads[t].DistSend?
    ensures Next(s, a).value.threads[t].failing ==
            s.threads[t].failing + if a.Visit? && a.t == t && a.fails then {a.cid} else {}
  {
    if a.t != t {
      NextMovesOne(s, a);
    }
  }

  lemma {:induction false} FailingIsBroken(s: State, actions: seq<Action>, t: Tid)
    requires Inv(s) && Stays(s, actions, t) && s.threads[t].DistSend?
    ensures Run(s, actions).Some? && t in Run(s, actions).value.threads
    ensures var th := Run(s, actions).value.threads[t];
            th.DistSend? && th.failing == s.threads[t].failing + Broken(actions, t)
    decreases actions
  {
    if actions != [] {
      var s1 := Next(s, actions[0]).value;
      NextKeepsInv(s, actions[0]);
      StepWithinSection(s, actions[0], t);
      FailingStep(s, actions[0], t);
      FailingIsBroken(s1, actions[1..], t);
    }
  }

  lemma AcquireKeepsMaps(s: State, t: Tid)
    requires Next(s, Acquire(t)).Some?
    ensures t in s.threads && Next(s, Acquire(t)).value.clients == s.clients && Next(s, Acquire(t)).value.subs == s.subs
  {
  }

  lemma SectionEnd(s: State, t: Tid, entry: State, actions: seq<Action>, end: State)
    requires Spans(s, t, entry, actions, end)
    ensures t in s.threads && t in end.threads && Inv(end) && Local(end.clients, end.subs, end.threads[t])
    ensures SameSection(entry.threads[t], end.threads[t])
    ensures entry.threads[t].DistSend? ==> end.subs == entry.subs
    ensures entry.threads[t].ConnHasSub? ==> end.clients == entry.clients
    ensures entry.clients == s.clients && entry.subs == s.subs
  {
    EntryInv(s, t);
    AcquireKeepsMaps(s, t);
    SectionRemembersEntry(entry, actions, t);
    assert Local(end.clients, end.subs, end.threads[t]);
  }

  lemma EntryInv(s: State, t: Tid)
    requires Reachable(s) && Next(s, Acquire(t)).Some?
    ensures Inv(Next(s, Acquire(t)).value)
  {
    ReachableInv(s);
    NextKeepsInv(s, Acquire(t));
  }

  /** Having spanned its section up to `end`, thread `t` leaves it with the step `a`. */
  ghost predicate Completes(s: State, t: Tid, entry: State, actions: seq<Action>, end: State, a: Action, out: State) {
    && Spans(s, t, entry, actions, end)
    && Next(end, a) == Some(out) && t in out.threads && !InSection(out.threads[t])
  }

  /** A section can only be left when its work is done, and leaving it changes no map. */
  lemma SectionExit(end: State, t: Tid, a: Action, out: State)
    requires Inv(end) && t in end.threads && InSection(end.threads[t])
    requires Next(end, a) == Some(out) && t in out.threads && !InSection(out.threads[t])
    ensures out.clients == end.clients && out.subs == end.subs && Local(end.clients, end.subs, end.threads[t])
    ensures match end.threads[t]
            case ConnHasSub(cid, request, ran, _) => ran == |request| && out.threads[t] == ConnClient(cid)
            case AliveScan(todo, _, _) => todo == {} && out.threads[t] == AliveRelease
            case AliveDrop(_, _, _, _, _) => false
            case DistSend(topic, _, todo, _, _) => todo == {} && out.threads[t] == DistRelease(topic)
            case _ => true
  {
    if a.t != t {
      NextMovesOne(end, a);
    }
    assert a == Advance(t);
    assert Local(end.clients, end.subs, end.threads[t]);
  }

  /** The alive check, from taking its second lock until it gives both back. */
  lemma CollectionRunsAsOne(s: State, t: Tid, entry: State, actions: seq<Action>, end: State, a: Action, out: State)
    requires Completes(s, t, entry, actions, end, a, out) && entry.threads[t].AliveScan?
    ensures t in s.threads && s.threads[t].AliveWantSub? && out.threads[t] == AliveRelease
    ensures out.clients == Kept(s.clients, s.clients.Keys)
    ensures out.subs == Purged(s.subs, ClosedIn(s.clients, s.clients.Keys))
  {
    SectionEnd(s, t, entry, actions, end);
    SectionExit(end, t, a, out);
    assert end.threads[t].clients0 == s.clients && end.threads[t].subs0 == s.subs;
    assert s.clients.Keys - end.threads[t].todo == s.clients.Keys;
  }

  /** The commands of one read, from taking the subscription lock to giving it back. */
  lemma CommandsRunAsOne(s: State, t: Tid, entry: State, actions: seq<Action>, end: State, a: Action, out: State)
    requires Completes(s, t, entry, actions, end, a, out) && entry.threads[t].ConnHasSub?
    ensures t in s.threads && s.threads[t].ConnWantSub? && out.threads[t] == ConnClient(s.threads[t].cid)
    ensures out.subs == ApplyAll(s.subs, s.threads[t].cid, s.threads[t].request) && out.clients == s.clients
  {
    SectionEnd(s, t, entry, actions, end);
    SectionExit(end, t, a, out);
    var th := end.threads[t];
    assert th.request[..th.ran] == th.request;
  }

  /** A distribution, from taking its second lock until it gives both back: every
      established subscriber of the topic was offered the payload once, nobody else was,
      and the clients closed by it are those the send broke for. */
  lemma DistributionRunsAsOne(s: State, t: Tid, entry: State, actions: seq<Action>, end: State, a: Action, out: State)
    requires Completes(s, t, entry, actions, end, a, out) && entry.threads[t].DistSend?
    ensures t in s.threads && s.threads[t].DistWantList? && s.threads[t].topic in s.subs
    ensures out.threads[t] == DistRelease(s.threads[t].topic) && out.subs == s.subs
    ensures out.clients == Offered(s.clients, s.subs[s.threads[t].topic], s.threads[t].data, Broken(actions, t))
  {
    SectionEnd(s, t, entry, actions, end);
    SectionExit(end, t, a, out);
    EntryInv(s, t);
    FailingIsBroken(entry, actions, t);
    var th := end.threads[t];
    assert end.subs[th.topic] - th.todo == end.subs[th.topic];
    assert {} + Broken(actions, t) == Broken(actions, t);
  }
}
