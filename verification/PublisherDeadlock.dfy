/** Lock discipline of the publisher: which circular waits can arise, that they are
    permanent, and that nothing else ever blocks the holder of a lock. */
module PublisherDeadlock {
  import opened Basics
  import opened PublisherThreads
  import opened PublisherSections

  /** Thread `t` waits for a mutex that `u` owns. */
  ghost predicate WaitsFor(s: State, t: Tid, u: Tid) {
    && t in s.threads
    && ((s.threads[t].WantsList() && s.listOwner == Some(u)) || (s.threads[t].WantsSub() && s.subOwner == Some(u)))
  }

  /** The next thread around the circle. */
  ghost function Following(ts: seq<Tid>, i: nat): Tid
    requires i < |ts|
  {
    ts[if i + 1 == |ts| then 0 else i + 1]
  }

  ghost predicate CircularWait(s: State, ts: seq<Tid>) {
    && ts != []
    && forall i {:trigger Following(ts, i)} :: 0 <= i < |ts| ==> WaitsFor(s, ts[i], Following(ts, i))
  }

  /** A distribution holds the subscription lock and waits for the client list, whose
      holder, a connection or the alive check, waits for the subscription lock. */
  ghost predicate Embrace(s: State, dist: Tid, other: Tid) {
    && dist in s.threads && other in s.threads
    && s.threads[dist].DistWantList? && s.subOwner == Some(dist)
    && (s.threads[other].ConnWantSub? || s.threads[other].AliveWantSub?) && s.listOwner == Some(other)
  }

  ghost predicate Deadlocked(s: State) {
    exists ts :: CircularWait(s, ts)
  }

  /** A thread that waits while somebody waits for it is one half of an embrace. */
  lemma WaitingHolder(s: State, t: Tid, u: Tid, v: Tid)
    requires Inv(s) && WaitsFor(s, t, u) && WaitsFor(s, u, v)
    ensures || (s.threads[u].DistWantList? && s.subOwner == Some(u) && s.listOwner == Some(v))
            || ((s.threads[u].ConnWantSub? || s.threads[u].AliveWantSub?)
                && s.listOwner == Some(u) && s.subOwner == Some(v))
  {
  }

  /** Every circular wait, of whatever length, contains an embrace. */
  lemma CircularWaitHasEmbrace(s: State, ts: seq<Tid>) returns (dist: Tid, other: Tid)
    requires Inv(s) && CircularWait(s, ts)
    ensures Embrace(s, dist, other) && dist in ts && other in ts
  {
    var i := if |ts| == 1 then 0 else 1;
    var j := if i + 1 == |ts| then 0 else i + 1;
    var a, b, c, d := ts[0], Following(ts, 0), Following(ts, i), Following(ts, j);
    assert WaitsFor(s, a, b) && WaitsFor(s, b, c) && WaitsFor(s, c, d);
    WaitingHolder(s, a, b, c);
    WaitingHolder(s, b, c, d);
    if Embrace(s, b, c) { return b, c; }
    return c, b;
  }

  /** In the full system a reachable state is deadlocked exactly when two threads embrace:
      a circular wait always involves a distribution holding the subscription lock. */
  lemma DeadlockIsEmbrace(s: State)
    requires Reachable(s)
    ensures Deadlocked(s) <==> exists dist, other :: Embrace(s, dist, other)
  {
    ReachableInv(s);
    if Deadlocked(s) {
      var ts :| CircularWait(s, ts);
      var dist, other := CircularWaitHasEmbrace(s, ts);
    }
    if exists dist, other :: Embrace(s, dist, other) {
      var dist, other :| Embrace(s, dist, other);
      EmbraceIsCircular(s, dist, other);
    }
  }

  lemma EmbraceIsCircular(s: State, dist: Tid, other: Tid)
    requires Embrace(s, dist, other)
    ensures CircularWait(s, [dist, other])
  {
  }

  /** Connection, alive-check and topic-setup threads alone never deadlock. */
  lemma NoDistributionNoDeadlock(s: State)
    requires Reachable(s)
    requires forall t :: t in s.threads ==> !s.threads[t].DistWantList?
    ensures !Deadlocked(s)
  {
    DeadlockIsEmbrace(s);
  }

  /** The two threads of an embrace never move again, whatever the others do, and nobody
      ever takes either lock from them. */
  lemma {:induction false} EmbraceIsForever(s: State, dist: Tid, other: Tid, actions: seq<Action>)
    requires Inv(s) && Embrace(s, dist, other) && Run(s, actions).Some?
    ensures var s' := Run(s, actions).value;
      && Embrace(s', dist, other)
      && s'.threads[dist] == s.threads[dist] && s'.threads[other] == s.threads[other]
      && s'.clients == s.clients && s'.subs == s.subs
    decreases actions
  {
    if actions != [] {
      var s' := Next(s, actions[0]).value;
      EmbraceStep(s, dist, other, actions[0]);
      NextKeepsInv(s, actions[0]);
      EmbraceIsForever(s', dist, other, actions[1..]);
    }
  }

  lemma EmbraceStep(s: State, dist: Tid, other: Tid, a: Action)
    requires Inv(s) && Embrace(s, dist, other) && Next(s, a).Some?
    ensures var s' := Next(s, a).value;
      && Embrace(s', dist, other)
      && s'.threads[dist] == s.threads[dist] && s'.threads[other] == s.threads[other]
      && s'.clients == s.clients && s'.subs == s.subs
  {
    assert Next(s, a).Some? ==> a.t != dist && a.t != other;
    OnlyHoldersWrite(s, a, dist);
    OnlyHoldersWrite(s, a, other);
    NextKeepsInv(s, a);
  }

  /** Progress: unless the system is deadlocked, some thread that owns a lock, or that waits
      for a lock nobody owns while holding the other, can take a step. */
  lemma LockHoldersProgress(s: State) returns (a: Action)
    requires Reachable(s) && !Deadlocked(s)
    requires s.listOwner.Some? || s.subOwner.Some?
    ensures Next(s, a).Some?
    ensures s.listOwner == Some(a.t) || s.subOwner == Some(a.t)
  {
    ReachableInv(s);
    DeadlockIsEmbrace(s);
    var t := if s.subOwner.Some? then s.subOwner.value else s.listOwner.value;
    if s.threads[t].DistWantList? && s.listOwner.Some? {
      t := s.listOwner.value;
      assert !Embrace(s, s.subOwner.value, t);
    }
    a := HolderStep(s, t);
  }

  lemma HolderStep(s: State, t: Tid) returns (a: Action)
    requires Inv(s) && t in s.threads
    requires s.threads[t].HoldsList() || s.threads[t].HoldsSub()
    requires s.threads[t].WantsList() ==> s.listOwner.None?
    requires s.threads[t].WantsSub() ==> s.subOwner.None?
    ensures Next(s, a).Some? && a.t == t
  {
    var th := s.threads[t];
    assert Local(s.clients, s.subs, th);
    if th.WantsList() || th.WantsSub() {
      a := Acquire(t);
    } else if th.ConnHasList? || th.ConnClient? {
      a := Abort(t);
    } else if th.ConnHasSub? && th.ran < |th.request| {
      a := RunNext(t);
    } else if (th.AliveScan? || th.DistSend?) && th.todo != {} {
      a := VisitStep(s, t);
    } else if th.AliveDrop? && th.topics != {} {
      var topic :| topic in th.topics;
      a := Leave(t, topic);
    } else if th.SetupSpawn? && th.topics != {} {
      var topic :| topic in th.topics;
      a := Fork(t, topic, FreshTid(s));
    } else {
      a := Advance(t);
    }
  }

  lemma VisitStep(s: State, t: Tid) returns (a: Action)
    requires Inv(s) && t in s.threads && (s.threads[t].AliveScan? || s.threads[t].DistSend?)
    requires s.threads[t].todo != {}
    ensures Next(s, a).Some? && a.t == t
  {
    var th := s.threads[t];
    assert Local(s.clients, s.subs, th);
    var cid :| cid in th.todo;
    a := Visit(t, cid, false);
  }

  ghost function Above(tids: set<Tid>): (n: Tid)
    ensures forall t :: t in tids ==> t < n
  {
    if tids == {} then 0
    else
      var t :| t in tids;
      var n := Above(tids - {t});
      assert forall u :: u in tids ==> u == t || u in tids - {t};
      if n <= t then t + 1 else n
  }

  ghost function FreshTid(s: State): (t: Tid)
    ensures t !in s.threads
  {
    Above(s.threads.Keys)
  }
}
