/** Which systems can deadlock, said about the threads they start with: exactly those that
    set up a topic and also run a connection loop or the alive check. */
module PublisherDeadlockStart {
  import opened Basics
  import opened PublisherTypes
  import opened Commands
  import opened RetryToken
  import opened PublisherState
  import opened PublisherThreads
  import opened PublisherDeadlock

  ghost predicate CanDeadlock(init: State) {
    exists s :: ReachableFrom(init, s) && Deadlocked(s)
  }

  ghost predicate SetsUpTopic(s: State, p: Tid) {
    p in s.threads && s.threads[p].SetupWant? && s.threads[p].ipcs != []
  }

  ghost predicate StartsListFirst(s: State, q: Tid) {
    q in s.threads && (s.threads[q].ConnIdle? || s.threads[q].AliveIdle?)
  }

  // ---------- Systems that cannot deadlock ----------

  ghost predicate NobodyTakesListFirst(s: State) {
    forall t :: t in s.threads ==> !s.threads[t].TakesListFirst()
  }

  /** The thread neither distributes nor has any topic to set up. */
  ghost predicate Barren(th: Thread) {
    match th
    case SetupWant(ipcs) => ipcs == []
    case SetupAdd(ipcs) => ipcs == []
    case SetupSpawn(topics) => topics == {}
    case SetupDone => true
    case _ => th.TakesListFirst()
  }

  ghost predicate NoTopics(s: State) {
    s.subs == map[] && forall t :: t in s.threads ==> Barren(s.threads[t])
  }

  lemma AdvanceStaysListLast(s: State, t: Tid)
    requires Next(s, Advance(t)).Some? && !s.threads[t].TakesListFirst()
    ensures !Next(s, Advance(t)).value.threads[t].TakesListFirst()
  {
  }

  lemma AcquireStaysListLast(s: State, t: Tid)
    requires Next(s, Acquire(t)).Some? && !s.threads[t].TakesListFirst()
    ensures !Next(s, Acquire(t)).value.threads[t].TakesListFirst()
  {
  }

  lemma MoverStaysListLast(s: State, a: Action)
    requires Next(s, a).Some? && !s.threads[a.t].TakesListFirst()
    ensures !Next(s, a).value.threads[a.t].TakesListFirst()
  {
    match a {
      case Request(t, data) =>
      case Acquire(t) => AcquireStaysListLast(s, t);
      case Visit(t, cid, fails) =>
      case Advance(t) => AdvanceStaysListLast(s, t);
      case Fork(t, topic, child) =>
      case _ => assert false;
    }
  }

  lemma NextKeepsListLast(s: State, a: Action)
    requires NobodyTakesListFirst(s) && Next(s, a).Some?
    ensures NobodyTakesListFirst(Next(s, a).value)
  {
    NextMovesOne(s, a);
    MoverStaysListLast(s, a);
  }

  lemma NextKeepsNoTopics(s: State, a: Action)
    requires NoTopics(s) && Next(s, a).Some?
    ensures NoTopics(Next(s, a).value)
  {
    assert Barren(s.threads[a.t]);
    NextMovesOne(s, a);
  }

  lemma {:induction false} RunKeepsListLast(s: State, actions: seq<Action>)
    requires NobodyTakesListFirst(s) && Run(s, actions).Some?
    ensures NobodyTakesListFirst(Run(s, actions).value)
    decreases actions
  {
    if actions != [] {
      NextKeepsListLast(s, actions[0]);
      RunKeepsListLast(Next(s, actions[0]).value, actions[1..]);
    }
  }

  lemma {:induction false} RunKeepsNoTopics(s: State, actions: seq<Action>)
    requires NoTopics(s) && Run(s, actions).Some?
    ensures NoTopics(Run(s, actions).value)
    decreases actions
  {
    if actions != [] {
      NextKeepsNoTopics(s, actions[0]);
      RunKeepsNoTopics(Next(s, actions[0]).value, actions[1..]);
    }
  }

  lemma EmbraceNeedsListFirst(init: State, s: State, dist: Tid, other: Tid)
    requires Init(init) && ReachableFrom(init, s) && Embrace(s, dist, other)
    ensures exists q :: StartsListFirst(init, q)
  {
    if !exists q :: StartsListFirst(init, q) {
      forall t | t in init.threads ensures !init.threads[t].TakesListFirst() {
        assert !StartsListFirst(init, t);
      }
      var actions :| Run(init, actions) == Some(s);
      RunKeepsListLast(init, actions);
    }
  }

  lemma EmbraceNeedsTopic(init: State, s: State, dist: Tid, other: Tid)
    requires Init(init) && ReachableFrom(init, s) && Embrace(s, dist, other)
    ensures exists p :: SetsUpTopic(init, p)
  {
    if !exists p :: SetsUpTopic(init, p) {
      forall t | t in init.threads ensures Barren(init.threads[t]) {
        assert !SetsUpTopic(init, t);
      }
      var actions :| Run(init, actions) == Some(s);
      RunKeepsNoTopics(init, actions);
    }
  }

  /** Both kinds of threads are needed for a deadlock. */
  lemma DeadlockNeedsBoth(init: State, s: State)
    requires Init(init) && ReachableFrom(init, s) && Deadlocked(s)
    ensures (exists p :: SetsUpTopic(init, p)) && (exists q :: StartsListFirst(init, q))
  {
    DeadlockIsEmbrace(s);
    var dist, other :| Embrace(s, dist, other);
    EmbraceNeedsTopic(init, s, dist, other);
    EmbraceNeedsListFirst(init, s, dist, other);
  }

  // ---------- Systems that can ----------

  /** No client is known, nobody has the client list, `q` is idle, and `subOwner` is as
      given. */
  ghost predicate Quiet(s: State, q: Tid, subOwner: Option<Tid>) {
    s.clients == map[] && s.listOwner == None && s.subOwner == subOwner && StartsListFirst(s, q)
  }

  ghost predicate At(s: State, t: Tid, th: Thread) {
    t in s.threads && s.threads[t] == th
  }

  /** The setup thread creates its topics one by one. */
  lemma {:induction false} AddSteps(init: State, s0: State, p: Tid, q: Tid, ipcs: seq<Topic>) returns (s: State)
    requires ReachableFrom(init, s0) && Quiet(s0, q, Some(p)) && At(s0, p, SetupAdd(ipcs))
    ensures ReachableFrom(init, s) && Quiet(s, q, Some(p)) && At(s, p, SetupSpawn(s.subs.Keys))
    ensures s0.subs.Keys <= s.subs.Keys && forall topic :: topic in ipcs ==> topic in s.subs
    decreases ipcs
  {
    var s1 := ReachableNext(init, s0, Advance(p));
    if ipcs == [] {
      return s1;
    }
    s := AddSteps(init, s1, p, q, ipcs[1..]);
    assert ipcs[0] in s1.subs;
    assert forall topic :: topic in ipcs ==> topic == ipcs[0] || topic in ipcs[1..];
  }

  /** It forks the remaining distributions and is done; threads `q` and `d` do not move. */
  lemma {:induction false} ForkSteps(init: State, s0: State, p: Tid, q: Tid, d: Tid, topics: set<Topic>) returns (s: State)
    requires ReachableFrom(init, s0) && Quiet(s0, q, Some(p)) && At(s0, p, SetupSpawn(topics))
    requires d in s0.threads && s0.threads[d].DistIdle?
    ensures ReachableFrom(init, s) && Quiet(s, q, None) && s.subs == s0.subs && At(s, d, s0.threads[d])
    decreases topics
  {
    if topics == {} {
      s := ReachableNext(init, s0, Advance(p));
    } else {
      var topic :| topic in topics;
      var s1 := ReachableNext(init, s0, Fork(p, topic, FreshTid(s0)));
      s := ForkSteps(init, s1, p, q, d, topics - {topic});
    }
  }

  /** It has created its topics and forks the distribution of `topic` first. */
  lemma ForkFirst(init: State, s0: State, p: Tid, q: Tid, topic: Topic) returns (s: State, d: Tid)
    requires ReachableFrom(init, s0) && Quiet(s0, q, Some(p)) && At(s0, p, SetupSpawn(s0.subs.Keys)) && topic in s0.subs
    ensures ReachableFrom(init, s) && Quiet(s, q, None) && topic in s.subs && At(s, d, DistIdle(topic))
  {
    d := FreshTid(s0);
    var s1 := ReachableNext(init, s0, Fork(p, topic, d));
    s := ForkSteps(init, s1, p, q, d, s0.subs.Keys - {topic});
  }

  lemma SetupAcquires(init: State, p: Tid, q: Tid) returns (s: State)
    requires Init(init) && SetsUpTopic(init, p) && StartsListFirst(init, q)
    ensures ReachableFrom(init, s) && Quiet(s, q, Some(p)) && At(s, p, SetupAdd(init.threads[p].ipcs))
  {
    assert Run(init, []) == Some(init);
    s := ReachableNext(init, init, Acquire(p));
  }

  /** From the start, the topics of `p` come to exist and one of them gets a distribution. */
  lemma SetupSteps(init: State, p: Tid, q: Tid) returns (s: State, d: Tid)
    requires Init(init) && SetsUpTopic(init, p) && StartsListFirst(init, q)
    ensures ReachableFrom(init, s) && Quiet(s, q, None)
    ensures d in s.threads && s.threads[d].DistIdle? && s.threads[d].topic in s.subs
  {
    var ipcs := init.threads[p].ipcs;
    var s1 := SetupAcquires(init, p, q);
    var s2 := AddSteps(init, s1, p, q, ipcs);
    assert ipcs[0] in ipcs;
    s, d := ForkFirst(init, s2, p, q, ipcs[0]);
  }

  /** The alive check takes the client list and turns to the subscriptions. */
  lemma AliveSteps(init: State, s0: State, q: Tid, d: Tid) returns (s: State)
    requires ReachableFrom(init, s0) && Quiet(s0, q, None) && At(s0, q, AliveIdle) && d in s0.threads && d != q
    ensures ReachableFrom(init, s) && s.listOwner == Some(q) && s.subOwner == None && s.subs == s0.subs
    ensures At(s, q, AliveWantSub) && At(s, d, s0.threads[d])
  {
    var s1 := ReachableNext(init, s0, Request(q, []));
    s := ReachableNext(init, s1, Acquire(q));
  }

  const ID: Cid := [0, 0, 0, 0, 0, 0, 0, 0, 0, 0, 0, 0, 0, 0, 0, 0, 0, 0, 0, 0]

  const LOCALHOST := V4([127, 0, 0, 1], 0)

  /** An Initial packet that brings a token minted for its address. */
  const OPENING := Packet(ID, LOCALHOST, true, true, Minted(ID, LOCALHOST))

  lemma OpeningIsAdmitted()
    ensures Admit(map[], OPENING, ID) == Opened(ID, ID)
  {
    OpenedNeedsOwnToken(map[], OPENING, ID, ID);
  }

  /** A connection loop takes the client list. */
  lemma ConnectionAcquires(init: State, s0: State, q: Tid, d: Tid) returns (s: State)
    requires ReachableFrom(init, s0) && Quiet(s0, q, None) && At(s0, q, ConnIdle) && d in s0.threads && d != q
    ensures ReachableFrom(init, s) && s.listOwner == Some(q) && s.subOwner == None && s.subs == s0.subs
    ensures s.clients == map[] && At(s, q, ConnHasList) && At(s, d, s0.threads[d])
  {
    var s1 := ReachableNext(init, s0, Request(q, []));
    s := ReachableNext(init, s1, Acquire(q));
  }

  /** It admits a client and turns to the subscriptions for it. */
  lemma ConnectionSteps(init: State, s0: State, q: Tid, d: Tid) returns (s: State)
    requires ReachableFrom(init, s0) && s0.listOwner == Some(q) && s0.subOwner == None && s0.clients == map[]
    requires At(s0, q, ConnHasList) && d in s0.threads && d != q
    ensures ReachableFrom(init, s) && s.listOwner == Some(q) && s.subOwner == None && s.subs == s0.subs
    ensures At(s, q, ConnWantSub(ID, Parse(""))) && At(s, d, s0.threads[d])
  {
    OpeningIsAdmitted();
    var s1 := ReachableNext(init, s0, Arrive(q, OPENING, ID));
    s := ReachableNext(init, s1, Read(q, Some("")));
  }

  /** Somebody holds the client list and waits for the subscriptions, which are free. */
  ghost predicate Waiting(s: State, q: Tid) {
    && s.listOwner == Some(q) && s.subOwner == None
    && q in s.threads && (s.threads[q].AliveWantSub? || s.threads[q].ConnWantSub?)
  }

  lemma MessageStep(init: State, s0: State, q: Tid, d: Tid, topic: Topic) returns (s: State)
    requires ReachableFrom(init, s0) && Waiting(s0, q) && At(s0, d, DistIdle(topic))
    ensures ReachableFrom(init, s) && Waiting(s, q) && At(s, d, DistWantSub(topic, [])) && s.subs == s0.subs
  {
    s := ReachableNext(init, s0, Request(d, []));
  }

  /** Meanwhile the distribution takes the subscriptions. */
  lemma LookupStep(init: State, s0: State, q: Tid, d: Tid, topic: Topic) returns (s: State)
    requires ReachableFrom(init, s0) && Waiting(s0, q) && At(s0, d, DistWantSub(topic, []))
    ensures ReachableFrom(init, s) && At(s, d, DistHasSub(topic, [])) && s.subs == s0.subs
    ensures s.listOwner == Some(q) && s.subOwner == Some(d) && At(s, q, s0.threads[q])
  {
    s := ReachableNext(init, s0, Acquire(d));
  }

  /** It finds its topic and turns to the client list. */
  lemma ClosingStep(init: State, s0: State, q: Tid, d: Tid, topic: Topic) returns (s: State)
    requires ReachableFrom(init, s0) && At(s0, d, DistHasSub(topic, [])) && topic in s0.subs
    requires s0.listOwner == Some(q) && s0.subOwner == Some(d)
    requires q in s0.threads && (s0.threads[q].AliveWantSub? || s0.threads[q].ConnWantSub?)
    ensures ReachableFrom(init, s) && Embrace(s, d, q)
  {
    s := ReachableNext(init, s0, Advance(d));
  }

  /** Any setup thread with a topic and any connection loop or alive check, beside whatever
      other threads, can run into a deadlock. */
  lemma DeadlockIsReachable(init: State, p: Tid, q: Tid) returns (s: State)
    requires Init(init) && SetsUpTopic(init, p) && StartsListFirst(init, q)
    ensures ReachableFrom(init, s) && Deadlocked(s)
  {
    var s1, d := SetupSteps(init, p, q);
    var topic := s1.threads[d].topic;
    var s2;
    if s1.threads[q].AliveIdle? {
      s2 := AliveSteps(init, s1, q, d);
    } else {
      s2 := ConnectionAcquires(init, s1, q, d);
      s2 := ConnectionSteps(init, s2, q, d);
    }
    var s3 := MessageStep(init, s2, q, d, topic);
    var s4 := LookupStep(init, s3, q, d, topic);
    s := ClosingStep(init, s4, q, d, topic);
    EmbraceIsCircular(s, d, q);
  }

  /** Deadlock freedom, exactly: a system can deadlock if and only if one of the threads it
      starts with has a topic to set up and another is a connection loop or alive check. */
  lemma DeadlockDependsOnStart(init: State)
    requires Init(init)
    ensures CanDeadlock(init) <==> (exists p :: SetsUpTopic(init, p)) && (exists q :: StartsListFirst(init, q))
  {
    if CanDeadlock(init) {
      var s :| ReachableFrom(init, s) && Deadlocked(s);
      DeadlockNeedsBoth(init, s);
    }
    if (exists p :: SetsUpTopic(init, p)) && (exists q :: StartsListFirst(init, q)) {
      var p :| SetsUpTopic(init, p);
      var q :| StartsListFirst(init, q);
      var s := DeadlockIsReachable(init, p, q);
    }
  }
}
