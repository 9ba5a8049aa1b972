/** The publisher as a step machine: any number of connection, alive-check, topic-setup and
    distribute threads interleave on the two mutex-protected maps. A thread's program
    counter says which locks it holds and what it is about to do. Threads are taken not to
    panic for reasons outside these maps. */
module PublisherThreads {
  import opened Basics
  import opened PublisherTypes
  import opened Commands
  import opened PublisherState

  type Tid = nat

  /** Program counters. `clients0` and `subs0` remember the maps as they were when the
      thread entered its critical section. */
  datatype Thread =
    | ConnIdle
    | ConnWantList
    | ConnHasList
    | ConnClient(cid: Cid)
    | ConnWantSub(cid: Cid, request: seq<Command>)
    | ConnHasSub(cid: Cid, request: seq<Command>, ran: nat, subs0: Subscriptions)
    | AliveIdle
    | AliveWantList
    | AliveWantSub
    | AliveScan(todo: set<Cid>, clients0: Clients, subs0: Subscriptions)
    | AliveDrop(cid: Cid, topics: set<Topic>, todo: set<Cid>, clients0: Clients, subs0: Subscriptions)
    | AliveRelease
    | SetupWant(ipcs: seq<Topic>)
    | SetupAdd(ipcs: seq<Topic>)
    | SetupSpawn(topics: set<Topic>)
    | SetupDone
    | DistIdle(topic: Topic)
    | DistWantSub(topic: Topic, data: Bytes)
    | DistHasSub(topic: Topic, data: Bytes)
    | DistWantList(topic: Topic, data: Bytes)
    | DistSend(topic: Topic, data: Bytes, todo: set<Cid>, failing: set<Cid>, clients0: Clients)
    | DistRelease(topic: Topic)
    | Panicked
  {
    predicate WantsList() {
      ConnWantList? || AliveWantList? || DistWantList?
    }

    predicate WantsSub() {
      ConnWantSub? || AliveWantSub? || SetupWant? || DistWantSub?
    }

    predicate HoldsList() {
      || ConnHasList? || ConnClient? || ConnWantSub? || ConnHasSub?
      || AliveWantSub? || AliveScan? || AliveDrop? || AliveRelease?
      || DistSend?
    }

    predicate HoldsSub() {
      || ConnHasSub? || AliveScan? || AliveDrop? || SetupAdd? || SetupSpawn?
      || DistHasSub? || DistWantList? || DistSend? || DistRelease?
    }

    predicate Starts() {
      ConnIdle? || AliveIdle? || SetupWant?
    }

    /** Connections and alive checks take the client list before the subscriptions. */
    predicate TakesListFirst() {
      || ConnIdle? || ConnWantList? || ConnHasList? || ConnClient? || ConnWantSub? || ConnHasSub?
      || AliveIdle? || AliveWantList? || AliveWantSub? || AliveScan? || AliveDrop? || AliveRelease?
    }
  }

  datatype State = State(
    threads: map<Tid, Thread>,
    clients: Clients,
    subs: Subscriptions,
    listOwner: Option<Tid>,
    subOwner: Option<Tid>)

  datatype Action =
    | Request(t: Tid, data: Bytes)
    | Acquire(t: Tid)
    | Abort(t: Tid)
    | Arrive(t: Tid, packet: Packet, connId: Cid)
    | Receive(t: Tid, closed: bool, established: bool)
    | Read(t: Tid, buf: Option<string>)
    | RunNext(t: Tid)
    | Finish(t: Tid, closed: bool)
    | Visit(t: Tid, cid: Cid, fails: bool)
    | Leave(t: Tid, topic: Topic)
    | Advance(t: Tid)
    | Fork(t: Tid, topic: Topic, child: Tid)

  /** A mutex after its holder or would-be holder `t` has moved. */
  function Owner(before: Option<Tid>, t: Tid, holds: bool): Option<Tid> {
    if holds then Some(t) else if before == Some(t) then None else before
  }

  /** Thread `t` moves to `th`, leaving the maps as given. */
  function Put(s: State, t: Tid, th: Thread, clients: Clients, subs: Subscriptions): State {
    State(s.threads[t := th], clients, subs,
          Owner(s.listOwner, t, th.HoldsList()), Owner(s.subOwner, t, th.HoldsSub()))
  }

  function Goto(s: State, t: Tid, th: Thread): Option<State> {
    Some(Put(s, t, th, s.clients, s.subs))
  }

  /** One step; `None` when the action is not enabled. */
  function Next(s: State, a: Action): Option<State> {
    if a.t !in s.threads then None
    else
      var th := s.threads[a.t];
      match a
      case Request(t, data) => NextRequest(s, t, th, data)
      case Acquire(t) => NextAcquire(s, t, th)
      case Abort(t) => if th.ConnHasList? || th.ConnClient? then Goto(s, t, ConnIdle) else None
      case Arrive(t, p, connId) => if th.ConnHasList? then NextArrive(s, t, p, connId) else None
      case Receive(t, closed, established) =>
        if th.ConnClient? then
          Some(Put(s, t, th, Touch(s.clients, th.cid, closed, established), s.subs))
        else None
      case Read(t, buf) =>
        if th.ConnClient? then
          Goto(s, t, if buf.None? then th else ConnWantSub(th.cid, Parse(buf.value)))
        else None
      case RunNext(t) =>
        if th.ConnHasSub? && th.ran < |th.request| then
          Some(Put(s, t, ConnHasSub(th.cid, th.request, th.ran + 1, th.subs0), s.clients, Apply(s.subs, th.cid, th.request[th.ran])))
        else None
      case Finish(t, closed) =>
        if th.ConnClient? && th.cid in s.clients then
          var c := s.clients[th.cid];
          Some(Put(s, t, ConnIdle, Touch(s.clients, th.cid, c.closed || closed, c.established), s.subs))
        else None
      case Visit(t, cid, fails) => NextVisit(s, t, th, cid, fails)
      case Leave(t, topic) =>
        if th.AliveDrop? && topic in th.topics && topic in s.subs then
          Some(Put(s, t, AliveDrop(th.cid, th.topics - {topic}, th.todo, th.clients0, th.subs0), s.clients,
                   s.subs[topic := s.subs[topic] - {th.cid}]))
        else None
      case Advance(t) => NextAdvance(s, t, th)
      case Fork(t, topic, child) =>
        if th.SetupSpawn? && topic in th.topics && child !in s.threads then
          var s' := Put(s, t, SetupSpawn(th.topics - {topic}), s.clients, s.subs);
          Some(s'.(threads := s'.threads[child := DistIdle(topic)]))
        else None
  }

  /** A thread outside its critical sections gets something to do. */
  function NextRequest(s: State, t: Tid, th: Thread, data: Bytes): Option<State> {
    match th
    case ConnIdle => Goto(s, t, ConnWantList)
    case AliveIdle => Goto(s, t, AliveWantList)
    case DistIdle(topic) => Goto(s, t, DistWantSub(topic, data))
    case _ => None
  }

  /** The awaited mutex is free and taken. */
  function NextAcquire(s: State, t: Tid, th: Thread): Option<State> {
    if th.WantsList() && s.listOwner.None? then
      match th
      case ConnWantList => Goto(s, t, ConnHasList)
      case AliveWantList => Goto(s, t, AliveWantSub)
      case DistWantList(topic, data) =>
        if topic in s.subs then Goto(s, t, DistSend(topic, data, s.subs[topic], {}, s.clients)) else None
      case _ => None
    else if th.WantsSub() && s.subOwner.None? then
      match th
      case ConnWantSub(cid, request) => Goto(s, t, ConnHasSub(cid, request, 0, s.subs))
      case AliveWantSub => Goto(s, t, AliveScan(s.clients.Keys, s.clients, s.subs))
      case SetupWant(ipcs) => Goto(s, t, SetupAdd(ipcs))
      case DistWantSub(topic, data) => Goto(s, t, DistHasSub(topic, data))
      case _ => None
    else None
  }

  /** A packet finds or opens its connection, or the read loop goes on without it. */
  function NextArrive(s: State, t: Tid, p: Packet, connId: Cid): Option<State> {
    var a := Admit(s.clients, p, connId);
    var th := if a.Known? || a.Opened? then ConnClient(a.cid) else ConnIdle;
    Some(Put(s, t, th, AfterAdmission(s.clients, a), s.subs))
  }

  function Touch(clients: Clients, cid: Cid, closed: bool, established: bool): Clients {
    if cid in clients then clients[cid := clients[cid].(closed := closed, established := established)] else clients
  }

  /** The alive check or a distribution turns to one client of its loop. A distribution
      that does not find the client panics. */
  function NextVisit(s: State, t: Tid, th: Thread, cid: Cid, fails: bool): Option<State> {
    match th
    case AliveScan(todo, clients0, subs0) =>
      if cid !in todo || cid !in s.clients then None
      else if s.clients[cid].closed then Goto(s, t, AliveDrop(cid, s.subs.Keys, todo, clients0, subs0))
      else Goto(s, t, AliveScan(todo - {cid}, clients0, subs0))
    case DistSend(topic, data, todo, failing, clients0) =>
      if cid !in todo then None
      else if cid !in s.clients then Goto(s, t, Panicked)
      else
        var c := s.clients[cid];
        var failing' := if fails then failing + {cid} else failing;
        Some(Put(s, t, DistSend(topic, data, todo - {cid}, failing', clients0),
                 if c.established then s.clients[cid := OfferedOne(c, data, fails)] else s.clients, s.subs))
    case _ => None
  }

  /** Control moves on: a loop ends, a client is dropped, a lock is released. */
  function NextAdvance(s: State, t: Tid, th: Thread): Option<State> {
    match th
    case ConnHasSub(cid, request, ran, _) => if ran == |request| then Goto(s, t, ConnClient(cid)) else None
    case AliveScan(todo, _, _) => if todo == {} then Goto(s, t, AliveRelease) else None
    case AliveDrop(cid, topics, todo, clients0, subs0) =>
      if topics == {} then
        Some(Put(s, t, AliveScan(todo - {cid}, clients0, subs0), s.clients - {cid}, s.subs))
      else None
    case AliveRelease => Goto(s, t, AliveIdle)
    case SetupAdd(ipcs) =>
      if ipcs == [] then Goto(s, t, SetupSpawn(s.subs.Keys))
      else Some(Put(s, t, SetupAdd(ipcs[1..]), s.clients, s.subs[ipcs[0] := {}]))
    case SetupSpawn(topics) => if topics == {} then Goto(s, t, SetupDone) else None
    case DistHasSub(topic, data) =>
      Goto(s, t, if topic in s.subs then DistWantList(topic, data) else DistIdle(topic))
    case DistSend(topic, _, todo, _, _) => if todo == {} then Goto(s, t, DistRelease(topic)) else None
    case DistRelease(topic) => Goto(s, t, DistIdle(topic))
    case _ => None
  }

  ghost predicate Init(s: State) {
    && s.clients == map[] && s.subs == map[] && s.listOwner.None? && s.subOwner.None?
    && forall t :: t in s.threads ==> s.threads[t].Starts()
  }

  function Run(s: State, actions: seq<Action>): Option<State>
    decreases actions
  {
    if actions == [] then Some(s)
    else
      match Next(s, actions[0])
      case None => None
      case Some(s') => Run(s', actions[1..])
  }

  /** Some run of the system `init` ends in `s`. */
  ghost predicate ReachableFrom(init: State, s: State) {
    exists actions :: Run(init, actions) == Some(s)
  }

  ghost predicate Reachable(s: State) {
    exists init :: Init(init) && ReachableFrom(init, s)
  }

  lemma {:induction false} RunThen(s: State, actions: seq<Action>, a: Action)
    requires Run(s, actions).Some? && Next(Run(s, actions).value, a).Some?
    ensures Run(s, actions + [a]) == Next(Run(s, actions).value, a)
    decreases actions
  {
    if actions == [] {
      assert Run(s, [a]) == Run(Next(s, a).value, [a][1..]);
    } else {
      RunThen(Next(s, actions[0]).value, actions[1..], a);
      assert (actions + [a])[1..] == actions[1..] + [a];
    }
  }

  lemma ReachableNext(init: State, s: State, a: Action) returns (s': State)
    requires ReachableFrom(init, s) && Next(s, a).Some?
    ensures Next(s, a) == Some(s') && ReachableFrom(init, s')
  {
    var actions :| Run(init, actions) == Some(s);
    RunThen(init, actions, a);
    s' := Next(s, a).value;
    assert Run(init, actions + [a]) == Some(s');
  }

  /** A step moves one thread, and forking adds an idle distribution. */
  lemma NextMovesOne(s: State, a: Action)
    requires Next(s, a).Some?
    ensures var s' := Next(s, a).value;
      forall t :: t in s'.threads && t != a.t ==>
        if t in s.threads then s'.threads[t] == s.threads[t] else a.Fork? && s'.threads[t] == DistIdle(a.topic)
    ensures s.threads.Keys <= Next(s, a).value.threads.Keys
  {
  }

  // ---------- Invariant ----------

  /** Each mutex is owned by the one thread whose program counter says it holds it. */
  ghost predicate Owned(s: State) {
    && (forall t :: t in s.threads ==>
      && (s.threads[t].HoldsList() <==> s.listOwner == Some(t))
      && (s.threads[t].HoldsSub() <==> s.subOwner == Some(t)))
    && (s.listOwner.Some? ==> s.listOwner.value in s.threads)
    && (s.subOwner.Some? ==> s.subOwner.value in s.threads)
  }

  /** What a thread knows about the maps whose locks it holds. */
  ghost predicate Local(clients: Clients, subs: Subscriptions, th: Thread) {
    match th
    case ConnClient(cid) => cid in clients
    case ConnWantSub(cid, _) => cid in clients
    case ConnHasSub(cid, request, ran, subs0) =>
      && cid in clients && ran <= |request|
      && subs == ApplyAll(subs0, cid, request[..ran])
    case AliveScan(todo, clients0, subs0) =>
      && todo <= clients0.Keys
      && clients == Kept(clients0, clients0.Keys - todo)
      && subs == Purged(subs0, ClosedIn(clients0, clients0.Keys - todo))
    case AliveDrop(cid, topics, todo, clients0, subs0) =>
      && todo <= clients0.Keys && cid in todo && clients0[cid].closed
      && clients == Kept(clients0, clients0.Keys - todo)
      && topics <= subs.Keys && subs.Keys == subs0.Keys
      && LeftTopics(subs, Purged(subs0, ClosedIn(clients0, clients0.Keys - todo)), cid, topics)
    case DistWantList(topic, _) => topic in subs
    case DistSend(topic, data, todo, failing, clients0) =>
      && topic in subs && todo <= subs[topic] && failing !! todo
      && clients == Offered(clients0, subs[topic] - todo, data, failing)
    case Panicked => false
    case _ => true
  }

  /** `cid` has left all topics but those in `topics`. */
  ghost predicate LeftTopics(subs: Subscriptions, before: Subscriptions, cid: Cid, topics: set<Topic>) {
    forall t :: t in subs && t in before ==> subs[t] == if t in topics then before[t] else before[t] - {cid}
  }

  ghost predicate Inv(s: State) {
    && Owned(s)
    && Consistent(s.clients, s.subs)
    && forall t :: t in s.threads ==> Local(s.clients, s.subs, s.threads[t])
  }

  lemma InitInv(s: State)
    requires Init(s)
    ensures Inv(s)
  {
  }

  /** A move keeps the invariant when it changes only maps whose locks were held, takes
      only free locks, keeps the maps consistent and establishes its own knowledge. */
  lemma PutKeepsInv(s: State, t: Tid, th: Thread, clients: Clients, subs: Subscriptions)
    requires Inv(s) && t in s.threads
    requires clients == s.clients || s.threads[t].HoldsList()
    requires subs == s.subs || s.threads[t].HoldsSub()
    requires th.HoldsList() && !s.threads[t].HoldsList() ==> s.listOwner.None?
    requires th.HoldsSub() && !s.threads[t].HoldsSub() ==> s.subOwner.None?
    requires Consistent(clients, subs)
    requires Local(clients, subs, th)
    ensures Inv(Put(s, t, th, clients, subs))
  {
    var s' := Put(s, t, th, clients, subs);
    forall u | u in s'.threads && u != t
      ensures Local(clients, subs, s'.threads[u])
    {
      var other := s.threads[u];
      assert Local(s.clients, s.subs, other);
      assert other.HoldsList() ==> clients == s.clients;
      assert other.HoldsSub() ==> subs == s.subs;
    }
  }

  lemma TouchKeeps(clients: Clients, subs: Subscriptions, cid: Cid, closed: bool, established: bool)
    requires Consistent(clients, subs)
    ensures Consistent(Touch(clients, cid, closed, established), subs)
    ensures Touch(clients, cid, closed, established).Keys == clients.Keys
  {
  }

  lemma RequestKeepsInv(s: State, t: Tid, data: Bytes)
    requires Inv(s) && t in s.threads && NextRequest(s, t, s.threads[t], data).Some?
    ensures Inv(NextRequest(s, t, s.threads[t], data).value)
  {
    var th := s.threads[t];
    var th' := if th.ConnIdle? then ConnWantList else if th.AliveIdle? then AliveWantList
               else DistWantSub(th.topic, data);
    PutKeepsInv(s, t, th', s.clients, s.subs);
  }

  lemma AcquireKeepsInv(s: State, t: Tid)
    requires Inv(s) && t in s.threads && NextAcquire(s, t, s.threads[t]).Some?
    ensures Inv(NextAcquire(s, t, s.threads[t]).value)
  {
    var s' := NextAcquire(s, t, s.threads[t]).value;
    var th' := s'.threads[t];
    assert Local(s.clients, s.subs, s.threads[t]);
    if th'.AliveScan? {
      assert s.clients.Keys - s.clients.Keys == {};
      assert ClosedIn(s.clients, {}) == {};
      PurgedNone(s.subs);
    } else if th'.DistSend? {
      assert s.subs[th'.topic] - s.subs[th'.topic] == {};
      assert Offered(s.clients, {}, th'.data, {}) == s.clients;
    }
    PutKeepsInv(s, t, th', s.clients, s.subs);
  }

  lemma ArriveKeepsInv(s: State, t: Tid, p: Packet, connId: Cid)
    requires Inv(s) && t in s.threads && s.threads[t].ConnHasList?
    ensures Inv(NextArrive(s, t, p, connId).value)
  {
  }

  lemma ConnectionKeepsInv(s: State, a: Action)
    requires Inv(s) && (a.Abort? || a.Receive? || a.Read? || a.Finish?) && Next(s, a).Some?
    ensures Inv(Next(s, a).value)
  {
    var t, s' := a.t, Next(s, a).value;
    assert Local(s.clients, s.subs, s.threads[t]);
    if a.Receive? {
      TouchKeeps(s.clients, s.subs, s.threads[t].cid, a.closed, a.established);
    } else if a.Finish? {
      var cid := s.threads[t].cid;
      TouchKeeps(s.clients, s.subs, cid, s.clients[cid].closed || a.closed, s.clients[cid].established);
    }
    PutKeepsInv(s, t, s'.threads[t], s'.clients, s.subs);
  }

  lemma RunNextKeepsInv(s: State, t: Tid)
    requires Inv(s) && Next(s, RunNext(t)).Some?
    ensures Inv(Next(s, RunNext(t)).value)
  {
    var th := s.threads[t];
    assert Local(s.clients, s.subs, th);
    var c, subs := th.request[th.ran], Apply(s.subs, th.cid, th.request[th.ran]);
    assert th.request[..th.ran + 1] == th.request[..th.ran] + [c];
    ApplyAllAppend(th.subs0, th.cid, th.request[..th.ran], [c]);
    assert ApplyAll(s.subs, th.cid, [c]) == subs;
    PutKeepsInv(s, t, ConnHasSub(th.cid, th.request, th.ran + 1, th.subs0), s.clients, subs);
  }

  lemma AliveVisitKeepsInv(s: State, t: Tid, cid: Cid, fails: bool)
    requires Inv(s) && Next(s, Visit(t, cid, fails)).Some? && s.threads[t].AliveScan?
    ensures Inv(Next(s, Visit(t, cid, fails)).value)
  {
    var th, th' := s.threads[t], Next(s, Visit(t, cid, fails)).value.threads[t];
    assert Local(s.clients, s.subs, th);
    var visited := th.clients0.Keys - th.todo;
    KeptAgain(th.clients0, visited, cid);
    assert th.clients0.Keys - (th.todo - {cid}) == visited + {cid};
    PutKeepsInv(s, t, th', s.clients, s.subs);
  }

  lemma LeaveKeepsInv(s: State, t: Tid, topic: Topic)
    requires Inv(s) && Next(s, Leave(t, topic)).Some?
    ensures Inv(Next(s, Leave(t, topic)).value)
  {
    var th, s' := s.threads[t], Next(s, Leave(t, topic)).value;
    assert Local(s.clients, s.subs, th);
    PutKeepsInv(s, t, s'.threads[t], s.clients, s'.subs);
  }

  /** A closed client is dropped only after it has left every topic. */
  lemma DropKeepsInv(s: State, t: Tid)
    requires Inv(s) && t in s.threads && s.threads[t].AliveDrop? && s.threads[t].topics == {}
    ensures Inv(NextAdvance(s, t, s.threads[t]).value)
  {
    var th := s.threads[t];
    assert Local(s.clients, s.subs, th);
    var visited := th.clients0.Keys - th.todo;
    KeptAgain(th.clients0, visited, th.cid);
    assert th.clients0.Keys - (th.todo - {th.cid}) == visited + {th.cid};
    PurgedAgain(th.subs0, ClosedIn(th.clients0, visited), {th.cid});
    assert s.subs == Purged(th.subs0, ClosedIn(th.clients0, visited + {th.cid}));
    PutKeepsInv(s, t, AliveScan(th.todo - {th.cid}, th.clients0, th.subs0), s.clients - {th.cid}, s.subs);
  }

  lemma AdvanceKeepsInv(s: State, t: Tid)
    requires Inv(s) && t in s.threads && !s.threads[t].AliveDrop? && NextAdvance(s, t, s.threads[t]).Some?
    ensures Inv(NextAdvance(s, t, s.threads[t]).value)
  {
    var s' := NextAdvance(s, t, s.threads[t]).value;
    assert Local(s.clients, s.subs, s.threads[t]);
    PutKeepsInv(s, t, s'.threads[t], s.clients, s'.subs);
  }

  lemma SendKeepsInv(s: State, t: Tid, cid: Cid, fails: bool)
    requires Inv(s) && Next(s, Visit(t, cid, fails)).Some? && s.threads[t].DistSend?
    ensures cid in s.clients
    ensures Inv(Next(s, Visit(t, cid, fails)).value)
  {
    var th, s' := s.threads[t], Next(s, Visit(t, cid, fails)).value;
    assert Local(s.clients, s.subs, th);
    var th' := s'.threads[t];
    assert s.subs[th.topic] - th'.todo == (s.subs[th.topic] - th.todo) + {cid};
    assert s'.clients == Offered(th.clients0, s.subs[th.topic] - th'.todo, th.data, th'.failing);
    PutKeepsInv(s, t, th', s'.clients, s.subs);
  }

  /** A new distribution starts without locks or knowledge. */
  lemma AddIdleKeepsInv(s: State, topic: Topic, child: Tid)
    requires Inv(s) && child !in s.threads
    ensures Inv(s.(threads := s.threads[child := DistIdle(topic)]))
  {
  }

  lemma ForkKeepsInv(s: State, t: Tid, topic: Topic, child: Tid)
    requires Inv(s) && Next(s, Fork(t, topic, child)).Some?
    ensures Inv(Next(s, Fork(t, topic, child)).value)
  {
    var th := SetupSpawn(s.threads[t].topics - {topic});
    PutKeepsInv(s, t, th, s.clients, s.subs);
    AddIdleKeepsInv(Put(s, t, th, s.clients, s.subs), topic, child);
  }

  lemma NextKeepsInv(s: State, a: Action)
    requires Inv(s) && Next(s, a).Some?
    ensures Inv(Next(s, a).value)
  {
    match a
    case Request(t, data) => RequestKeepsInv(s, t, data);
    case Acquire(t) => AcquireKeepsInv(s, t);
    case Arrive(t, p, connId) => ArriveKeepsInv(s, t, p, connId);
    case RunNext(t) => RunNextKeepsInv(s, t);
    case Visit(t, cid, fails) =>
      if s.threads[t].AliveScan? { AliveVisitKeepsInv(s, t, cid, fails); } else { SendKeepsInv(s, t, cid, fails); }
    case Leave(t, topic) => LeaveKeepsInv(s, t, topic);
    case Advance(t) =>
      if s.threads[t].AliveDrop? { DropKeepsInv(s, t); } else { AdvanceKeepsInv(s, t); }
    case Fork(t, topic, child) => ForkKeepsInv(s, t, topic, child);
    case _ => ConnectionKeepsInv(s, a);
  }

  lemma {:induction false} RunKeepsInv(s: State, actions: seq<Action>)
    requires Inv(s) && Run(s, actions).Some?
    ensures Inv(Run(s, actions).value)
    decreases actions
  {
    if actions != [] {
      NextKeepsInv(s, actions[0]);
      RunKeepsInv(Next(s, actions[0]).value, actions[1..]);
    }
  }

  // ---------- Safety over all runs ----------

  lemma ReachableInv(s: State)
    requires Reachable(s)
    ensures Inv(s)
  {
    var init :| Init(init) && ReachableFrom(init, s);
    var actions :| Run(init, actions) == Some(s);
    InitInv(init);
    RunKeepsInv(init, actions);
  }

  /** In every interleaving, at every step: subscribed ids are clients, so a distribution
      finds every subscriber it looks up, and no thread ever panics on a lookup. */
  lemma LookupNeverFails(s: State)
    requires Reachable(s)
    ensures Consistent(s.clients, s.subs)
    ensures forall t :: t in s.threads && s.threads[t].DistSend? ==> s.threads[t].todo <= s.clients.Keys
    ensures forall t :: t in s.threads ==> !s.threads[t].Panicked?
  {
    ReachableInv(s);
    forall t | t in s.threads && s.threads[t].DistSend?
      ensures s.threads[t].todo <= s.clients.Keys
    {
      assert Local(s.clients, s.subs, s.threads[t]);
    }
    forall t | t in s.threads
      ensures !s.threads[t].Panicked?
    {
      assert Local(s.clients, s.subs, s.threads[t]);
    }
  }

  /** Mutual exclusion: two threads never hold the same mutex. */
  lemma MutualExclusion(s: State, t: Tid, u: Tid)
    requires Reachable(s) && t in s.threads && u in s.threads && t != u
    ensures !(s.threads[t].HoldsList() && s.threads[u].HoldsList())
    ensures !(s.threads[t].HoldsSub() && s.threads[u].HoldsSub())
  {
    ReachableInv(s);
  }
}
