/** Sessions around the replay engine: each websocket gets an id and a channel of its own,
    queues actions into the one channel the engine reads, and queues a final
    unsubscription when it ends. Sessions, engine and data interleave freely. */
module ReplaySessions {
  import opened Basics
  import opened ChannelNames
  import opened SessionRequests
  import opened ReplayEngine
  import opened ReplayTrace
  import opened ReplayDelivery

  /** `Dead` sessions end without running their cleanup (the task panicked). */
  datatype Phase = Open | Closing | Closed | Dead

  datatype Session = Session(phase: Phase, pending: seq<SocketAction>)

  datatype System = System(
    nextId: Id,
    sessions: map<Id, Session>,
    channel: seq<Event>,
    history: seq<Event>)
  {
    function Engine(): ReplayEngine.Engine {
      After(history, |history|)
    }
  }

  /** `Close` stands for every end of the session's loop that is not a reply to a readable
      message: the client closes or vanishes, a message is not JSON, a send to it fails. */
  datatype Action =
    | Connect
    | Ask(id: Id, action: string, args: seq<MarketDataArg>)
    | Push(id: Id)
    | Close(id: Id)
    | Die(id: Id)
    | Take
    | Deliver(symbol: Symbol, msgType: string, payload: Bytes)

  const CAPACITY := 1024

  const START := System(1, map[], [], [])

  const LEAVING := Session(Closing, [Unsubscribe(None)])

  function Next(y: System, a: Action): Option<System> {
    match a
    case Connect =>
      Some(y.(nextId := y.nextId + 1, sessions := y.sessions[y.nextId := Session(Open, [])]))
    case Ask(id, action, args) =>
      if id in y.sessions && y.sessions[id] == Session(Open, []) then
        var outcome := Handle(id, action, args);
        Some(y.(sessions := y.sessions[id := if outcome.Handled? then Session(Open, outcome.queued) else LEAVING]))
      else None
    case Push(id) =>
      if id in y.sessions && y.sessions[id].pending != [] && |y.channel| < CAPACITY then
        var it := y.sessions[id];
        var phase := if it.phase.Closing? then Closed else it.phase;
        Some(y.(sessions := y.sessions[id := Session(phase, it.pending[1..])],
                channel := y.channel + [Act(id, it.pending[0])]))
      else None
    case Close(id) =>
      if id in y.sessions && y.sessions[id] == Session(Open, []) then
        Some(y.(sessions := y.sessions[id := LEAVING]))
      else None
    case Die(id) =>
      if id in y.sessions && y.sessions[id].phase.Open? then
        Some(y.(sessions := y.sessions[id := Session(Dead, [])]))
      else None
    case Take =>
      if y.channel == [] then None
      else Some(y.(channel := y.channel[1..], history := y.history + [y.channel[0]]))
    case Deliver(symbol, msgType, payload) =>
      Some(y.(history := y.history + [Data(symbol, msgType, payload)]))
  }

  function Run(y: System, actions: seq<Action>): Option<System>
    decreases actions
  {
    if actions == [] then Some(y)
    else
      match Next(y, actions[0])
      case None => None
      case Some(y') => Run(y', actions[1..])
  }

  ghost predicate Reachable(y: System) {
    exists actions :: Run(START, actions) == Some(y)
  }

  // ---------- Invariant ----------

  /** The actions of one session within a sequence of events. */
  ghost function ActsOf(h: seq<Event>, id: Id): seq<SocketAction> {
    if h == [] then []
    else
      var last := h[|h| - 1];
      ActsOf(h[..|h| - 1], id) + if last.Act? && last.id == id then [last.action] else []
  }

  lemma ActsOfSnoc(h: seq<Event>, ev: Event, id: Id)
    ensures ActsOf(h + [ev], id) == ActsOf(h, id) + if ev.Act? && ev.id == id then [ev.action] else []
  {
  }

  lemma {:induction false} ActsOfAppend(a: seq<Event>, b: seq<Event>, id: Id)
    ensures ActsOf(a + b, id) == ActsOf(a, id) + ActsOf(b, id)
  {
    if b == [] {
      assert a + b == a;
    } else {
      var front, last := b[..|b| - 1], b[|b| - 1];
      ActsOfAppend(a, front, id);
      assert a + b == (a + front) + [last] && b == front + [last];
      ActsOfSnoc(a + front, last, id);
      ActsOfSnoc(front, last, id);
    }
  }

  /** Everything `id` has queued so far, processed or not. */
  ghost function Submitted(y: System, id: Id): seq<SocketAction> {
    ActsOf(y.history + y.channel, id)
  }

  ghost predicate OwnChannel(id: Id, action: SocketAction) {
    action.Subscribe? ==> action.tx == id
  }

  ghost predicate OwnChannels(h: seq<Event>) {
    forall k :: 0 <= k < |h| && h[k].Act? ==> OwnChannel(h[k].id, h[k].action)
  }

  ghost predicate EndsWithLeave(actions: seq<SocketAction>) {
    actions != [] && actions[|actions| - 1] == Unsubscribe(None)
  }

  ghost predicate SessionInv(y: System, id: Id)
    requires id in y.sessions
  {
    var it := y.sessions[id];
    && id < y.nextId
    && (forall i :: 0 <= i < |it.pending| ==> OwnChannel(id, it.pending[i]))
    && (it.phase.Closing? ==> it.pending == [Unsubscribe(None)])
    && (it.phase.Closed? ==> it.pending == [] && EndsWithLeave(Submitted(y, id)))
    && (it.phase.Dead? ==> it.pending == [])
  }

  ghost predicate Inv(y: System) {
    && (forall id :: id in y.sessions ==> SessionInv(y, id))
    && (forall id :: id !in y.sessions ==> Submitted(y, id) == [])
    && OwnChannels(y.history) && OwnChannels(y.channel)
  }

  /** How a step changes what a session has submitted. */
  lemma SubmittedNext(y: System, a: Action, id: Id)
    requires Next(y, a).Some?
    ensures Submitted(Next(y, a).value, id) ==
            Submitted(y, id) + if a.Push? && a.id == id then [y.sessions[id].pending[0]] else []
  {
    var y' := Next(y, a).value;
    match a {
      case Push(who) =>
        assert y'.history + y'.channel == (y.history + y.channel) + [Act(who, y.sessions[who].pending[0])];
        ActsOfSnoc(y.history + y.channel, Act(who, y.sessions[who].pending[0]), id);
      case Take =>
        assert y'.history + y'.channel == y.history + y.channel;
      case Deliver(symbol, msgType, payload) =>
        ActsOfSnoc(y.history, Data(symbol, msgType, payload), id);
        ActsOfAppend(y'.history, y.channel, id);
        ActsOfAppend(y.history, y.channel, id);
      case _ =>
    }
  }

  lemma NextKeepsSession(y: System, a: Action, id: Id)
    requires Inv(y) && Next(y, a).Some? && id in Next(y, a).value.sessions
    ensures SessionInv(Next(y, a).value, id)
  {
    SubmittedNext(y, a, id);
    if id in y.sessions {
      assert SessionInv(y, id);
    }
  }

  lemma NextKeepsInv(y: System, a: Action)
    requires Inv(y) && Next(y, a).Some?
    ensures Inv(Next(y, a).value)
  {
    var y' := Next(y, a).value;
    forall id | id in y'.sessions
      ensures SessionInv(y', id)
    {
      NextKeepsSession(y, a, id);
    }
    forall id | id !in y'.sessions
      ensures Submitted(y', id) == []
    {
      SubmittedNext(y, a, id);
    }
    if a.Push? {
      assert SessionInv(y, a.id);
    }
  }

  lemma {:induction false} RunKeepsInv(y: System, actions: seq<Action>)
    requires Inv(y) && Run(y, actions).Some?
    ensures Inv(Run(y, actions).value)
    decreases actions
  {
    if actions != [] {
      NextKeepsInv(y, actions[0]);
      RunKeepsInv(Next(y, actions[0]).value, actions[1..]);
    }
  }

  lemma ReachableInv(y: System)
    requires Reachable(y)
    ensures Inv(y)
  {
    var actions :| Run(START, actions) == Some(y);
    RunKeepsInv(START, actions);
  }

  // ---------- Cleanup ----------

  /** `id` is done: its session ended normally and the engine has processed all it queued. */
  ghost predicate Drained(y: System, id: Id) {
    id in y.sessions && y.sessions[id].phase.Closed? && ActsOf(y.channel, id) == []
  }

  /** A session whose last processed action is to leave is not a known user. */
  lemma {:induction false} LastLeaveForgets(h: seq<Event>, n: nat, id: Id)
    requires n <= |h| && EndsWithLeave(ActsOf(h[..n], id))
    ensures !Known(h, n, id)
  {
    var k := n - 1;
    assert h[..n][..k] == h[..k];
    KnownNext(h, k, id);
    if !(h[k].Act? && h[k].id == id) {
      LastLeaveForgets(h, k, id);
    }
  }

  lemma DrainedIsForgotten(y: System, id: Id)
    requires Inv(y) && Drained(y, id)
    ensures !Known(y.history, |y.history|, id)
    ensures forall s :: !Recipient(y.history, |y.history|, id, s)
  {
    assert SessionInv(y, id);
    ActsOfAppend(y.history, y.channel, id);
    assert y.history[..|y.history|] == y.history;
    LastLeaveForgets(y.history, |y.history|, id);
    forall s ensures !Recipient(y.history, |y.history|, id, s) {
      NotKnownNotRecipient(y.history, |y.history|, id, s);
    }
  }

  lemma NotKnownNotRecipient(h: seq<Event>, n: nat, id: Id, s: Symbol)
    requires n <= |h| && !Known(h, n, id)
    ensures !Recipient(h, n, id, s)
  {
    if Recipient(h, n, id, s) {
      RecipientHolds(h, n, id, s);
      HoldsIsUserIndex(h, n, id, s);
      UsersAreKnown(h, n, id);
    }
  }

  /** After a normal end has been processed, the engine has forgotten the session: it is
      in neither index. */
  lemma DrainedLeavesBothIndexes(y: System, id: Id)
    requires Reachable(y) && Drained(y, id)
    ensures id !in y.Engine().users
    ensures forall s :: s in y.Engine().subs ==> id !in y.Engine().subs[s]
  {
    ReachableInv(y);
    DrainedIsForgotten(y, id);
    UsersAreKnown(y.history, |y.history|, id);
    forall s | s in y.Engine().subs ensures id !in y.Engine().subs[s] {
      RecipientsFollowHistory(y.history, |y.history|, id, s);
    }
  }

  lemma OwnChannelsAreChannels(h: seq<Event>)
    requires OwnChannels(h)
    ensures Channels(h, (id: Id) => id)
  {
  }

  lemma {:induction false} HistoryPrefix(h: seq<Event>, ev: Event, n: nat)
    requires n <= |h|
    ensures After(h + [ev], n) == After(h, n)
  {
    if n > 0 {
      HistoryPrefix(h, ev, n - 1);
    }
  }

  /** A drained session has nothing left to queue, so it stays drained. */
  lemma DrainedStays(y: System, a: Action, id: Id)
    requires Inv(y) && Drained(y, id) && Next(y, a).Some?
    ensures Drained(Next(y, a).value, id)
    ensures a.Take? && y.channel[0].Act? ==> y.channel[0].id != id
  {
    assert SessionInv(y, id);
    match a {
      case Push(who) => ActsOfSnoc(y.channel, Act(who, y.sessions[who].pending[0]), id);
      case Take =>
        var head, rest := y.channel[0], y.channel[1..];
        assert y.channel == [head] + rest;
        ActsOfAppend([head], rest, id);
        assert [] + [head] == [head];
        ActsOfSnoc([], head, id);
      case _ =>
    }
  }

  /** A step leaves a drained session drained, and the engine sends it nothing. */
  lemma DrainedNext(y: System, a: Action, id: Id)
    requires Inv(y) && Drained(y, id) && Next(y, a).Some?
    ensures Drained(Next(y, a).value, id)
    ensures Queue(Next(y, a).value.Engine().out, id) == Queue(y.Engine().out, id)
  {
    DrainedStays(y, a, id);
    NextKeepsInv(y, a);
    match a {
      case Take => SilentEvent(y, y.channel[0], id);
      case Deliver(symbol, msgType, payload) => SilentEvent(y, Data(symbol, msgType, payload), id);
      case _ =>
    }
  }

  lemma SilentEvent(y: System, ev: Event, id: Id)
    requires Inv(y) && Drained(y, id) && OwnChannels(y.history + [ev])
    requires ev.Act? ==> ev.id != id
    ensures Queue(After(y.history + [ev], |y.history| + 1).out, id) == Queue(y.Engine().out, id)
  {
    var h, n := y.history + [ev], |y.history|;
    HistoryPrefix(y.history, ev, n);
    DrainedIsForgotten(y, id);
    UsersAreKnown(y.history, n, id);
    UsersAreKnown(h, n, id);
    OwnChannelsAreChannels(h);
    QueueNext(h, n, id, (id: Id) => id);
    if ev.Data? {
      NotKnownNotRecipient(h, n, id, ev.symbol);
    }
  }

  /** Whatever happens later, the engine never sends a drained session anything again. */
  lemma {:induction false} DrainedStaysSilent(y: System, actions: seq<Action>, id: Id)
    requires Inv(y) && Drained(y, id) && Run(y, actions).Some?
    ensures Drained(Run(y, actions).value, id)
    ensures Queue(Run(y, actions).value.Engine().out, id) == Queue(y.Engine().out, id)
    decreases actions
  {
    if actions != [] {
      var y' := Next(y, actions[0]).value;
      DrainedNext(y, actions[0], id);
      NextKeepsInv(y, actions[0]);
      DrainedStaysSilent(y', actions[1..], id);
    }
  }

  /** Once every session has ended normally and the channel is empty, the user index is
      empty and so is every entry. */
  lemma AllClosedAllEmpty(y: System)
    requires Reachable(y) && y.channel == []
    requires forall id :: id in y.sessions ==> y.sessions[id].phase.Closed?
    ensures y.Engine().users == map[]
    ensures forall s :: s in y.Engine().subs ==> y.Engine().subs[s] == map[]
  {
    ReachableInv(y);
    var e := y.Engine();
    forall id ensures id !in e.users && forall s :: s in e.subs ==> id !in e.subs[s] {
      if id in y.sessions {
        DrainedLeavesBothIndexes(y, id);
      } else {
        StrangersAreUnknown(y, id);
      }
    }
  }

  /** Nobody without a session is in the indexes. */
  lemma StrangersAreUnknown(y: System, id: Id)
    requires Inv(y) && id !in y.sessions
    ensures id !in y.Engine().users
    ensures forall s :: s in y.Engine().subs ==> id !in y.Engine().subs[s]
  {
    ActsOfAppend(y.history, y.channel, id);
    assert y.history[..|y.history|] == y.history;
    NoActsUnknown(y.history, |y.history|, id);
    UsersAreKnown(y.history, |y.history|, id);
    forall s | s in y.Engine().subs ensures id !in y.Engine().subs[s] {
      NotKnownNotRecipient(y.history, |y.history|, id, s);
      RecipientsFollowHistory(y.history, |y.history|, id, s);
    }
  }

  lemma {:induction false} NoActsUnknown(h: seq<Event>, n: nat, id: Id)
    requires n <= |h| && ActsOf(h[..n], id) == []
    ensures !Known(h, n, id)
  {
    if n > 0 {
      assert h[..n][..n - 1] == h[..n - 1];
      KnownNext(h, n - 1, id);
      NoActsUnknown(h, n - 1, id);
    }
  }

  /** Ids are never handed out twice: a new session's id has not been used before. */
  lemma IdsAreFresh(y: System)
    requires Reachable(y)
    ensures y.nextId !in y.sessions && Submitted(y, y.nextId) == []
  {
    ReachableInv(y);
  }

  /** In every reachable system, the engine has sent each session exactly the transcript of
      the processed history. */
  lemma SessionsAreSentTranscripts(y: System, id: Id)
    requires Reachable(y)
    ensures Queue(y.Engine().out, id) == Transcript(y.history, |y.history|, id)
  {
    ReachableInv(y);
    OwnChannelsAreChannels(y.history);
    ChannelsCarryTranscripts(y.history, |y.history|, id, (id: Id) => id);
  }
}
