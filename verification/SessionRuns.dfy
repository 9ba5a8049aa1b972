/** Whole runs of the sessions' system: what reaches the engine is what the clients asked
    for and the data delivered, and every session that ends without a panic cleans up. */
module SessionRuns {
  import opened Basics
  import opened ChannelNames
  import opened SessionRequests
  import opened ReplayEngine
  import opened ReplayTrace
  import opened ReplaySessions

  /** The step ends session `id` in an orderly way: its client leaves, or asks for
      something that fails. */
  ghost predicate Leaves(a: Action, id: Id) {
    || a == Close(id)
    || (a.Ask? && a.id == id && Handle(id, a.action, a.args).Failed?)
  }

  /** What a step makes session `id` ask of the engine. */
  ghost function AskedBy(a: Action, id: Id): seq<SocketAction> {
    if Leaves(a, id) then [Unsubscribe(None)]
    else if a.Ask? && a.id == id then Handle(id, a.action, a.args).queued
    else []
  }

  ghost function Asked(actions: seq<Action>, id: Id): seq<SocketAction> {
    if actions == [] then [] else AskedBy(actions[0], id) + Asked(actions[1..], id)
  }

  function Pending(y: System, id: Id): seq<SocketAction> {
    if id in y.sessions then y.sessions[id].pending else []
  }

  lemma PendingNext(y: System, a: Action, id: Id)
    requires Inv(y) && Next(y, a).Some?
    ensures Pending(Next(y, a).value, id) ==
            if a == Push(id) then y.sessions[id].pending[1..]
            else if a == Die(id) then []
            else Pending(y, id) + AskedBy(a, id)
  {
    if id in y.sessions {
      assert SessionInv(y, id);
    }
  }

  /** A step moves what a session has pending on to the engine's channel, or adds what is
      asked; only a panic loses something. */
  lemma AskedNext(y: System, a: Action, id: Id)
    requires Inv(y) && Next(y, a).Some?
    ensures a != Die(id) ==>
      Submitted(Next(y, a).value, id) + Pending(Next(y, a).value, id) == Submitted(y, id) + Pending(y, id) + AskedBy(a, id)
    ensures a == Die(id) ==>
      Submitted(Next(y, a).value, id) == Submitted(y, id) && Pending(Next(y, a).value, id) == []
  {
    SubmittedNext(y, a, id);
    PendingNext(y, a, id);
    if a == Push(id) {
      HeadMoves(Submitted(y, id), Pending(y, id));
      assert AskedBy(a, id) == [];
    } else {
      Associates(Submitted(y, id), Pending(y, id), AskedBy(a, id));
    }
  }

  lemma HeadMoves(done: seq<SocketAction>, pending: seq<SocketAction>)
    requires pending != []
    ensures done + [pending[0]] + pending[1..] == done + pending + []
  {
  }

  lemma Associates<T>(a: seq<T>, b: seq<T>, c: seq<T>)
    ensures a + [] + (b + c) == a + b + c == a + (b + c)
  {
  }

  /** Nothing is lost, added or reordered on the way to the engine: what session `id` has
      submitted, followed by what it still has to, is all it was made to ask for. */
  lemma {:induction false} SubmittedIsAsked(y: System, actions: seq<Action>, id: Id)
    requires Inv(y) && Run(y, actions).Some? && Die(id) !in actions
    ensures Total(Run(y, actions).value, id) == Total(y, id) + Asked(actions, id)
    decreases actions
  {
    if actions != [] {
      var a, rest := actions[0], actions[1..];
      TotalNext(y, a, id);
      NextKeepsInv(y, a);
      SubmittedIsAsked(Next(y, a).value, rest, id);
      Associates(Total(y, id), AskedBy(a, id), Asked(rest, id));
    }
  }

  /** All that session `id` was made to ask, submitted or not. */
  ghost function Total(y: System, id: Id): seq<SocketAction> {
    Submitted(y, id) + Pending(y, id)
  }

  lemma TotalNext(y: System, a: Action, id: Id)
    requires Inv(y) && Next(y, a).Some? && a != Die(id)
    ensures Total(Next(y, a).value, id) == Total(y, id) + AskedBy(a, id)
  {
    AskedNext(y, a, id);
  }

  /** From the start: what the engine's channel has taken from a session. */
  lemma SessionsSubmitWhatTheyAsk(actions: seq<Action>, id: Id)
    requires Run(START, actions).Some? && Die(id) !in actions
    ensures var y := Run(START, actions).value;
      Total(y, id) == Asked(actions, id)
  {
    SubmittedIsAsked(START, actions, id);
    NothingAtStart(id);
    assert [] + Asked(actions, id) == Asked(actions, id);
  }

  lemma NothingAtStart(id: Id)
    ensures Total(START, id) == []
  {
    assert START.history + START.channel == [];
  }

  /** The steps give session `id` nothing new to ask, and do not kill it. */
  ghost predicate Silent(actions: seq<Action>, id: Id) {
    forall i :: 0 <= i < |actions| ==> actions[i] != Die(id) && AskedBy(actions[i], id) == []
  }

  lemma {:induction false} SilentAsksNothing(actions: seq<Action>, id: Id)
    requires Silent(actions, id)
    ensures Asked(actions, id) == [] && Die(id) !in actions
  {
    if actions != [] {
      SilentAsksNothing(actions[1..], id);
      assert actions == [actions[0]] + actions[1..];
    }
  }

  /** Between a request and the session's next idle moment it submits exactly what the
      words of the request ask for. */
  lemma AskIsSubmitted(y: System, id: Id, action: string, args: seq<MarketDataArg>, actions: seq<Action>)
    requires Inv(y) && Next(y, Ask(id, action, args)).Some? && Handle(id, action, args).Handled?
    requires Silent(actions, id) && Run(Next(y, Ask(id, action, args)).value, actions).Some?
    requires Pending(Run(Next(y, Ask(id, action, args)).value, actions).value, id) == []
    ensures Submitted(Run(Next(y, Ask(id, action, args)).value, actions).value, id) ==
            Submitted(y, id) + Handle(id, action, args).queued
  {
    var y1 := Next(y, Ask(id, action, args)).value;
    AskedNext(y, Ask(id, action, args), id);
    NextKeepsInv(y, Ask(id, action, args));
    SilentAsksNothing(actions, id);
    SubmittedIsAsked(y1, actions, id);
    assert Submitted(y, id) + [] + Handle(id, action, args).queued == Submitted(y, id) + Handle(id, action, args).queued;
    assert forall s: seq<SocketAction> :: s + [] == s;
  }

  // ---------- Orderly ends ----------

  lemma LeavingNext(y: System, a: Action, id: Id)
    requires Inv(y) && Next(y, a).Some? && Leaves(a, id)
    ensures var y' := Next(y, a).value;
            id in y'.sessions && y'.sessions[id].phase.Closing? && y'.sessions[id].pending == [Unsubscribe(None)]
  {
  }

  ghost predicate OrderlyEnd(y: System, id: Id) {
    && id in y.sessions && (y.sessions[id].phase.Closing? || y.sessions[id].phase.Closed?)
    && (y.sessions[id].phase.Closing? <==> y.sessions[id].pending != [])
  }

  lemma OrderlyNext(y: System, a: Action, id: Id)
    requires Inv(y) && Next(y, a).Some? && OrderlyEnd(y, id)
    ensures OrderlyEnd(Next(y, a).value, id) && AskedBy(a, id) == [] && a != Die(id)
  {
    assert SessionInv(y, id);
  }

  lemma {:induction false} OrderlyForGood(y: System, actions: seq<Action>, id: Id)
    requires Inv(y) && Run(y, actions).Some? && OrderlyEnd(y, id)
    ensures Inv(Run(y, actions).value) && OrderlyEnd(Run(y, actions).value, id)
    decreases actions
  {
    if actions != [] {
      OrderlyNext(y, actions[0], id);
      NextKeepsInv(y, actions[0]);
      OrderlyForGood(Next(y, actions[0]).value, actions[1..], id);
    }
  }

  /** Whoever leaves cleans up: after an orderly end a session never panics, in any
      continuation, and once nothing is pending its last word to the engine is to forget it. */
  lemma LeaversCleanUp(y: System, a: Action, actions: seq<Action>, id: Id)
    requires Inv(y) && Next(y, a).Some? && Leaves(a, id) && Run(Next(y, a).value, actions).Some?
    ensures var y' := Run(Next(y, a).value, actions).value;
      && id in y'.sessions && !y'.sessions[id].phase.Dead? && !y'.sessions[id].phase.Open?
      && (y'.sessions[id].pending == [] ==> y'.sessions[id].phase.Closed? && EndsWithLeave(Submitted(y', id)))
  {
    LeavingNext(y, a, id);
    NextKeepsInv(y, a);
    OrderlyForGood(Next(y, a).value, actions, id);
    assert SessionInv(Run(Next(y, a).value, actions).value, id);
  }

  /** And only leaving closes a session: the phases tell how it ended. */
  lemma PhaseNext(y: System, a: Action, id: Id)
    requires Inv(y) && Next(y, a).Some? && id in y.sessions && y.sessions[id].phase.Open?
    ensures id in Next(y, a).value.sessions
    ensures match Next(y, a).value.sessions[id].phase
            case Open => !Leaves(a, id) && a != Die(id)
            case Closing => Leaves(a, id)
            case Closed => false
            case Dead => a == Die(id)
  {
  }

  /** A session comes to be by connecting, open and idle under an id nobody had. */
  lemma ConnectOpens(y: System, a: Action, id: Id)
    requires Reachable(y) && Next(y, a).Some?
    ensures id !in y.sessions && id in Next(y, a).value.sessions <==> a.Connect? && id == y.nextId
    ensures a.Connect? ==> Next(y, a).value.sessions == y.sessions[y.nextId := Session(Open, [])]
    ensures a.Connect? ==> Submitted(Next(y, a).value, y.nextId) == []
  {
    IdsAreFresh(y);
    SubmittedNext(y, a, y.nextId);
  }

  ghost function Connects(actions: seq<Action>): nat {
    if actions == [] then 0 else (if actions[0].Connect? then 1 else 0) + Connects(actions[1..])
  }

  ghost predicate Numbered(y: System) {
    y.nextId >= 1 && forall id :: id in y.sessions <==> 1 <= id < y.nextId
  }

  lemma {:induction false} NumberedForGood(y: System, actions: seq<Action>)
    requires Numbered(y) && Run(y, actions).Some?
    ensures Numbered(Run(y, actions).value) && Run(y, actions).value.nextId == y.nextId + Connects(actions)
    decreases actions
  {
    if actions != [] {
      var y1 := Next(y, actions[0]).value;
      assert Numbered(y1);
      NumberedForGood(y1, actions[1..]);
    }
  }

  /** Sessions are numbered from one, in the order in which they connect, and a session is
      never forgotten. */
  lemma SessionsAreNumbered(actions: seq<Action>, id: Id)
    requires Run(START, actions).Some?
    ensures id in Run(START, actions).value.sessions <==> 1 <= id <= Connects(actions)
  {
    NumberedForGood(START, actions);
  }

  /** The engine's channel never holds more than its capacity, and a session with something
      pending has to wait exactly while the channel is full. */
  lemma {:induction false} ChannelIsBounded(y: System, actions: seq<Action>)
    requires |y.channel| <= 1024 && Run(y, actions).Some?
    ensures var y' := Run(y, actions).value;
      && |y'.channel| <= 1024
      && forall id :: id in y'.sessions && y'.sessions[id].pending != [] ==>
           (Next(y', Push(id)).Some? <==> |y'.channel| < 1024)
    decreases actions
  {
    if actions != [] {
      ChannelIsBounded(Next(y, actions[0]).value, actions[1..]);
    }
  }

  // ---------- Data ----------

  ghost function DataIn(h: seq<Event>): seq<Event> {
    if h == [] then [] else DataIn(h[..|h| - 1]) + if h[|h| - 1].Data? then [h[|h| - 1]] else []
  }

  ghost function DeliveredBy(a: Action): seq<Event> {
    if a.Deliver? then [Data(a.symbol, a.msgType, a.payload)] else []
  }

  ghost function Deliveries(actions: seq<Action>): seq<Event> {
    if actions == [] then [] else DeliveredBy(actions[0]) + Deliveries(actions[1..])
  }

  ghost predicate OnlyActs(h: seq<Event>) {
    forall k :: 0 <= k < |h| ==> h[k].Act?
  }

  lemma DataNext(y: System, a: Action)
    requires OnlyActs(y.channel) && Next(y, a).Some?
    ensures OnlyActs(Next(y, a).value.channel)
    ensures DataIn(Next(y, a).value.history) == DataIn(y.history) + DeliveredBy(a)
  {
    var y' := Next(y, a).value;
    if a.Take? || a.Deliver? {
      assert y'.history[..|y'.history| - 1] == y.history;
    }
  }

  /** The engine meets every message delivered to it once, in order of arrival. */
  lemma {:induction false} DataIsDelivered(y: System, actions: seq<Action>)
    requires OnlyActs(y.channel) && Run(y, actions).Some?
    ensures DataIn(Run(y, actions).value.history) == DataIn(y.history) + Deliveries(actions)
    decreases actions
  {
    if actions != [] {
      var a, rest := actions[0], actions[1..];
      DataNext(y, a);
      DataIsDelivered(Next(y, a).value, rest);
      Associates(DataIn(y.history), DeliveredBy(a), Deliveries(rest));
    }
  }

  // ---------- Every session can be drained ----------

  ghost predicate LeadsTo(y: System, y': System) {
    exists actions :: Run(y, actions) == Some(y')
  }

  lemma {:induction false} RunAppend(y: System, a: seq<Action>, b: seq<Action>)
    requires Run(y, a).Some?
    ensures Run(y, a + b) == Run(Run(y, a).value, b)
    decreases a
  {
    if a == [] {
      assert a + b == b;
    } else {
      RunAppend(Next(y, a[0]).value, a[1..], b);
      assert (a + b)[0] == a[0] && (a + b)[1..] == a[1..] + b;
    }
  }

  lemma ThenLeads(y: System, a: Action, y1: System, y2: System)
    requires Next(y, a) == Some(y1) && LeadsTo(y1, y2)
    ensures LeadsTo(y, y2)
  {
    var actions :| Run(y1, actions) == Some(y2);
    assert ([a] + actions)[1..] == actions;
    assert Run(y, [a] + actions) == Some(y2);
  }

  lemma LeadsTransitive(y: System, y1: System, y2: System)
    requires LeadsTo(y, y1) && LeadsTo(y1, y2)
    ensures LeadsTo(y, y2)
  {
    var a :| Run(y, a) == Some(y1);
    var b :| Run(y1, b) == Some(y2);
    RunAppend(y, a, b);
  }

  /** The engine can empty its channel. */
  lemma {:induction false} TakeAll(y: System) returns (y': System)
    ensures LeadsTo(y, y') && y'.channel == [] && y'.sessions == y.sessions
    decreases |y.channel|
  {
    if y.channel == [] {
      y' := y;
      assert Run(y, []) == Some(y);
    } else {
      var y1 := Next(y, Take).value;
      y' := TakeAll(y1);
      ThenLeads(y, Take, y1, y');
    }
  }

  /** A session can get rid of all it has pending. */
  lemma {:induction false} PushAll(y: System, id: Id) returns (y': System)
    requires id in y.sessions
    ensures LeadsTo(y, y') && y'.channel == [] && id in y'.sessions && y'.sessions[id].pending == []
    ensures y'.sessions[id].phase ==
            if y.sessions[id].pending != [] && y.sessions[id].phase.Closing? then Closed else y.sessions[id].phase
    decreases |y.sessions[id].pending|
  {
    var y1 := TakeAll(y);
    if y1.sessions[id].pending == [] {
      y' := y1;
    } else {
      var y2 := Next(y1, Push(id)).value;
      y' := PushAll(y2, id);
      ThenLeads(y1, Push(id), y2, y');
      LeadsTransitive(y, y1, y');
    }
  }

  /** Cleaning up is always possible: from every state, every session that has not panicked
      can come to its orderly end and be drained, and then the engine knows it no more. */
  lemma EverySessionCanDrain(y: System, id: Id) returns (y': System)
    requires Inv(y) && id in y.sessions && !y.sessions[id].phase.Dead?
    ensures LeadsTo(y, y') && Drained(y', id) && !Known(y'.history, |y'.history|, id)
  {
    assert SessionInv(y, id);
    y' := PushAll(y, id);
    if y'.sessions[id].phase.Open? {
      var y1 := y';
      var y2 := Next(y1, Close(id)).value;
      y' := PushAll(y2, id);
      ThenLeads(y1, Close(id), y2, y');
      LeadsTransitive(y, y1, y');
    }
    var actions :| Run(y, actions) == Some(y');
    RunKeepsInv(y, actions);
    DrainedIsForgotten(y', id);
  }
}
