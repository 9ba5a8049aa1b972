/** What reaches a session's own channel: the engine, the session itself and the session's
    history tasks all write to it, for as long as the session holds the other end. */
module SessionInboxes {
  import opened Basics
  import opened SessionRequests
  import opened ReplayEngine
  import opened ReplayDelivery
  import opened ReplaySessions

  /** The sessions' system; `inbox` records the lines each channel has accepted so far, and
      `tasks` the history tasks that are running, by session. */
  datatype World = World(system: System, inbox: map<Id, seq<Line>>, tasks: multiset<Id>)
  {
    function Inbox(id: Id): seq<Line> {
      if id in inbox then inbox[id] else []
    }

    /** The session still holds the receiving end of its channel. */
    predicate Listens(id: Id) {
      id in system.sessions && (system.sessions[id].phase.Open? || system.sessions[id].phase.Closing?)
    }
  }

  datatype Move = Inner(a: Action) | HistorySend(id: Id, text: string) | HistoryEnd(id: Id)

  const BEGINNING := World(START, map[], multiset{})

  /** The messages at the end of `after` that are not in `before`. */
  function Added(before: seq<Message>, after: seq<Message>): seq<Line> {
    if |before| <= |after| then
      seq(|after| - |before|, i requires 0 <= i < |after| - |before| => FromEngine(after[|before| + i]))
    else []
  }

  /** What the channel of `id` accepts when the engine processes `ev`. */
  function Heard(w: World, ev: Event, id: Id): seq<Line> {
    var e := w.system.Engine();
    if w.Listens(id) then Added(Queue(e.out, id), Queue(Step(e, ev).out, id)) else []
  }

  /** What a step of the system adds to the channel of `id`. */
  function NewLines(w: World, a: Action, id: Id): seq<Line> {
    match a
    case Ask(who, action, args) =>
      var outcome := Handle(who, action, args);
      if who == id && outcome.Handled? then outcome.notices else []
    case Take => if w.system.channel == [] then [] else Heard(w, w.system.channel[0], id)
    case Deliver(symbol, msgType, payload) => Heard(w, Data(symbol, msgType, payload), id)
    case _ => []
  }

  function NewTasks(a: Action): multiset<Id> {
    if !a.Ask? then multiset{}
    else
      var outcome := Handle(a.id, a.action, a.args);
      if outcome.Handled? && outcome.replays then multiset{a.id} else multiset{}
  }

  /** A history task whose session no longer listens panics when it sends. */
  function NextWorld(w: World, m: Move): Option<World> {
    match m
    case Inner(a) =>
      (match Next(w.system, a)
       case None => None
       case Some(y') =>
         Some(World(y', map id | id in w.system.sessions :: w.Inbox(id) + NewLines(w, a, id), w.tasks + NewTasks(a))))
    case HistorySend(id, text) =>
      if id !in w.tasks then None
      else if w.Listens(id) then Some(w.(inbox := w.inbox[id := w.Inbox(id) + [FromHistory(text)]]))
      else Some(w.(tasks := w.tasks - multiset{id}))
    case HistoryEnd(id) =>
      if id in w.tasks then Some(w.(tasks := w.tasks - multiset{id})) else None
  }

  function RunWorld(w: World, moves: seq<Move>): Option<World>
    decreases moves
  {
    if moves == [] then Some(w)
    else
      match NextWorld(w, moves[0])
      case None => None
      case Some(w') => RunWorld(w', moves[1..])
  }

  // ---------- The engine's share ----------

  /** The engine's messages among some lines, in order. */
  ghost function EngineLines(lines: seq<Line>): seq<Message> {
    if lines == [] then []
    else
      var last := lines[|lines| - 1];
      EngineLines(lines[..|lines| - 1]) + if last.FromEngine? then [last.message] else []
  }

  lemma {:induction false} EngineLinesAppend(a: seq<Line>, b: seq<Line>)
    ensures EngineLines(a + b) == EngineLines(a) + EngineLines(b)
  {
    if b == [] {
      assert a + b == a;
    } else {
      var front, last := b[..|b| - 1], b[|b| - 1];
      EngineLinesAppend(a, front);
      assert (a + b)[..|a + b| - 1] == a + front;
    }
  }

  lemma {:induction false} NoEngineLines(lines: seq<Line>)
    requires forall i :: 0 <= i < |lines| ==> !lines[i].FromEngine?
    ensures EngineLines(lines) == []
  {
    if lines != [] {
      NoEngineLines(lines[..|lines| - 1]);
    }
  }

  lemma EngineLinesAdded(before: seq<Message>, told: seq<Message>)
    requires |told| <= 1
    ensures EngineLines(Added(before, before + told)) == told
  {
    var lines := Added(before, before + told);
    if told != [] {
      assert lines == [FromEngine(told[0])] && lines[..0] == [];
      assert told == [told[0]];
    }
  }

  /** The engine's messages that were accepted are those it sent, up to the session's end. */
  ghost predicate Received(w: World, id: Id) {
    var lines, sent := EngineLines(w.Inbox(id)), Queue(w.system.Engine().out, id);
    lines <= sent && (w.Listens(id) ==> lines == sent)
  }

  ghost predicate WorldInv(w: World) {
    && Inv(w.system)
    && (forall id :: id in w.inbox ==> id in w.system.sessions)
    && (forall id :: id in w.tasks ==> id in w.system.sessions)
    && forall id :: Received(w, id)
  }

  /** One event: the channel of a listening session accepts what the engine sends it. */
  lemma ProcessReceives(w: World, ev: Event, id: Id)
    requires Inv(w.system) && OwnChannels(w.system.history + [ev]) && Received(w, id)
    ensures var lines := EngineLines(w.Inbox(id) + Heard(w, ev, id));
            var sent := Queue(After(w.system.history + [ev], |w.system.history| + 1).out, id);
            lines <= sent && (w.Listens(id) ==> lines == sent)
  {
    var h, n := w.system.history + [ev], |w.system.history|;
    var sent := Queue(w.system.Engine().out, id);
    HistoryPrefix(w.system.history, ev, n);
    OwnChannelsAreChannels(h);
    QueueNext(h, n, id, (id: Id) => id);
    ToldLive(h, n, id);
    EngineLinesAdded(sent, Told(h, n, id));
    EngineLinesAppend(w.Inbox(id), Heard(w, ev, id));
    if !w.Listens(id) {
      assert w.Inbox(id) + [] == w.Inbox(id);
    }
  }

  lemma NoticesAreNotReceived(w: World, lines: seq<Line>, id: Id)
    requires forall i :: 0 <= i < |lines| ==> !lines[i].FromEngine?
    ensures EngineLines(w.Inbox(id) + lines) == EngineLines(w.Inbox(id))
  {
    EngineLinesAppend(w.Inbox(id), lines);
    NoEngineLines(lines);
  }

  /** Whoever has no processed action is told nothing. */
  lemma {:induction false} NoActsNothingSent(h: seq<Event>, n: nat, id: Id)
    requires n <= |h| && ActsOf(h[..n], id) == []
    ensures Transcript(h, n, id) == []
  {
    if n > 0 {
      var k := n - 1;
      assert h[..n][..k] == h[..k];
      NoActsNothingSent(h, k, id);
      NoActsUnknown(h, k, id);
      if h[k].Data? {
        NotKnownNotRecipient(h, k, id, h[k].symbol);
      }
    }
  }

  lemma StrangersAreSentNothing(y: System, id: Id)
    requires Inv(y) && id !in y.sessions
    ensures Queue(y.Engine().out, id) == []
  {
    ActsOfAppend(y.history, y.channel, id);
    assert y.history[..|y.history|] == y.history;
    NoActsNothingSent(y.history, |y.history|, id);
    OwnChannelsAreChannels(y.history);
    ChannelsCarryTranscripts(y.history, |y.history|, id, (id: Id) => id);
  }

  // ---------- Invariant ----------

  /** A step of the system lets nobody listen who did not, but the one who connects. */
  lemma NextListens(w: World, a: Action, id: Id)
    requires Next(w.system, a).Some? && NextWorld(w, Inner(a)).value.Listens(id)
    ensures w.Listens(id) || (a.Connect? && id == w.system.nextId)
  {
  }

  lemma InnerReceives(w: World, a: Action, id: Id)
    requires WorldInv(w) && Next(w.system, a).Some?
    ensures Received(NextWorld(w, Inner(a)).value, id)
  {
    var w' := NextWorld(w, Inner(a)).value;
    assert Received(w, id);
    if id !in w.system.sessions {
      NextKeepsInv(w.system, a);
      NewcomerReceives(w, a, id);
    } else {
      assert w'.Inbox(id) == w.Inbox(id) + NewLines(w, a, id);
      if w'.Listens(id) {
        NextListens(w, a, id);
      }
      InnerSends(w, a, id);
    }
  }

  /** A session that is not there yet has neither lines nor messages. */
  lemma NewcomerReceives(w: World, a: Action, id: Id)
    requires WorldInv(w) && Next(w.system, a).Some? && id !in w.system.sessions && Inv(Next(w.system, a).value)
    ensures Received(NextWorld(w, Inner(a)).value, id)
  {
    if a.Connect? {
      StrangersAreSentNothing(w.system, id);
    } else {
      StrangersAreSentNothing(Next(w.system, a).value, id);
    }
  }

  lemma InnerSends(w: World, a: Action, id: Id)
    requires WorldInv(w) && Next(w.system, a).Some? && id in w.system.sessions && Received(w, id)
    ensures var lines := EngineLines(w.Inbox(id) + NewLines(w, a, id));
            var sent := Queue(Next(w.system, a).value.Engine().out, id);
            lines <= sent && (w.Listens(id) ==> lines == sent)
  {
    NextKeepsInv(w.system, a);
    match a {
      case Take => ProcessReceives(w, w.system.channel[0], id);
      case Deliver(symbol, msgType, payload) => ProcessReceives(w, Data(symbol, msgType, payload), id);
      case _ => NoticesAreNotReceived(w, NewLines(w, a, id), id);
    }
  }

  lemma InnerKeepsInv(w: World, a: Action)
    requires WorldInv(w) && Next(w.system, a).Some?
    ensures WorldInv(NextWorld(w, Inner(a)).value)
  {
    var w' := NextWorld(w, Inner(a)).value;
    NextKeepsInv(w.system, a);
    SessionsStay(w.system, a);
    forall id ensures Received(w', id) {
      InnerReceives(w, a, id);
    }
  }

  lemma SessionsStay(y: System, a: Action)
    requires Next(y, a).Some?
    ensures y.sessions.Keys <= Next(y, a).value.sessions.Keys
    ensures a.Ask? ==> a.id in y.sessions
  {
  }

  lemma HistorySendReceives(w: World, who: Id, text: string, id: Id)
    requires WorldInv(w) && who in w.tasks
    ensures Received(NextWorld(w, HistorySend(who, text)).value, id)
  {
    assert Received(w, id);
    NoticesAreNotReceived(w, [FromHistory(text)], id);
  }

  lemma MoveKeepsInv(w: World, m: Move)
    requires WorldInv(w) && NextWorld(w, m).Some?
    ensures WorldInv(NextWorld(w, m).value)
  {
    match m {
      case Inner(a) => InnerKeepsInv(w, a);
      case HistorySend(who, text) =>
        forall id ensures Received(NextWorld(w, m).value, id) {
          HistorySendReceives(w, who, text, id);
        }
      case HistoryEnd(who) =>
        forall id ensures Received(NextWorld(w, m).value, id) {
          assert Received(w, id);
        }
    }
  }

  lemma {:induction false} RunWorldKeepsInv(w: World, moves: seq<Move>)
    requires WorldInv(w) && RunWorld(w, moves).Some?
    ensures WorldInv(RunWorld(w, moves).value)
    decreases moves
  {
    if moves != [] {
      MoveKeepsInv(w, moves[0]);
      RunWorldKeepsInv(NextWorld(w, moves[0]).value, moves[1..]);
    }
  }

  // ---------- What channels accept, over all runs ----------

  /** From the beginning on, the engine's messages among all that a session's channel has
      accepted are the transcript of the processed history, in order and without gaps, for
      as long as the session listens, and a prefix of it once the session is over. */
  lemma ChannelsHoldTranscripts(moves: seq<Move>, id: Id)
    requires RunWorld(BEGINNING, moves).Some?
    ensures var w := RunWorld(BEGINNING, moves).value;
            var transcript := Transcript(w.system.history, |w.system.history|, id);
            EngineLines(w.Inbox(id)) <= transcript && (w.Listens(id) ==> EngineLines(w.Inbox(id)) == transcript)
  {
    RunWorldKeepsInv(BEGINNING, moves);
    var w := RunWorld(BEGINNING, moves).value;
    assert Received(w, id);
    OwnChannelsAreChannels(w.system.history);
    ChannelsCarryTranscripts(w.system.history, |w.system.history|, id, (id: Id) => id);
  }

  ghost predicate Over(w: World, id: Id) {
    id in w.system.sessions && !w.Listens(id)
  }

  /** A session that is over stays as it is. */
  lemma OverStays(y: System, a: Action, id: Id)
    requires Inv(y) && Next(y, a).Some? && id in y.sessions && (y.sessions[id].phase.Closed? || y.sessions[id].phase.Dead?)
    ensures id in Next(y, a).value.sessions && Next(y, a).value.sessions[id] == y.sessions[id]
    ensures a.Ask? ==> a.id != id
  {
    assert SessionInv(y, id);
  }

  predicate Tries(m: Move, id: Id) {
    m.HistorySend? && m.id == id
  }

  /** How often a history task of `id` tries to send. */
  ghost function Attempts(moves: seq<Move>, id: Id): nat {
    if moves == [] then 0 else (if Tries(moves[0], id) then 1 else 0) + Attempts(moves[1..], id)
  }

  lemma OverInner(w: World, a: Action, id: Id)
    requires WorldInv(w) && Over(w, id) && Next(w.system, a).Some?
    ensures var w' := NextWorld(w, Inner(a)).value;
      Over(w', id) && w'.Inbox(id) == w.Inbox(id) && w'.tasks[id] == w.tasks[id]
  {
    OverStays(w.system, a, id);
    assert NewLines(w, a, id) == [];
    assert w.Inbox(id) + [] == w.Inbox(id);
  }

  lemma OverNext(w: World, m: Move, id: Id)
    requires WorldInv(w) && Over(w, id) && NextWorld(w, m).Some?
    ensures var w' := NextWorld(w, m).value;
      && Over(w', id) && w'.Inbox(id) == w.Inbox(id)
      && w'.tasks[id] <= w.tasks[id] - if Tries(m, id) then 1 else 0
  {
    if m.Inner? {
      OverInner(w, m.a, id);
    }
  }

  /** The channel of a session that is over accepts nothing more from anybody, and each of
      its history tasks ends with the next line it tries to send. */
  lemma {:induction false} OverHearsNothing(w: World, moves: seq<Move>, id: Id)
    requires WorldInv(w) && Over(w, id) && RunWorld(w, moves).Some?
    ensures var w' := RunWorld(w, moves).value;
      && Over(w', id) && w'.Inbox(id) == w.Inbox(id)
      && w'.tasks[id] + Attempts(moves, id) <= w.tasks[id]
    decreases moves
  {
    if moves != [] {
      OverNext(w, moves[0], id);
      MoveKeepsInv(w, moves[0]);
      OverHearsNothing(NextWorld(w, moves[0]).value, moves[1..], id);
    }
  }
}
