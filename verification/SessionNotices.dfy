/** The rest of what a session's channel accepts: its own notices and the lines of its
    history tasks, each exactly as asked for, and the tasks that are running. */
module SessionNotices {
  import opened Basics
  import opened ChannelNames
  import opened SessionRequests
  import opened ReplayEngine
  import opened ReplaySessions
  import opened SessionInboxes

  /** The lines that are not the engine's, in order. */
  ghost function Others(lines: seq<Line>): seq<Line> {
    if lines == [] then []
    else Others(lines[..|lines| - 1]) + if lines[|lines| - 1].FromEngine? then [] else [lines[|lines| - 1]]
  }

  lemma {:induction false} OthersAppend(a: seq<Line>, b: seq<Line>)
    ensures Others(a + b) == Others(a) + Others(b)
  {
    if b == [] {
      assert a + b == a;
    } else {
      var front, last := b[..|b| - 1], b[|b| - 1];
      OthersAppend(a, front);
      assert (a + b)[..|a + b| - 1] == a + front;
    }
  }

  lemma {:induction false} AllOthers(lines: seq<Line>)
    requires forall i :: 0 <= i < |lines| ==> !lines[i].FromEngine?
    ensures Others(lines) == lines
  {
    if lines != [] {
      AllOthers(lines[..|lines| - 1]);
      assert lines == lines[..|lines| - 1] + [lines[|lines| - 1]];
    }
  }

  lemma {:induction false} NoOthers(lines: seq<Line>)
    requires forall i :: 0 <= i < |lines| ==> lines[i].FromEngine?
    ensures Others(lines) == []
  {
    if lines != [] {
      NoOthers(lines[..|lines| - 1]);
    }
  }

  /** The notices that answer a request: one for an unknown word, one for a range that is
      counted the wrong way round. */
  ghost function Answer(id: Id, m: Move): seq<Line> {
    if m.Inner? && m.a.Ask? && m.a.id == id && Handle(id, m.a.action, m.a.args).Handled? then
      Handle(id, m.a.action, m.a.args).notices
    else []
  }

  /** What the session and its history tasks send to the session's channel. */
  ghost function SentBy(m: Move, id: Id): seq<Line> {
    if m.HistorySend? && m.id == id then [FromHistory(m.text)] else Answer(id, m)
  }

  ghost function Sent(moves: seq<Move>, id: Id): seq<Line> {
    if moves == [] then [] else SentBy(moves[0], id) + Sent(moves[1..], id)
  }

  /** A request of session `id` that starts a history task. */
  ghost predicate Starts(m: Move, id: Id) {
    && m.Inner? && m.a.Ask? && m.a.id == id
    && Handle(id, m.a.action, m.a.args).Handled? && Handle(id, m.a.action, m.a.args).replays
  }

  ghost function Started(moves: seq<Move>, id: Id): nat {
    if moves == [] then 0 else (if Starts(moves[0], id) then 1 else 0) + Started(moves[1..], id)
  }

  ghost function Ended(moves: seq<Move>, id: Id): nat {
    if moves == [] then 0 else (if moves[0] == HistoryEnd(id) then 1 else 0) + Ended(moves[1..], id)
  }

  lemma NewLinesAreAnswers(w: World, a: Action, id: Id)
    requires Next(w.system, a).Some?
    ensures Others(NewLines(w, a, id)) == SentBy(Inner(a), id)
  {
    if a.Ask? {
      AllOthers(NewLines(w, a, id));
    } else {
      NoOthers(NewLines(w, a, id));
    }
  }

  lemma InnerAccepts(w: World, a: Action, id: Id)
    requires WorldInv(w) && Next(w.system, a).Some?
    ensures Others(NextWorld(w, Inner(a)).value.Inbox(id)) == Others(w.Inbox(id)) + SentBy(Inner(a), id)
  {
    var w' := NextWorld(w, Inner(a)).value;
    NewLinesAreAnswers(w, a, id);
    OthersAppend(w.Inbox(id), NewLines(w, a, id));
    if id !in w.system.sessions {
      assert w.Inbox(id) == [] && w'.Inbox(id) == [];
      assert NewLines(w, a, id) == [];
    }
  }

  lemma HistorySendAccepts(w: World, who: Id, text: string, id: Id)
    requires WorldInv(w) && who in w.tasks && !Over(w, id)
    ensures Others(NextWorld(w, HistorySend(who, text)).value.Inbox(id)) ==
            Others(w.Inbox(id)) + if who == id then [FromHistory(text)] else []
  {
    if who == id {
      OthersAppend(w.Inbox(id), [FromHistory(text)]);
      AllOthers([FromHistory(text)]);
    }
  }

  /** One step: unless the session is over, its channel accepts what is sent. */
  lemma MoveAccepts(w: World, m: Move, id: Id)
    requires WorldInv(w) && NextWorld(w, m).Some? && !Over(w, id)
    ensures Others(NextWorld(w, m).value.Inbox(id)) == Others(w.Inbox(id)) + SentBy(m, id)
  {
    match m {
      case Inner(a) => InnerAccepts(w, a, id);
      case HistorySend(who, text) => HistorySendAccepts(w, who, text, id);
      case HistoryEnd(who) =>
    }
  }

  lemma MoveTasks(w: World, m: Move, id: Id)
    requires WorldInv(w) && NextWorld(w, m).Some? && !Over(w, id)
    ensures NextWorld(w, m).value.tasks[id] + (if m == HistoryEnd(id) then 1 else 0)
         == w.tasks[id] + (if Starts(m, id) then 1 else 0)
  {
  }

  lemma MoveStaysOver(w: World, m: Move, id: Id)
    requires WorldInv(w) && NextWorld(w, m).Some? && Over(w, id)
    ensures Over(NextWorld(w, m).value, id)
  {
    OverNext(w, m, id);
  }

  lemma {:induction false} ListenersWereNotOver(w: World, moves: seq<Move>, id: Id)
    requires WorldInv(w) && RunWorld(w, moves).Some? && RunWorld(w, moves).value.Listens(id)
    ensures !Over(w, id)
  {
    if Over(w, id) {
      OverHearsNothing(w, moves, id);
    }
  }

  /** In every continuation that leaves the session listening, its channel has accepted, in
      order, every notice its requests were answered with and every line its history tasks
      sent, and nothing else beside the engine's messages; and the tasks that run are those
      that were started and have not ended. */
  lemma {:induction false} ListenersAcceptAll(w: World, moves: seq<Move>, id: Id)
    requires WorldInv(w) && RunWorld(w, moves).Some? && RunWorld(w, moves).value.Listens(id)
    ensures var w' := RunWorld(w, moves).value;
      && Others(w'.Inbox(id)) == Others(w.Inbox(id)) + Sent(moves, id)
      && w'.tasks[id] + Ended(moves, id) == w.tasks[id] + Started(moves, id)
    decreases moves
  {
    if moves != [] {
      var m, rest := moves[0], moves[1..];
      ListenersWereNotOver(w, moves, id);
      MoveAccepts(w, m, id);
      MoveTasks(w, m, id);
      MoveKeepsInv(w, m);
      ListenersAcceptAll(NextWorld(w, m).value, rest, id);
      Regroup(Others(w.Inbox(id)), SentBy(m, id), Sent(rest, id));
    }
  }

  lemma Regroup<T>(a: seq<T>, b: seq<T>, c: seq<T>)
    ensures a + b + c == a + (b + c)
  {
  }

  /** Whatever a channel ever accepts beside the engine's messages was sent by the session or
      its tasks, in that order and without gaps. */
  lemma {:induction false} AcceptedWasSent(w: World, moves: seq<Move>, id: Id)
    requires WorldInv(w) && RunWorld(w, moves).Some?
    ensures Others(RunWorld(w, moves).value.Inbox(id)) <= Others(w.Inbox(id)) + Sent(moves, id)
    decreases moves
  {
    if Over(w, id) {
      OverHearsNothing(w, moves, id);
    } else if moves != [] {
      var m, rest := moves[0], moves[1..];
      MoveAccepts(w, m, id);
      MoveKeepsInv(w, m);
      AcceptedWasSent(NextWorld(w, m).value, rest, id);
      Regroup(Others(w.Inbox(id)), SentBy(m, id), Sent(rest, id));
    }
  }

  /** A request is answered at once: an unknown word and a range counted the wrong way round
      by a notice in the session's channel, a readable range with arguments by a task. */
  lemma RequestsAreAnswered(w: World, id: Id, action: string, args: seq<MarketDataArg>)
    requires WorldInv(w) && w.Listens(id)
    requires w.system.sessions[id] == Session(Open, []) && Handle(id, action, args).Handled?
    ensures var outcome, w' := Handle(id, action, args), NextWorld(w, Inner(Ask(id, action, args)));
      && w'.Some?
      && w'.value.Inbox(id) == w.Inbox(id) + outcome.notices
      && w'.value.tasks[id] == w.tasks[id] + (if outcome.replays then 1 else 0)
      && w'.value.system.sessions[id] == Session(Open, outcome.queued)
  {
  }

  /** A running task whose session listens can send any line, and it is accepted. */
  lemma TasksCanSend(w: World, id: Id, text: string)
    requires WorldInv(w) && id in w.tasks && w.Listens(id)
    ensures var w' := NextWorld(w, HistorySend(id, text));
      w'.Some? && w'.value.Inbox(id) == w.Inbox(id) + [FromHistory(text)] && w'.value.tasks == w.tasks
  {
  }
}
