/** The replay server's subscription engine: which session holds which symbol, which
    sessions receive a symbol's data, and what is sent to whom. */
module ReplayEngine {
  import opened Basics

  type Id = nat
  type Tx = nat
  type Symbol = string

  datatype Message = Reply(success: bool) | Live(msgType: string, payload: Bytes)

  datatype User = User(tx: Tx, symbols: set<Symbol>)

  type Sessions = map<Id, Tx>

  /** The messages handed to each channel so far, in order. */
  type Outbox = map<Tx, seq<Message>>

  datatype SocketAction = Subscribe(symbol: Symbol, tx: Tx) | Unsubscribe(which: Option<Symbol>)

  /** What the engine reacts to: an action of a session, or a message for a symbol. */
  datatype Event =
    | Act(id: Id, action: SocketAction)
    | Data(symbol: Symbol, msgType: string, payload: Bytes)

  datatype Engine = Engine(users: map<Id, User>, subs: map<Symbol, Sessions>, out: Outbox)

  const EMPTY := Engine(map[], map[], map[])

  function Queue(out: Outbox, tx: Tx): seq<Message> {
    if tx in out then out[tx] else []
  }

  function Send(out: Outbox, tx: Tx, m: Message): Outbox {
    out[tx := Queue(out, tx) + [m]]
  }

  function Join(sessions: Sessions, id: Id, tx: Tx): Sessions {
    sessions[id := tx]
  }

  /** A user may ask again for the symbol it holds, but not for a second one. A new user
      is recorded even when the symbol has no entry to join. */
  function SubscribeStep(e: Engine, id: Id, symbol: Symbol, tx: Tx): (Engine, bool) {
    if id in e.users && symbol !in e.users[id].symbols then (e, false)
    else
      var users := if id in e.users then e.users else e.users[id := User(tx, {symbol})];
      if symbol !in e.subs then (e.(users := users), false)
      else (e.(users := users, subs := e.subs[symbol := Join(e.subs[symbol], id, tx)]), true)
  }

  /** Naming a symbol drops its whole entry; naming none drops the entries of all symbols
      the user holds, and the user. */
  function UnsubscribeStep(e: Engine, id: Id, which: Option<Symbol>): (Engine, bool) {
    match which
    case Some(symbol) => (e.(subs := e.subs - {symbol}), symbol in e.subs)
    case None =>
      if id !in e.users then (e, false)
      else (e.(users := e.users - {id}, subs := e.subs - e.users[id].symbols), true)
  }

  function ReplyTo(e: Engine, id: Id, success: bool): Engine {
    if id in e.users then e.(out := Send(e.out, e.users[id].tx, Reply(success))) else e
  }

  function HandleStep(e: Engine, id: Id, action: SocketAction): (Engine, bool) {
    match action
    case Subscribe(symbol, tx) => SubscribeStep(e, id, symbol, tx)
    case Unsubscribe(which) => UnsubscribeStep(e, id, which)
  }

  /** The reply goes to the user as it stands after the action, if it still stands. */
  function ActionStep(e: Engine, id: Id, action: SocketAction): Engine {
    ReplyTo(HandleStep(e, id, action).0, id, HandleStep(e, id, action).1)
  }

  function Repeat(m: Message, n: nat): seq<Message> {
    seq(n, _ => m)
  }

  /** The number of sessions that would be reached through channel `tx`. */
  function Reached(sessions: Sessions, tx: Tx): nat {
    |Reachers(sessions, tx)|
  }

  function Reachers(sessions: Sessions, tx: Tx): set<Id> {
    set id | id in sessions && sessions[id] == tx
  }

  function Broadcast(out: Outbox, sessions: Sessions, m: Message): Outbox {
    map tx | tx in out.Keys + sessions.Values :: Queue(out, tx) + Repeat(m, Reached(sessions, tx))
  }

  /** Data for a symbol goes to its sessions; data for a symbol without entry creates an
      empty entry and reaches nobody. */
  function DataStep(e: Engine, symbol: Symbol, msgType: string, payload: Bytes): Engine {
    if symbol in e.subs then e.(out := Broadcast(e.out, e.subs[symbol], Live(msgType, payload)))
    else e.(subs := e.subs[symbol := map[]])
  }

  function Step(e: Engine, ev: Event): Engine {
    match ev
    case Act(id, action) => ActionStep(e, id, action)
    case Data(symbol, msgType, payload) => DataStep(e, symbol, msgType, payload)
  }

  /** The engine after the first `n` events of a history. */
  function After(h: seq<Event>, n: nat): Engine
    requires n <= |h|
  {
    if n == 0 then EMPTY else Step(After(h, n - 1), h[n - 1])
  }

  // ---------- The engine as it runs ----------

  class MessageLoop {
    var users: map<Id, User>
    var subs: map<Symbol, Sessions>
    var out: Outbox

    function State(): Engine
      reads this
    {
      Engine(users, subs, out)
    }

    constructor ()
      ensures State() == EMPTY
    {
      users, subs, out := map[], map[], map[];
    }

    method SubscribeHandle(id: Id, symbol: Symbol, tx: Tx) returns (ok: bool)
      modifies this`users, this`subs
      ensures State() == SubscribeStep(old(State()), id, symbol, tx).0 && out == old(out)
      ensures ok == SubscribeStep(old(State()), id, symbol, tx).1
    {
      if id in users {
        var info := users[id].symbols;
        if symbol !in info { return false; }
        users := users[id := users[id].(symbols := info + {symbol})];
        assert info + {symbol} == info;
        assert users == old(users);
      } else {
        users := users[id := User(tx, {symbol})];
      }
      if symbol !in subs { return false; }
      subs := subs[symbol := Join(subs[symbol], id, tx)];
      return true;
    }

    method UnsubscribeHandle(id: Id, which: Option<Symbol>) returns (ok: bool)
      modifies this`users, this`subs
      ensures State() == UnsubscribeStep(old(State()), id, which).0 && out == old(out)
      ensures ok == UnsubscribeStep(old(State()), id, which).1
    {
      if which.Some? {
        ok := which.value in subs;
        subs := subs - {which.value};
        return;
      }
      if id !in users { return false; }
      var todo := users[id].symbols;
      while todo != {}
        invariant users == old(users) && out == old(out)
        invariant todo <= users[id].symbols
        invariant subs == old(subs) - (users[id].symbols - todo)
      {
        var symbol :| symbol in todo;
        subs := subs - {symbol};
        todo := todo - {symbol};
      }
      assert users[id].symbols - todo == users[id].symbols;
      users := users - {id};
      return true;
    }

    method ActionHandle(id: Id, action: SocketAction)
      modifies this
      ensures State() == ActionStep(old(State()), id, action)
    {
      var ok;
      match action {
        case Subscribe(symbol, tx) => ok := SubscribeHandle(id, symbol, tx);
        case Unsubscribe(which) => ok := UnsubscribeHandle(id, which);
      }
      if id !in users { return; }
      if ok {
        out := Send(out, users[id].tx, Reply(true));
      } else {
        out := Send(out, users[id].tx, Reply(false));
      }
    }

    /** The order in which sessions are served is not fixed; what each channel gets is. */
    method DataHandler(symbol: Symbol, msgType: string, payload: Bytes)
      modifies this`subs, this`out
      ensures State() == DataStep(old(State()), symbol, msgType, payload)
    {
      if symbol !in subs {
        subs := subs[symbol := map[]];
        return;
      }
      var m := Live(msgType, payload);
      var sessions := subs[symbol];
      var todo := sessions.Keys;
      ServedNone(out, sessions, m);
      while todo != {}
        invariant todo <= sessions.Keys && subs == old(subs)
        invariant out == Broadcast(old(out), sessions - todo, m)
      {
        var id :| id in todo;
        ServedMore(old(out), sessions, todo, id, m);
        out := Send(out, sessions[id], m);
        todo := todo - {id};
      }
      assert sessions - {} == sessions;
    }
  }

  lemma NobodyReached(sessions: Sessions, tx: Tx)
    ensures Reached(sessions, tx) == 0 <==> tx !in sessions.Values
  {
    if Reachers(sessions, tx) != {} {
      var id :| id in Reachers(sessions, tx);
      assert sessions[id] in sessions.Values;
    }
    if tx in sessions.Values {
      var id :| id in sessions && sessions[id] == tx;
      assert id in Reachers(sessions, tx);
    }
  }

  /** The event loop over everything that arrives before both channels close. */
  method RunLoop(h: seq<Event>) returns (loop: MessageLoop)
    ensures fresh(loop) && loop.State() == After(h, |h|)
  {
    loop := new MessageLoop();
    for i := 0 to |h|
      invariant loop.State() == After(h, i)
    {
      match h[i] {
        case Act(id, action) => loop.ActionHandle(id, action);
        case Data(symbol, msgType, payload) => loop.DataHandler(symbol, msgType, payload);
      }
    }
  }

  lemma BroadcastNone(out: Outbox, m: Message)
    ensures Broadcast(out, map[], m) == out
  {
    var none: Sessions := map[];
    assert none.Values == {};
    forall tx | tx in out ensures Broadcast(out, none, m)[tx] == out[tx] {
      NobodyReached(none, tx);
    }
  }

  lemma ServedNone(out: Outbox, sessions: Sessions, m: Message)
    ensures Broadcast(out, sessions - sessions.Keys, m) == out
  {
    assert sessions - sessions.Keys == map[];
    BroadcastNone(out, m);
  }

  /** One session of those still to serve is served. */
  lemma ServedMore(out: Outbox, sessions: Sessions, todo: set<Id>, id: Id, m: Message)
    requires id in todo && todo <= sessions.Keys
    ensures Broadcast(out, sessions - (todo - {id}), m)
         == Send(Broadcast(out, sessions - todo, m), sessions[id], m)
  {
    assert sessions - (todo - {id}) == Join(sessions - todo, id, sessions[id]);
    BroadcastMore(out, sessions - todo, id, sessions[id], m);
  }

  lemma ReachedMore(sessions: Sessions, id: Id, tx: Tx, other: Tx)
    requires id !in sessions
    ensures Reached(Join(sessions, id, tx), other) == Reached(sessions, other) + if tx == other then 1 else 0
  {
    var more := Join(sessions, id, tx);
    if tx == other {
      assert Reachers(more, other) == Reachers(sessions, other) + {id};
    } else {
      assert Reachers(more, other) == Reachers(sessions, other);
    }
  }

  lemma JoinValues(sessions: Sessions, id: Id, tx: Tx)
    requires id !in sessions
    ensures Join(sessions, id, tx).Values == sessions.Values + {tx}
  {
    var more := Join(sessions, id, tx);
    assert more[id] == tx;
    forall v | v in sessions.Values ensures v in more.Values {
      var i :| i in sessions && sessions[i] == v;
      assert more[i] == v;
    }
  }

  /** What channel `tx` holds after a broadcast. */
  lemma BroadcastQueue(out: Outbox, sessions: Sessions, m: Message, tx: Tx)
    ensures Queue(Broadcast(out, sessions, m), tx) == Queue(out, tx) + Repeat(m, Reached(sessions, tx))
  {
  }

  lemma BroadcastMore(out: Outbox, sessions: Sessions, id: Id, tx: Tx, m: Message)
    requires id !in sessions
    ensures Broadcast(out, Join(sessions, id, tx), m) == Send(Broadcast(out, sessions, m), tx, m)
  {
    var a, b := Broadcast(out, Join(sessions, id, tx), m), Send(Broadcast(out, sessions, m), tx, m);
    JoinValues(sessions, id, tx);
    assert a.Keys == b.Keys;
    forall other | other in a
      ensures a[other] == b[other]
    {
      BroadcastMoreAt(out, sessions, id, tx, m, other);
    }
  }

  lemma BroadcastMoreAt(out: Outbox, sessions: Sessions, id: Id, tx: Tx, m: Message, other: Tx)
    requires id !in sessions
    ensures Queue(Broadcast(out, Join(sessions, id, tx), m), other) ==
            Queue(Send(Broadcast(out, sessions, m), tx, m), other)
  {
    BroadcastQueue(out, sessions, m, other);
    BroadcastQueue(out, Join(sessions, id, tx), m, other);
    ReachedMore(sessions, id, tx, other);
    var n := Reached(sessions, other);
    assert Repeat(m, n + 1) == Repeat(m, n) + [m];
    assert Queue(out, other) + (Repeat(m, n) + [m]) == Queue(out, other) + Repeat(m, n) + [m];
  }
}
