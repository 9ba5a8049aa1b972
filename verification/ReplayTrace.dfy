/** What the replay engine's two indexes mean, said about the history of events alone:
    who is a user, which symbols have an entry, and who receives a symbol's data. */
module ReplayTrace {
  import opened Basics
  import opened ReplayEngine

  // ---------- The specification: predicates over the first n events of a history ----------

  ghost predicate Subscribes(ev: Event, id: Id) {
    ev.Act? && ev.id == id && ev.action.Subscribe?
  }

  ghost predicate Leaves(ev: Event, id: Id) {
    ev == Act(id, Unsubscribe(None))
  }

  /** Somebody unsubscribes from `s` by name. */
  ghost predicate Cancels(ev: Event, s: Symbol) {
    ev.Act? && ev.action == Unsubscribe(Some(s))
  }

  /** `id` does not leave between event `j` and event `n`. */
  ghost predicate Stays(h: seq<Event>, j: nat, n: nat, id: Id)
    requires n <= |h|
  {
    forall k :: j < k < n ==> !Leaves(h[k], id)
  }

  /** `id` has subscribed to something since it last left. */
  ghost predicate Known(h: seq<Event>, n: nat, id: Id)
    requires n <= |h|
  {
    exists j :: 0 <= j < n && Subscribes(h[j], id) && Stays(h, j, n, id)
  }

  /** Event `j` is the first subscription of `id` since it last left. */
  ghost predicate First(h: seq<Event>, j: nat, n: nat, id: Id)
    requires n <= |h|
  {
    j < n && Subscribes(h[j], id) && Stays(h, j, n, id) && !Known(h, j, id)
  }

  /** `s` is the symbol that `id` asked for first since it last left. */
  ghost predicate Holds(h: seq<Event>, n: nat, id: Id, s: Symbol)
    requires n <= |h|
  {
    exists j :: 0 <= j < n && First(h, j, n, id) && h[j].action.symbol == s
  }

  /** Event `k` clears `s`: somebody names it, or one of its holders leaves. */
  ghost predicate Clears(h: seq<Event>, k: nat, s: Symbol)
    requires k < |h|
  {
    || Cancels(h[k], s)
    || (h[k].Act? && h[k].action == Unsubscribe(None) && Holds(h, k, h[k].id, s))
  }

  ghost predicate Uncleared(h: seq<Event>, j: nat, n: nat, s: Symbol)
    requires n <= |h|
  {
    forall k :: j < k < n ==> !Clears(h, k, s)
  }

  /** Data for `s` has arrived since it was last cleared. */
  ghost predicate Entry(h: seq<Event>, n: nat, s: Symbol)
    requires n <= |h|
  {
    exists j :: 0 <= j < n && h[j].Data? && h[j].symbol == s && Uncleared(h, j, n, s)
  }

  /** Event `j` is a subscription of `id` to `s` that takes effect: `s` has an entry, and
      `id` holds no other symbol. */
  ghost predicate Accepted(h: seq<Event>, j: nat, id: Id, s: Symbol)
    requires j < |h|
  {
    && Subscribes(h[j], id) && h[j].action.symbol == s
    && Entry(h, j, s)
    && (Known(h, j, id) ==> Holds(h, j, id, s))
  }

  /** `id` has an accepted subscription to `s` since `s` was last cleared. */
  ghost predicate Recipient(h: seq<Event>, n: nat, id: Id, s: Symbol)
    requires n <= |h|
  {
    exists j :: 0 <= j < n && Accepted(h, j, id, s) && Uncleared(h, j, n, s)
  }

  // ---------- How each predicate moves with one more event ----------

  lemma KnownNext(h: seq<Event>, n: nat, id: Id)
    requires n < |h|
    ensures Known(h, n + 1, id) <==> Subscribes(h[n], id) || (Known(h, n, id) && !Leaves(h[n], id))
  {
  }

  lemma FirstNext(h: seq<Event>, j: nat, n: nat, id: Id)
    requires n < |h|
    ensures First(h, j, n + 1, id) <==>
            (First(h, j, n, id) && !Leaves(h[n], id)) || (j == n && Subscribes(h[n], id) && !Known(h, n, id))
  {
  }

  lemma HoldsNext(h: seq<Event>, n: nat, id: Id, s: Symbol)
    requires n < |h|
    ensures Holds(h, n + 1, id, s) <==>
            || (Holds(h, n, id, s) && !Leaves(h[n], id))
            || (Subscribes(h[n], id) && h[n].action.symbol == s && !Known(h, n, id))
  {
  }

  lemma EntryNext(h: seq<Event>, n: nat, s: Symbol)
    requires n < |h|
    ensures Entry(h, n + 1, s) <==> (h[n].Data? && h[n].symbol == s) || (Entry(h, n, s) && !Clears(h, n, s))
  {
  }

  lemma RecipientNext(h: seq<Event>, n: nat, id: Id, s: Symbol)
    requires n < |h|
    ensures Recipient(h, n + 1, id, s) <==> Accepted(h, n, id, s) || (Recipient(h, n, id, s) && !Clears(h, n, s))
  {
  }

  // ---------- The engine keeps exactly the relations of the specification ----------

  /** One event's effect on one user. */
  lemma UserStep(e: Engine, ev: Event, id: Id)
    ensures var e' := Step(e, ev);
      && (id in e'.users <==> Subscribes(ev, id) || (id in e.users && !Leaves(ev, id)))
      && (id in e.users && id in e'.users ==> e'.users[id] == e.users[id])
      && (id !in e.users && id in e'.users ==> e'.users[id] == User(ev.action.tx, {ev.action.symbol}))
  {
    match ev {
      case Act(_, Subscribe(_, _)) =>
      case Act(_, Unsubscribe(_)) =>
      case Data(_, _, _) =>
    }
  }

  lemma {:induction false} UsersAreKnown(h: seq<Event>, n: nat, id: Id)
    requires n <= |h|
    ensures id in After(h, n).users <==> Known(h, n, id)
  {
    if n > 0 {
      UsersAreKnown(h, n - 1, id);
      KnownNext(h, n - 1, id);
      UserStep(After(h, n - 1), h[n - 1], id);
    }
  }

  lemma {:induction false} KnownHasFirst(h: seq<Event>, n: nat, id: Id) returns (j: nat)
    requires n <= |h| && Known(h, n, id)
    ensures First(h, j, n, id)
  {
    var k := n - 1;
    KnownNext(h, k, id);
    if Known(h, k, id) && !Leaves(h[k], id) {
      j := KnownHasFirst(h, k, id);
    } else {
      j := k;
    }
    FirstNext(h, j, k, id);
  }

  /** The user index: a session in it holds the one symbol, and replies through the one
      channel, of its first subscription since it last left. */
  lemma {:induction false} UserIsFirst(h: seq<Event>, j: nat, n: nat, id: Id)
    requires n <= |h| && First(h, j, n, id)
    ensures id in After(h, n).users && After(h, n).users[id] == User(h[j].action.tx, {h[j].action.symbol})
  {
    var k := n - 1;
    FirstNext(h, j, k, id);
    UsersAreKnown(h, k, id);
    UserStep(After(h, k), h[k], id);
    if j < k {
      UserIsFirst(h, j, k, id);
    }
  }

  /** A user's symbols are those it holds: one exactly. */
  lemma HoldsIsUserIndex(h: seq<Event>, n: nat, id: Id, s: Symbol)
    requires n <= |h|
    ensures Holds(h, n, id, s) <==> id in After(h, n).users && s in After(h, n).users[id].symbols
    ensures Holds(h, n, id, s) ==> After(h, n).users[id].symbols == {s}
  {
    UsersAreKnown(h, n, id);
    if Known(h, n, id) {
      var j := KnownHasFirst(h, n, id);
      UserIsFirst(h, j, n, id);
    }
    if Holds(h, n, id, s) {
      var j :| 0 <= j < n && First(h, j, n, id) && h[j].action.symbol == s;
      UserIsFirst(h, j, n, id);
    }
  }

  /** One event's effect on the entry of one symbol. */
  lemma EntryStep(e: Engine, ev: Event, s: Symbol)
    requires s in e.subs
    ensures s in Step(e, ev).subs <==>
            !Cancels(ev, s) && !(ev.Act? && ev.action == Unsubscribe(None) && ev.id in e.users
                                 && s in e.users[ev.id].symbols)
  {
    match ev {
      case Act(_, Subscribe(_, _)) =>
      case Act(_, Unsubscribe(_)) =>
      case Data(_, _, _) =>
    }
  }

  /** Event `n` clears `s` exactly when processing it removes the entry of `s`. */
  lemma ClearsRemoves(h: seq<Event>, n: nat, s: Symbol)
    requires n < |h| && s in After(h, n).subs
    ensures s in After(h, n + 1).subs <==> !Clears(h, n, s)
  {
    EntryStep(After(h, n), h[n], s);
    if h[n].Act? {
      HoldsIsUserIndex(h, n, h[n].id, s);
    }
  }

  /** One event's effect on one session of one entry. */
  lemma SessionStep(e: Engine, ev: Event, id: Id, s: Symbol)
    requires s in Step(e, ev).subs
    ensures id in Step(e, ev).subs[s] <==>
            || (s in e.subs && id in e.subs[s])
            || (s in e.subs && Subscribes(ev, id) && ev.action.symbol == s
                && (id in e.users ==> s in e.users[id].symbols))
    ensures id in Step(e, ev).subs[s] ==>
            || (Subscribes(ev, id) && ev.action.symbol == s && Step(e, ev).subs[s][id] == ev.action.tx)
            || (s in e.subs && id in e.subs[s] && Step(e, ev).subs[s][id] == e.subs[s][id])
  {
    match ev {
      case Act(_, Subscribe(_, _)) =>
      case Act(_, Unsubscribe(_)) =>
      case Data(_, _, _) =>
    }
  }

  /** The subscription index, for every history: a symbol has an entry exactly when data
      has arrived since it was last cleared. */
  lemma {:induction false} EntriesFollowHistory(h: seq<Event>, n: nat, s: Symbol)
    requires n <= |h|
    ensures s in After(h, n).subs <==> Entry(h, n, s)
  {
    if n > 0 {
      var k := n - 1;
      EntriesFollowHistory(h, k, s);
      EntryNext(h, k, s);
      if s in After(h, k).subs {
        ClearsRemoves(h, k, s);
      }
    }
  }

  /** And the sessions of an entry are exactly the specified recipients. */
  lemma {:induction false} RecipientsFollowHistory(h: seq<Event>, n: nat, id: Id, s: Symbol)
    requires n <= |h|
    ensures s in After(h, n).subs <==> Entry(h, n, s)
    ensures s in After(h, n).subs && id in After(h, n).subs[s] <==> Recipient(h, n, id, s)
  {
    EntriesFollowHistory(h, n, s);
    if n > 0 {
      var k := n - 1;
      var e := After(h, k);
      RecipientsFollowHistory(h, k, id, s);
      RecipientNext(h, k, id, s);
      if s in e.subs {
        ClearsRemoves(h, k, s);
      }
      UsersAreKnown(h, k, id);
      HoldsIsUserIndex(h, k, id, s);
      if s in Step(e, h[k]).subs {
        SessionStep(e, h[k], id, s);
      }
    }
  }

  /** A recipient of `s` holds `s`: it cannot leave without clearing the symbol. */
  lemma {:induction false} RecipientHolds(h: seq<Event>, n: nat, id: Id, s: Symbol)
    requires n <= |h| && Recipient(h, n, id, s)
    ensures Holds(h, n, id, s) && Entry(h, n, s)
  {
    var k := n - 1;
    RecipientNext(h, k, id, s);
    HoldsNext(h, k, id, s);
    EntryNext(h, k, s);
    if Recipient(h, k, id, s) {
      RecipientHolds(h, k, id, s);
    }
  }

  /** Sessions use one channel each: all subscriptions of a session carry the same one. */
  ghost predicate OneChannelEach(h: seq<Event>) {
    forall i, j, id :: 0 <= i < |h| && 0 <= j < |h| && Subscribes(h[i], id) && Subscribes(h[j], id) ==>
      h[i].action.tx == h[j].action.tx
  }

  /** The channel stored in an entry is that of an accepted subscription. */
  lemma {:induction false} SenderIsAccepted(h: seq<Event>, n: nat, id: Id, s: Symbol) returns (j: nat)
    requires n <= |h| && s in After(h, n).subs && id in After(h, n).subs[s]
    ensures j < n && Accepted(h, j, id, s) && Uncleared(h, j, n, s)
    ensures After(h, n).subs[s][id] == h[j].action.tx
  {
    var k := n - 1;
    var before, after := After(h, k), After(h, n);
    SessionStep(before, h[k], id, s);
    if s in before.subs && id in before.subs[s] && after.subs[s][id] == before.subs[s][id] {
      j := SenderIsAccepted(h, k, id, s);
      ClearsRemoves(h, k, s);
    } else {
      j := k;
      RecipientsFollowHistory(h, n, id, s);
      RecipientNext(h, k, id, s);
      if Recipient(h, k, id, s) {
        RecipientHolds(h, k, id, s);
      }
    }
  }

  /** Index soundness in every reachable state: whoever is in an entry is a user that holds
      exactly that symbol, through the same channel. */
  lemma IndexSoundness(h: seq<Event>, n: nat, id: Id, s: Symbol)
    requires n <= |h| && OneChannelEach(h)
    requires s in After(h, n).subs && id in After(h, n).subs[s]
    ensures id in After(h, n).users
    ensures After(h, n).users[id] == User(After(h, n).subs[s][id], {s})
  {
    RecipientsFollowHistory(h, n, id, s);
    RecipientHolds(h, n, id, s);
    var i :| 0 <= i < n && First(h, i, n, id) && h[i].action.symbol == s;
    UserIsFirst(h, i, n, id);
    var j := SenderIsAccepted(h, n, id, s);
  }

  /** The indexes agree in the converse direction too, throughout the first `n` events:
      whoever holds a symbol that has an entry is in the entry. */
  ghost predicate HoldersReceive(h: seq<Event>, n: nat)
    requires n <= |h|
  {
    forall m, id, s {:trigger Recipient(h, m, id, s)} ::
      0 <= m <= n && Holds(h, m, id, s) && Entry(h, m, s) ==> Recipient(h, m, id, s)
  }

  /** Data event `k` creates an entry although `id` already holds its symbol. */
  ghost predicate CreatesLate(h: seq<Event>, k: nat, id: Id)
    requires k < |h|
  {
    h[k].Data? && !Entry(h, k, h[k].symbol) && Holds(h, k, id, h[k].symbol)
  }

  lemma HolderReceivesNext(h: seq<Event>, n: nat, id: Id, s: Symbol)
    requires n < |h| && !CreatesLate(h, n, id)
    requires Holds(h, n, id, s) && Entry(h, n, s) ==> Recipient(h, n, id, s)
    requires Holds(h, n + 1, id, s) && Entry(h, n + 1, s)
    ensures Recipient(h, n + 1, id, s)
  {
    HoldsNext(h, n, id, s);
    EntryNext(h, n, s);
    RecipientNext(h, n, id, s);
  }

  /** Creating an entry late leaves a holder that does not receive. */
  lemma LateEntryMissesHolder(h: seq<Event>, n: nat, id: Id)
    requires n < |h| && CreatesLate(h, n, id)
    ensures Holds(h, n + 1, id, h[n].symbol) && Entry(h, n + 1, h[n].symbol)
    ensures !Recipient(h, n + 1, id, h[n].symbol)
  {
    var s := h[n].symbol;
    HoldsNext(h, n, id, s);
    EntryNext(h, n, s);
    RecipientNext(h, n, id, s);
    if Recipient(h, n, id, s) {
      RecipientHolds(h, n, id, s);
    }
  }

  lemma {:induction false} TimelyEntriesReachHolders(h: seq<Event>, n: nat, id: Id, s: Symbol)
    requires n <= |h| && Holds(h, n, id, s) && Entry(h, n, s)
    requires forall k :: 0 <= k < n ==> !CreatesLate(h, k, id)
    ensures Recipient(h, n, id, s)
  {
    var k := n - 1;
    if Holds(h, k, id, s) && Entry(h, k, s) {
      TimelyEntriesReachHolders(h, k, id, s);
    }
    HolderReceivesNext(h, k, id, s);
  }

  /** Converse agreement, exactly: every holder of a symbol with an entry receives it, at
      each point of a history, if and only if no entry was ever created while somebody
      already held its symbol. */
  lemma ConverseAgreement(h: seq<Event>, n: nat)
    requires n <= |h|
    ensures HoldersReceive(h, n) <==> forall k, id :: 0 <= k < n ==> !CreatesLate(h, k, id)
  {
    if HoldersReceive(h, n) {
      forall k, id | 0 <= k < n ensures !CreatesLate(h, k, id) {
        if CreatesLate(h, k, id) {
          LateEntryMissesHolder(h, k, id);
        }
      }
    }
    if forall k, id :: 0 <= k < n ==> !CreatesLate(h, k, id) {
      forall m, id, s | 0 <= m <= n && Holds(h, m, id, s) && Entry(h, m, s)
        ensures Recipient(h, m, id, s)
      {
        TimelyEntriesReachHolders(h, m, id, s);
      }
    }
  }

  /** The shortest disagreement: a user that subscribes before the first data event holds
      the symbol, the symbol has an entry, and the user is not in it. */
  lemma HoldingIsNotReceiving(id: Id, s: Symbol, tx: Tx)
    ensures var h := [Act(id, Subscribe(s, tx)), Data(s, "trade", [])];
      && Holds(h, 2, id, s) && Entry(h, 2, s) && !Recipient(h, 2, id, s)
  {
    var h := [Act(id, Subscribe(s, tx)), Data(s, "trade", [])];
    var e1 := After(h, 1);
    assert After(h, 0) == EMPTY;
    assert e1.users == map[id := User(tx, {s})] && e1.subs == map[];
    HoldsIsUserIndex(h, 2, id, s);
    RecipientsFollowHistory(h, 2, id, s);
  }

  /** Another session's cancellation silences everybody: naming a symbol clears it for all
      its recipients, although they still hold it. */
  lemma CancelSilencesAll(h: seq<Event>, n: nat, id: Id, s: Symbol)
    requires n < |h| && Cancels(h[n], s)
    ensures !Recipient(h, n + 1, id, s) && !Entry(h, n + 1, s)
    ensures Holds(h, n + 1, id, s) <==> Holds(h, n, id, s)
  {
    RecipientNext(h, n, id, s);
    EntryNext(h, n, s);
    HoldsNext(h, n, id, s);
  }
}
