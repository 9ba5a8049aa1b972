/** The bookkeeping behind both configuration reconcilers: a map from keys to running tasks,
    with a ledger of every task ever spawned and every abort. A configuration is a set of
    items, each a key with some information; the map is keyed by the key alone. */
module Reconciler {
  import opened Basics

  type TaskId = nat

  datatype Item<K, V> = Item(key: K, info: V)

  datatype Task<V> = Task(info: V, id: TaskId)

  /** `spawned[id]` is the item task `id` was spawned for. */
  datatype Book<!K, V> = Book(held: map<K, Task<V>>, spawned: seq<Item<K, V>>, aborted: seq<TaskId>)

  function Empty<K, V>(): Book<K, V> {
    Book(map[], [], [])
  }

  /** Spawns a task for an item. A task already held under the key is overwritten. */
  function Spawn<K, V>(b: Book<K, V>, it: Item<K, V>): Book<K, V> {
    Book(b.held[it.key := Task(it.info, |b.spawned|)], b.spawned + [it], b.aborted)
  }

  /** Aborts whatever task is held under the item's key. */
  function Abort<K, V>(b: Book<K, V>, it: Item<K, V>): Book<K, V> {
    if it.key in b.held then Book(b.held - {it.key}, b.spawned, b.aborted + [b.held[it.key].id]) else b
  }

  function SpawnAll<K, V>(b: Book<K, V>, order: seq<Item<K, V>>): Book<K, V> {
    if order == [] then b else Spawn(SpawnAll(b, order[..|order| - 1]), order[|order| - 1])
  }

  function AbortAll<K, V>(b: Book<K, V>, order: seq<Item<K, V>>): Book<K, V> {
    if order == [] then b else Abort(AbortAll(b, order[..|order| - 1]), order[|order| - 1])
  }

  /** The map viewed as a set of items. */
  function Current<K, V(==)>(b: Book<K, V>): set<Item<K, V>> {
    set k | k in b.held :: Item(k, b.held[k].info)
  }

  function Items<K(==), V(==)>(config: seq<Item<K, V>>): set<Item<K, V>> {
    set it | it in config
  }

  /** `order` visits each element of `s` once. */
  ghost predicate Visits<T(!new)>(order: seq<T>, s: set<T>) {
    && (forall x :: x in order <==> x in s)
    && forall i, j :: 0 <= i < j < |order| ==> order[i] != order[j]
  }

  /** The effect of a new configuration, for some order in which the difference sets are
      walked: aborts what is gone, then spawns what is new. */
  ghost predicate Update<K(!new), V(!new)>(b: Book<K, V>, config: set<Item<K, V>>, b': Book<K, V>) {
    exists removed, added ::
      && Visits(removed, Current(b) - config)
      && Visits(added, config - Current(b))
      && b' == SpawnAll(AbortAll(b, removed), added)
  }

  lemma Orders<K(!new), V(!new)>(b: Book<K, V>, config: set<Item<K, V>>, b': Book<K, V>)
    returns (removed: seq<Item<K, V>>, added: seq<Item<K, V>>)
    requires Update(b, config, b')
    ensures Visits(removed, Current(b) - config) && Visits(added, config - Current(b))
    ensures b' == SpawnAll(AbortAll(b, removed), added)
  {
    removed, added :|
      && Visits(removed, Current(b) - config)
      && Visits(added, config - Current(b))
      && b' == SpawnAll(AbortAll(b, removed), added);
  }

  datatype Event<K, V> = Failed | Other | Modify(parsed: Option<seq<Item<K, V>>>)

  ghost predicate Step<K(!new), V(!new)>(b: Book<K, V>, ev: Event<K, V>, b': Book<K, V>) {
    if ev.Modify? && ev.parsed.Some? then Update(b, Items(ev.parsed.value), b') else b' == b
  }

  /** `books` are the successive states of a run over `events`. */
  ghost predicate Run<K(!new), V(!new)>(books: seq<Book<K, V>>, events: seq<Event<K, V>>) {
    && |books| == |events| + 1
    && forall i :: 0 <= i < |events| ==> Step(books[i], events[i], books[i + 1])
  }

  // ---------- What a configuration update achieves ----------

  /** No key is bound to two different infos. */
  ghost predicate Functional<K(!new), V(!new)>(config: set<Item<K, V>>) {
    forall a, b :: a in config && b in config && a.key == b.key ==> a == b
  }

  ghost predicate NamesKey<K(!new), V(!new)>(order: seq<Item<K, V>>, k: K) {
    exists i :: 0 <= i < |order| && order[i].key == k
  }

  lemma NamesKeySnoc<K(!new), V(!new)>(order: seq<Item<K, V>>, k: K)
    requires order != []
    ensures NamesKey(order, k) <==> NamesKey(order[..|order| - 1], k) || order[|order| - 1].key == k
  {
  }

  /** Aborting removes exactly the named keys. */
  lemma {:induction false} AbortAllHeld<K(!new), V(!new)>(b: Book<K, V>, order: seq<Item<K, V>>, k: K)
    ensures k in AbortAll(b, order).held <==> k in b.held && !NamesKey(order, k)
    ensures k in AbortAll(b, order).held ==> AbortAll(b, order).held[k] == b.held[k]
  {
    if order != [] {
      AbortAllHeld(b, order[..|order| - 1], k);
      NamesKeySnoc(order, k);
    }
  }

  /** Spawning binds each named key to one of the items that name it. */
  lemma {:induction false} SpawnAllHeld<K(!new), V(!new)>(b: Book<K, V>, order: seq<Item<K, V>>, k: K)
    ensures k in SpawnAll(b, order).held <==> k in b.held || NamesKey(order, k)
    ensures !NamesKey(order, k) && k in b.held ==> SpawnAll(b, order).held[k] == b.held[k]
    ensures NamesKey(order, k) ==> Item(k, SpawnAll(b, order).held[k].info) in order
    ensures NamesKey(order, k) ==> SpawnAll(b, order).held[k].id >= |b.spawned|
  {
    if order != [] {
      SpawnAllHeld(b, order[..|order| - 1], k);
      SpawnAllGrows(b, order[..|order| - 1]);
      NamesKeySnoc(order, k);
    }
  }

  /** After cleanup the map holds, untouched, what the configuration keeps. */
  lemma CleanupHeld<K(!new), V(!new)>(b: Book<K, V>, config: set<Item<K, V>>, removed: seq<Item<K, V>>, k: K)
    requires Visits(removed, Current(b) - config)
    ensures k in AbortAll(b, removed).held <==> k in b.held && Item(k, b.held[k].info) in config
    ensures k in AbortAll(b, removed).held ==> AbortAll(b, removed).held[k] == b.held[k]
  {
    AbortAllHeld(b, removed, k);
    if k in b.held {
      var it := Item(k, b.held[k].info);
      assert it in Current(b);
      if it !in config {
        assert it in removed;
      }
      if NamesKey(removed, k) {
        var i :| 0 <= i < |removed| && removed[i].key == k;
        assert removed[i] in Current(b) - config;
      }
    }
  }

  /** From any prior map whatsoever, a configuration that binds each key once ends up as
      exactly the map's items, rebound keys included. */
  lemma UpdateMatchesConfig<K(!new), V(!new)>(b: Book<K, V>, config: set<Item<K, V>>, b': Book<K, V>)
    requires Update(b, config, b')
    ensures Current(b') == config <==> Functional(config)
    ensures b'.held.Keys == set it | it in config :: it.key
  {
    var removed, added := Orders(b, config, b');
    forall k
      ensures k in b'.held ==> Item(k, b'.held[k].info) in config
      ensures forall it :: it in config && it.key == k ==> k in b'.held
    {
      CleanupHeld(b, config, removed, k);
      SpawnAllHeld(AbortAll(b, removed), added, k);
      forall it | it in config && it.key == k ensures k in b'.held {
        if it !in Current(b) {
          assert it in added;
        }
      }
    }
    if Functional(config) {
      forall it | it in config ensures it in Current(b') {
        assert Item(it.key, b'.held[it.key].info) == it;
      }
    }
  }

  /** The configuration gives `k` no info but `info`. */
  ghost predicate Only<K(!new), V(!new)>(config: set<Item<K, V>>, k: K, info: V) {
    forall it :: it in config && it.key == k ==> it.info == info
  }

  /** An item that stays configured keeps its task exactly when the configuration gives its
      key no second info. That it then does needs no soundness of the book. */
  lemma UnchangedKeepTask<K(!new), V(!new)>(b: Book<K, V>, config: set<Item<K, V>>, b': Book<K, V>, k: K)
    requires Update(b, config, b')
    requires k in b.held && Item(k, b.held[k].info) in config
    ensures k in b'.held
    ensures Only(config, k, b.held[k].info) ==> b'.held[k] == b.held[k]
    ensures Sound(b) && b'.held[k] == b.held[k] ==> Only(config, k, b.held[k].info)
  {
    var removed, added := Orders(b, config, b');
    var kept := Item(k, b.held[k].info);
    CleanupHeld(b, config, removed, k);
    AbortAllGrows(b, removed);
    SpawnAllHeld(AbortAll(b, removed), added, k);
    assert kept in Current(b);
    if NamesKey(added, k) {
      var i :| 0 <= i < |added| && added[i].key == k;
      assert added[i] in config - Current(b) && added[i] != kept;
    }
    if it :| it in config && it.key == k && it.info != kept.info {
      assert it !in Current(b) && it in added;
      assert NamesKey(added, k);
    }
  }

  lemma UpdateGrows<K(!new), V(!new)>(b: Book<K, V>, config: set<Item<K, V>>, b': Book<K, V>)
    requires Update(b, config, b')
    ensures b' == b <==> Current(b) == config
  {
    var removed, added := Orders(b, config, b');
    SpawnAllGrows(AbortAll(b, removed), added);
    AbortAllGrows(b, removed);
    if Current(b) == config {
      FirstVisited(removed, Current(b) - config);
      FirstVisited(added, config - Current(b));
    } else if Current(b) - config != {} {
      var it :| it in Current(b) - config;
      assert it in removed;
      CleanupHeld(b, config, removed, it.key);
    } else {
      assert config - Current(b) != {} by {
        if config <= Current(b) {
          assert Current(b) == Current(b) - config + config;
        }
      }
      var it :| it in config - Current(b);
      assert it in added;
    }
  }

  lemma FirstVisited<T(!new)>(order: seq<T>, s: set<T>)
    requires Visits(order, s)
    ensures order == [] || order[0] in s
  {
  }

  lemma {:induction false} SpawnAllGrows<K(!new), V(!new)>(b: Book<K, V>, order: seq<Item<K, V>>)
    ensures SpawnAll(b, order).spawned == b.spawned + order
    ensures SpawnAll(b, order).aborted == b.aborted
  {
    if order != [] {
      SpawnAllGrows(b, order[..|order| - 1]);
      assert order == order[..|order| - 1] + [order[|order| - 1]];
    }
  }

  lemma {:induction false} AbortAllGrows<K(!new), V(!new)>(b: Book<K, V>, order: seq<Item<K, V>>)
    ensures AbortAll(b, order).spawned == b.spawned
    ensures b.aborted <= AbortAll(b, order).aborted
  {
    if order != [] {
      AbortAllGrows(b, order[..|order| - 1]);
    }
  }

  /** Repeating a configuration event neither spawns nor aborts anything, exactly when the
      configuration binds each key once. */
  lemma RepeatingIsIdle<K(!new), V(!new)>(b: Book<K, V>, config: set<Item<K, V>>, b': Book<K, V>, b'': Book<K, V>)
    requires Update(b, config, b') && Update(b', config, b'')
    ensures b'' == b' <==> Functional(config)
  {
    UpdateMatchesConfig(b, config, b');
    UpdateGrows(b', config, b'');
  }

  // ---------- The task ledger ----------

  ghost predicate Holds<K(!new), V(!new)>(b: Book<K, V>, id: TaskId) {
    exists k :: k in b.held && b.held[k].id == id
  }

  /** What is true of every book, clean or not: held tasks were spawned for the key that
      holds them, and tasks are aborted at most once and not while held. */
  ghost predicate Sound<K(!new), V(!new)>(b: Book<K, V>) {
    && (forall k :: k in b.held ==>
      && b.held[k].id < |b.spawned|
      && b.spawned[b.held[k].id] == Item(k, b.held[k].info)
      && b.held[k].id !in b.aborted)
    && (forall i :: 0 <= i < |b.aborted| ==> b.aborted[i] < |b.spawned|)
    && (forall i, j :: 0 <= i < j < |b.aborted| ==> b.aborted[i] != b.aborted[j])
  }

  /** Tasks that run on although nothing holds them any more. */
  ghost function Leaks<K(!new), V(!new)>(b: Book<K, V>): set<TaskId> {
    set id | 0 <= id < |b.spawned| && !Holds(b, id) && id !in b.aborted
  }

  /** Without leaks every task ever spawned is either held under exactly one key or was
      aborted exactly once. */
  lemma NoLeaksMeansAccounted<K(!new), V(!new)>(b: Book<K, V>, id: TaskId)
    requires Sound(b) && id < |b.spawned|
    ensures Leaks(b) == {} ==> Holds(b, id) != (id in b.aborted)
    ensures forall k, k' :: k in b.held && k' in b.held && b.held[k].id == id && b.held[k'].id == id ==> k == k'
    ensures multiset(b.aborted)[id] <= 1
  {
    if Leaks(b) == {} && !Holds(b, id) {
      assert id !in Leaks(b);
    }
    forall k, k' | k in b.held && k' in b.held && b.held[k].id == id && b.held[k'].id == id ensures k == k' {
      assert b.spawned[id].key == k && b.spawned[id].key == k';
    }
    OnceInDistinct(b.aborted, id);
  }

  lemma {:induction false} OnceInDistinct(s: seq<TaskId>, x: TaskId)
    requires forall i, j :: 0 <= i < j < |s| ==> s[i] != s[j]
    ensures multiset(s)[x] <= 1
  {
    if s != [] {
      OnceInDistinct(s[1..], x);
      assert s == [s[0]] + s[1..];
      if s[0] == x {
        assert x !in s[1..];
      }
    }
  }

  lemma AbortKeepsSound<K(!new), V(!new)>(b: Book<K, V>, it: Item<K, V>)
    requires Sound(b)
    ensures Sound(Abort(b, it)) && Leaks(Abort(b, it)) == Leaks(b)
  {
    var b' := Abort(b, it);
    if it.key in b.held {
      var gone := b.held[it.key].id;
      forall id ensures Holds(b', id) <==> Holds(b, id) && id != gone {
        if Holds(b, id) && id != gone {
          var k :| k in b.held && b.held[k].id == id;
          assert k in b'.held;
        }
        if Holds(b', id) {
          var k :| k in b'.held && b'.held[k].id == id;
          assert b.spawned[b.held[k].id].key == k;
        }
      }
      assert Holds(b, gone);
    }
  }

  /** A spawn leaks exactly the task it overwrites. */
  lemma SpawnKeepsSound<K(!new), V(!new)>(b: Book<K, V>, it: Item<K, V>)
    requires Sound(b)
    ensures Sound(Spawn(b, it))
    ensures Leaks(Spawn(b, it)) == Leaks(b) + if it.key in b.held then {b.held[it.key].id} else {}
    ensures it.key in b.held ==> b.held[it.key].id !in Leaks(b)
  {
    var b' := Spawn(b, it);
    forall k | k in b'.held ensures b'.spawned[b'.held[k].id] == Item(k, b'.held[k].info) {}
    if it.key in b.held {
      assert Holds(b, b.held[it.key].id);
    }
    forall id | 0 <= id < |b.spawned|
      ensures Holds(b', id) <==> Holds(b, id) && !(it.key in b.held && id == b.held[it.key].id)
    {
      if Holds(b, id) && !(it.key in b.held && id == b.held[it.key].id) {
        var k :| k in b.held && b.held[k].id == id;
        assert k in b'.held && b'.held[k].id == id;
      }
      if Holds(b', id) {
        var k :| k in b'.held && b'.held[k].id == id;
        assert k != it.key && b.spawned[b.held[k].id].key == k;
      }
    }
    assert Holds(b', |b.spawned|) by {
      assert it.key in b'.held && b'.held[it.key].id == |b.spawned|;
    }
  }

  lemma {:induction false} AbortAllKeepsSound<K(!new), V(!new)>(b: Book<K, V>, order: seq<Item<K, V>>)
    requires Sound(b)
    ensures Sound(AbortAll(b, order)) && Leaks(AbortAll(b, order)) == Leaks(b)
  {
    if order != [] {
      AbortAllKeepsSound(b, order[..|order| - 1]);
      AbortKeepsSound(AbortAll(b, order[..|order| - 1]), order[|order| - 1]);
    }
  }

  /** No spawn of the sequence meets a key that is held by then. */
  ghost predicate FreshKeys<K(!new), V(!new)>(b: Book<K, V>, order: seq<Item<K, V>>) {
    && (forall i :: 0 <= i < |order| ==> order[i].key !in b.held)
    && forall i, j :: 0 <= i < j < |order| ==> order[i].key != order[j].key
  }

  /** A sequence of spawns leaks nothing exactly when all its keys are fresh; leaks stay. */
  lemma {:induction false} SpawnAllLeaks<K(!new), V(!new)>(b: Book<K, V>, order: seq<Item<K, V>>)
    requires Sound(b)
    ensures Sound(SpawnAll(b, order)) && Leaks(b) <= Leaks(SpawnAll(b, order))
    ensures Leaks(SpawnAll(b, order)) == Leaks(b) <==> FreshKeys(b, order)
  {
    if order != [] {
      var front, last := order[..|order| - 1], order[|order| - 1];
      SpawnAllLeaks(b, front);
      SpawnKeepsSound(SpawnAll(b, front), last);
      SpawnAllHeld(b, front, last.key);
      assert FreshKeys(b, order) <==> FreshKeys(b, front) && last.key !in b.held && !NamesKey(front, last.key) by {
        assert order == front + [last];
      }
    }
  }

  /** The added items have fresh keys exactly when the configuration binds each key once:
      that is where a map keyed by the key alone meets a difference of whole items. */
  lemma AddedAreFresh<K(!new), V(!new)>(b: Book<K, V>, config: set<Item<K, V>>, removed: seq<Item<K, V>>, added: seq<Item<K, V>>)
    requires Visits(removed, Current(b) - config) && Visits(added, config - Current(b))
    ensures FreshKeys(AbortAll(b, removed), added) <==> Functional(config)
  {
    var kept := AbortAll(b, removed);
    if Functional(config) {
      forall i | 0 <= i < |added| ensures added[i].key !in kept.held {
        CleanupHeld(b, config, removed, added[i].key);
        assert added[i] in config - Current(b);
      }
      forall i, j | 0 <= i < j < |added| ensures added[i].key != added[j].key {
        assert added[i] in config - Current(b) && added[j] in config - Current(b);
      }
    } else {
      var x, y :| x in config && y in config && x.key == y.key && x != y;
      CleanupHeld(b, config, removed, x.key);
      if x in Current(b) {
        assert y !in Current(b) && y in added;
      } else if y in Current(b) {
        assert x in added;
      } else {
        assert x in added && y in added;
      }
    }
  }

  /** An update of a sound book leaks nothing exactly when its configuration binds each key
      to one info, whatever the prior map and the iteration orders. */
  lemma UpdateLeaks<K(!new), V(!new)>(b: Book<K, V>, config: set<Item<K, V>>, b': Book<K, V>)
    requires Sound(b) && Update(b, config, b')
    ensures Sound(b') && Leaks(b) <= Leaks(b')
    ensures Leaks(b') == Leaks(b) <==> Functional(config)
  {
    var removed, added := Orders(b, config, b');
    AbortAllKeepsSound(b, removed);
    SpawnAllLeaks(AbortAll(b, removed), added);
    AddedAreFresh(b, config, removed, added);
  }

  // ---------- Whole runs ----------

  ghost predicate EachFunctional<K(!new), V(!new)>(events: seq<Event<K, V>>) {
    forall i :: 0 <= i < |events| && events[i].Modify? && events[i].parsed.Some? ==>
      Functional(Items(events[i].parsed.value))
  }

  /** Over a whole run nothing is leaked exactly when every configuration that was read
      binds each key once; a task once leaked stays leaked. */
  lemma {:induction false} RunLeaks<K(!new), V(!new)>(books: seq<Book<K, V>>, events: seq<Event<K, V>>)
    requires Run(books, events) && Sound(books[0])
    ensures Sound(books[|events|]) && Leaks(books[0]) <= Leaks(books[|events|])
    ensures Leaks(books[|events|]) == Leaks(books[0]) <==> EachFunctional(events)
  {
    if events != [] {
      var n := |events| - 1;
      var front := events[..n];
      RunLeaks(books[..n + 1], front);
      assert Step(books[n], events[n], books[n + 1]);
      if events[n].Modify? && events[n].parsed.Some? {
        UpdateLeaks(books[n], Items(events[n].parsed.value), books[n + 1]);
      }
      assert events == front + [events[n]];
    }
  }

  /** The configuration in force: the last one that was read, else the initial one. */
  ghost function InForce<K(!new), V(!new)>(initial: seq<Item<K, V>>, events: seq<Event<K, V>>): seq<Item<K, V>> {
    if events == [] then initial
    else
      var last := events[|events| - 1];
      if last.Modify? && last.parsed.Some? then last.parsed.value else InForce(initial, events[..|events| - 1])
  }

  lemma CurrentIsFunctional<K(!new), V(!new)>(b: Book<K, V>)
    ensures Functional(Current(b))
  {
  }

  /** Earlier configurations do not matter: the map's items are those in force exactly when
      these bind each key once. */
  lemma {:induction false} RunFollowsConfig<K(!new), V(!new)>(initial: seq<Item<K, V>>, books: seq<Book<K, V>>,
                                                              events: seq<Event<K, V>>)
    requires Run(books, events)
    requires Functional(Items(initial)) ==> Current(books[0]) == Items(initial)
    ensures Current(books[|events|]) == Items(InForce(initial, events)) <==>
            Functional(Items(InForce(initial, events)))
  {
    if events == [] {
      CurrentIsFunctional(books[0]);
    } else {
      var n := |events| - 1;
      RunFollowsConfig(initial, books[..n + 1], events[..n]);
      assert Step(books[n], events[n], books[n + 1]);
      if events[n].Modify? && events[n].parsed.Some? {
        UpdateMatchesConfig(books[n], Items(events[n].parsed.value), books[n + 1]);
      }
    }
  }

  /** A hash set's iterator: every element once, in an order nobody chose. */
  method IntoIter<T(==, !new)>(s: set<T>) returns (order: seq<T>)
    ensures Visits(order, s)
  {
    order := [];
    var rest := s;
    while rest != {}
      invariant rest <= s
      invariant Visits(order, s - rest)
    {
      var x :| x in rest;
      order := order + [x];
      rest := rest - {x};
    }
  }
}
