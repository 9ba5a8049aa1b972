/** The integration writer's routing loop: one publisher per key, created on first use,
    each carrying the data of its key in order of arrival. */
module Demux {
  import opened Basics
  import opened Text
  import opened ChannelNames

  type Key = string

  /** One datum of a message; `written` tells whether writing and flushing it succeeded. */
  datatype Datum = Datum(symbol: string, bytes: Bytes, written: bool)

  datatype Message = Message(exchange: string, marketType: string, msgType: string, data: seq<Datum>)

  /** A datum with the key it is routed by. */
  datatype Routed = Routed(key: Key, bytes: Bytes, written: bool)

  function RouteOf(m: Message, d: Datum, period: string): Routed {
    Routed(WriterKey(m.exchange, m.marketType, m.msgType, d.symbol, period), d.bytes, d.written)
  }

  /** The first `n` data of a message, routed. */
  function RoutedData(m: Message, n: nat, period: string): seq<Routed>
    requires n <= |m.data|
  {
    if n == 0 then [] else RoutedData(m, n - 1, period) + [RouteOf(m, m.data[n - 1], period)]
  }

  /** The data of the first `n` messages, routed, in order of arrival. */
  function RoutedMessages(ms: seq<Message>, n: nat, period: string): seq<Routed>
    requires n <= |ms|
  {
    if n == 0 then []
    else RoutedMessages(ms, n - 1, period) + RoutedData(ms[n - 1], |ms[n - 1].data|, period)
  }

  /** What publisher `key` should carry: the projection of the stream onto its key. */
  function Stream(items: seq<Routed>, key: Key): Bytes {
    if items == [] then []
    else
      var last := items[|items| - 1];
      Stream(items[..|items| - 1], key) + if last.key == key && last.written then last.bytes else []
  }

  ghost predicate Used(items: seq<Routed>, key: Key) {
    exists i :: 0 <= i < |items| && items[i].key == key
  }

  /** `creates` lists each used key once, in order of first use. */
  ghost predicate CreatedOnFirstUse(items: seq<Routed>, creates: seq<Key>) {
    && (forall i, j :: 0 <= i < j < |creates| ==> creates[i] != creates[j])
    && (forall key :: key in creates <==> Used(items, key))
    && (forall i, j :: 0 <= i < j < |creates| ==> FirstUse(items, creates[i]) < FirstUse(items, creates[j]))
  }

  /** The position of a key's first datum, or the length of the stream. */
  ghost function FirstUse(items: seq<Routed>, key: Key): nat {
    if items == [] then 0
    else if items[0].key == key then 0
    else 1 + FirstUse(items[1..], key)
  }

  class Router {
    var writers: map<Key, Bytes>
    var creates: seq<Key>

    /** The writers are exactly those of the routed stream. */
    ghost predicate Carries(items: seq<Routed>)
      reads this
    {
      && (forall key :: key in writers <==> Used(items, key))
      && (forall key :: key in writers ==> writers[key] == Stream(items, key))
      && CreatedOnFirstUse(items, creates)
    }

    constructor ()
      ensures Carries([])
    {
      writers, creates := map[], [];
    }

    method RouteOne(item: Routed, ghost items: seq<Routed>)
      requires Carries(items)
      modifies this
      ensures Carries(items + [item])
    {
      ghost var more := items + [item];
      UsedMore(items, item);
      StreamMore(items, item);
      if item.key !in writers {
        writers := writers[item.key := []];
        creates := creates + [item.key];
        UnusedStream(items, item.key);
      }
      CreatesMore(items, item, old(creates), creates);
      if item.written {
        writers := writers[item.key := writers[item.key] + item.bytes];
      }
    }

    method RouteMessage(m: Message, period: string, ghost items: seq<Routed>)
      requires Carries(items)
      modifies this
      ensures Carries(items + RoutedData(m, |m.data|, period))
    {
      ghost var routed := items;
      for i := 0 to |m.data|
        invariant routed == items + RoutedData(m, i, period)
        invariant Carries(routed)
      {
        var item := RouteOf(m, m.data[i], period);
        RouteOne(item, routed);
        SnocAssociates(items, RoutedData(m, i, period), item);
        routed := routed + [item];
      }
    }
  }

  lemma SnocAssociates(a: seq<Routed>, b: seq<Routed>, item: Routed)
    ensures a + b + [item] == a + (b + [item])
  {
  }

  /** The whole loop: for any message stream each key's publisher is created once, when the
      key is first used, and carries the in-order projection of the stream onto its key. */
  method RunWriter(ms: seq<Message>, period: string) returns (router: Router)
    ensures fresh(router) && router.Carries(RoutedMessages(ms, |ms|, period))
  {
    router := new Router();
    for i := 0 to |ms|
      invariant fresh(router) && router.Carries(RoutedMessages(ms, i, period))
    {
      router.RouteMessage(ms[i], period, RoutedMessages(ms, i, period));
    }
  }

  lemma UsedMore(items: seq<Routed>, item: Routed)
    ensures forall key :: Used(items + [item], key) <==> Used(items, key) || key == item.key
  {
    var more := items + [item];
    forall key ensures Used(more, key) <==> Used(items, key) || key == item.key {
      if Used(items, key) {
        var i :| 0 <= i < |items| && items[i].key == key;
        assert more[i].key == key;
      }
      assert more[|items|] == item;
    }
  }

  lemma StreamMore(items: seq<Routed>, item: Routed)
    ensures forall key :: Stream(items + [item], key) ==
              Stream(items, key) + if item.key == key && item.written then item.bytes else []
  {
  }

  lemma {:induction false} UnusedStream(items: seq<Routed>, key: Key)
    requires !Used(items, key)
    ensures Stream(items, key) == [] && FirstUse(items, key) == |items|
  {
    if items != [] {
      var front := items[..|items| - 1];
      assert !Used(front, key) && !Used(items[1..], key);
      UnusedStream(front, key);
      UnusedStream(items[1..], key);
    }
  }

  lemma {:induction false} FirstUseMore(items: seq<Routed>, item: Routed, key: Key)
    requires Used(items, key)
    ensures FirstUse(items + [item], key) == FirstUse(items, key) < |items|
  {
    if items[0].key != key {
      var i :| 0 <= i < |items| && items[i].key == key;
      assert items[1..][i - 1].key == key;
      FirstUseMore(items[1..], item, key);
      assert (items + [item])[1..] == items[1..] + [item];
    }
  }

  lemma {:induction false} FirstUseFresh(items: seq<Routed>, item: Routed)
    requires !Used(items, item.key)
    ensures FirstUse(items + [item], item.key) == |items|
  {
    if items != [] {
      assert !Used(items[1..], item.key);
      FirstUseFresh(items[1..], item);
      assert (items + [item])[1..] == items[1..] + [item];
    }
  }

  lemma CreatesMore(items: seq<Routed>, item: Routed, before: seq<Key>, after: seq<Key>)
    requires CreatedOnFirstUse(items, before)
    requires after == if Used(items, item.key) then before else before + [item.key]
    ensures CreatedOnFirstUse(items + [item], after)
  {
    UsedMore(items, item);
    forall i | 0 <= i < |before|
      ensures FirstUse(items + [item], before[i]) == FirstUse(items, before[i]) < |items|
    {
      assert before[i] in before;
      FirstUseMore(items, item, before[i]);
    }
    if !Used(items, item.key) {
      FirstUseFresh(items, item);
    }
  }

  // ---------- Conservation ----------

  function Written(items: seq<Routed>): nat {
    if items == [] then 0
    else
      var last := items[|items| - 1];
      Written(items[..|items| - 1]) + if last.written then |last.bytes| else 0
  }

  function Carried(items: seq<Routed>, keys: seq<Key>): nat {
    if keys == [] then 0 else |Stream(items, keys[0])| + Carried(items, keys[1..])
  }

  /** Over distinct keys that cover the stream, the publishers together carry each written
      byte once: nothing is lost or duplicated across keys. */
  lemma {:induction false} BytesAreConserved(items: seq<Routed>, keys: seq<Key>)
    requires forall i, j :: 0 <= i < j < |keys| ==> keys[i] != keys[j]
    requires forall i :: 0 <= i < |items| ==> items[i].key in keys
    ensures Carried(items, keys) == Written(items)
  {
    if items == [] {
      CarriedNothing(keys);
    } else {
      var front, last := items[..|items| - 1], items[|items| - 1];
      BytesAreConserved(front, keys);
      CarriedMore(front, last, keys);
      assert items == front + [last];
    }
  }

  lemma {:induction false} CarriedNothing(keys: seq<Key>)
    ensures Carried([], keys) == 0
  {
    if keys != [] {
      CarriedNothing(keys[1..]);
    }
  }

  lemma {:induction false} CarriedMore(items: seq<Routed>, item: Routed, keys: seq<Key>)
    requires forall i, j :: 0 <= i < j < |keys| ==> keys[i] != keys[j]
    ensures Carried(items + [item], keys) ==
            Carried(items, keys) + if item.key in keys && item.written then |item.bytes| else 0
  {
    StreamMore(items, item);
    if keys != [] {
      CarriedMore(items, item, keys[1..]);
      assert keys == [keys[0]] + keys[1..];
    }
  }

  // ---------- Routing by the fields of a message ----------

  lemma PrefixCancels(a: string, b: string, c: string)
    ensures a + b == a + c <==> b == c
  {
    assert (a + b)[|a|..] == b && (a + c)[|a|..] == c;
  }

  lemma SuffixCancels(a: string, b: string, c: string)
    ensures a + c == b + c <==> a == b
  {
    if a + c == b + c {
      assert |a| == |b|;
      assert (a + c)[..|a|] == a && (b + c)[..|b|] == b;
    }
  }

  /** The four fields with underscores between them. */
  function Fields(e: string, m: string, t: string, s: string): string {
    e + "_" + m + "_" + t + "_" + s
  }

  lemma KeyIsFields(e: string, m: string, t: string, s: string, period: string)
    ensures WriterKey(e, m, t, s, period) == Fields(e, m, t, s) + WriterTail(period)
  {
    WriterKeyIsJoined(e, m, t, s, period);
  }

  lemma FieldsAreJoined(e: string, m: string, t: string, s: string)
    ensures Fields(e, m, t, s) == Join([e, m, t, s], '_')
  {
    assert [e, m, t, s][1..] == [m, t, s] && [m, t, s][1..] == [t, s] && [t, s][1..] == [s];
    assert "_" == ['_'];
    assert t + "_" + s == Join([t, s], '_');
    assert m + "_" + (t + "_" + s) == Join([m, t, s], '_');
    assert Fields(e, m, t, s) == e + "_" + (m + "_" + (t + "_" + s));
  }

  /** Two data reach one publisher exactly when their four fields read the same once
      joined. Data of one exchange, market type and message type do so exactly for one
      symbol, and so do any data whose fields have no underscore for the same four. */
  lemma SharedPublisher(m: Message, d: Datum, n: Message, c: Datum, period: string)
    ensures RouteOf(m, d, period).key == RouteOf(n, c, period).key <==>
            Fields(m.exchange, m.marketType, m.msgType, d.symbol) == Fields(n.exchange, n.marketType, n.msgType, c.symbol)
    ensures m.exchange == n.exchange && m.marketType == n.marketType && m.msgType == n.msgType ==>
            (RouteOf(m, d, period).key == RouteOf(n, c, period).key <==> d.symbol == c.symbol)
    ensures NoneContains([m.exchange, m.marketType, m.msgType, d.symbol], '_')
            && NoneContains([n.exchange, n.marketType, n.msgType, c.symbol], '_') ==>
            (RouteOf(m, d, period).key == RouteOf(n, c, period).key <==>
             m.exchange == n.exchange && m.marketType == n.marketType && m.msgType == n.msgType && d.symbol == c.symbol)
  {
    KeyIsFields(m.exchange, m.marketType, m.msgType, d.symbol, period);
    KeyIsFields(n.exchange, n.marketType, n.msgType, c.symbol, period);
    var one, other := Fields(m.exchange, m.marketType, m.msgType, d.symbol), Fields(n.exchange, n.marketType, n.msgType, c.symbol);
    SuffixCancels(one, other, WriterTail(period));
    OneSymbol(m.exchange, m.marketType, m.msgType, d.symbol, c.symbol);
    if one == other {
      FieldsOf(m.exchange, m.marketType, m.msgType, d.symbol);
      FieldsOf(n.exchange, n.marketType, n.msgType, c.symbol);
    }
  }

  lemma OneSymbol(e: string, m: string, t: string, s: string, other: string)
    ensures Fields(e, m, t, s) == Fields(e, m, t, other) <==> s == other
  {
    var head := e + "_" + m + "_" + t + "_";
    PrefixCancels(head, s, other);
  }

  lemma FieldsOf(e: string, m: string, t: string, s: string)
    ensures NoneContains([e, m, t, s], '_') ==> Split(Fields(e, m, t, s), '_') == [e, m, t, s]
  {
    if NoneContains([e, m, t, s], '_') {
      FieldsAreJoined(e, m, t, s);
      SplitJoin([e, m, t, s], '_');
    }
  }

  /** With underscores in the fields, different ones can share a publisher. */
  lemma FieldsAreAmbiguous(d: Datum, period: string)
    ensures RouteOf(Message("a_b", "c", "t", [d]), d, period).key == RouteOf(Message("a", "b_c", "t", [d]), d, period).key
  {
    assert "a_b" + "_" + "c" == "a" + "_" + "b_c";
  }

  /** The written bytes of one symbol in the first `n` data. */
  function SymbolBytes(data: seq<Datum>, n: nat, symbol: string): Bytes
    requires n <= |data|
  {
    if n == 0 then []
    else
      var d := data[n - 1];
      SymbolBytes(data, n - 1, symbol) + if d.symbol == symbol && d.written then d.bytes else []
  }

  function AllSymbolBytes(ms: seq<Message>, n: nat, symbol: string): Bytes
    requires n <= |ms|
  {
    if n == 0 then [] else AllSymbolBytes(ms, n - 1, symbol) + SymbolBytes(ms[n - 1].data, |ms[n - 1].data|, symbol)
  }

  lemma BytesAssociate(a: Bytes, b: Bytes, c: Bytes)
    ensures a + b + c == a + (b + c)
  {
  }

  lemma {:induction false} StreamAppend(a: seq<Routed>, b: seq<Routed>, key: Key)
    ensures Stream(a + b, key) == Stream(a, key) + Stream(b, key)
  {
    if b == [] {
      assert a + b == a;
    } else {
      var front, last := b[..|b| - 1], b[|b| - 1];
      StreamAppend(a, front, key);
      StreamMore(a + front, last);
      SnocAssociates(a, front, last);
      assert b == front + [last];
      BytesAssociate(Stream(a, key), Stream(front, key), if last.key == key && last.written then last.bytes else []);
    }
  }

  lemma {:induction false} MessageBytes(m: Message, n: nat, symbol: string, period: string)
    requires n <= |m.data|
    ensures Stream(RoutedData(m, n, period), WriterKey(m.exchange, m.marketType, m.msgType, symbol, period)) ==
            SymbolBytes(m.data, n, symbol)
  {
    if n > 0 {
      MessageBytes(m, n - 1, symbol, period);
      StreamMore(RoutedData(m, n - 1, period), RouteOf(m, m.data[n - 1], period));
      SharedPublisher(m, m.data[n - 1], m, Datum(symbol, [], true), period);
    }
  }

  lemma MoreBytes(a: seq<Routed>, b: seq<Routed>, key: Key, x: Bytes, y: Bytes)
    requires Stream(a, key) == x && Stream(b, key) == y
    ensures Stream(a + b, key) == x + y
  {
    StreamAppend(a, b, key);
  }

  /** In the writer of one exchange, market type and message type, the publisher of a symbol
      carries the written bytes of exactly that symbol, in order of arrival. */
  lemma {:induction false} PublisherCarriesSymbol(ms: seq<Message>, n: nat, e: string, m: string, t: string,
                                                  symbol: string, period: string)
    requires n <= |ms|
    requires forall i :: 0 <= i < |ms| ==> ms[i].exchange == e && ms[i].marketType == m && ms[i].msgType == t
    ensures Stream(RoutedMessages(ms, n, period), WriterKey(e, m, t, symbol, period)) == AllSymbolBytes(ms, n, symbol)
  {
    if n > 0 {
      var last := ms[n - 1];
      PublisherCarriesSymbol(ms, n - 1, e, m, t, symbol, period);
      MessageBytes(last, |last.data|, symbol, period);
      MoreBytes(RoutedMessages(ms, n - 1, period), RoutedData(last, |last.data|, period), WriterKey(e, m, t, symbol, period),
                AllSymbolBytes(ms, n - 1, symbol), SymbolBytes(last.data, |last.data|, symbol));
    }
  }
}
