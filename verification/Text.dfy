/** String operations of the Rust standard library that the modelled code leans on:
    splitting at a separator character and its inverse, counting a character, and
    replacing the first few occurrences of one. */
module Text {

  /** `s.split(sep)`: the pieces between separators, never an empty list. */
  function Split(s: string, sep: char): (parts: seq<string>)
    ensures |parts| >= 1
  {
    if s == [] then [[]] else Attach(s[0], sep, Split(s[1..], sep))
  }

  /** One more character in front of pieces already split. */
  function Attach(c: char, sep: char, rest: seq<string>): (parts: seq<string>)
    requires |rest| >= 1
    ensures |parts| >= 1
  {
    if c == sep then [[]] + rest else [[c] + rest[0]] + rest[1..]
  }

  lemma AttachAppend(c: char, sep: char, rest: seq<string>, tail: seq<string>)
    requires |rest| >= 1
    ensures Attach(c, sep, rest + tail) == Attach(c, sep, rest) + tail
  {
  }

  /** The pieces with one separator between neighbours. */
  function Join(parts: seq<string>, sep: char): string
  {
    if parts == [] then []
    else if |parts| == 1 then parts[0]
    else parts[0] + [sep] + Join(parts[1..], sep)
  }

  ghost predicate NoneContains(parts: seq<string>, c: char) {
    forall i :: 0 <= i < |parts| ==> c !in parts[i]
  }

  lemma {:induction false} JoinSplit(s: string, sep: char)
    ensures Join(Split(s, sep), sep) == s
  {
    if s != [] {
      var rest := Split(s[1..], sep);
      JoinSplit(s[1..], sep);
      assert s == [s[0]] + s[1..];
      if s[0] == sep {
        assert (["" ] + rest)[1..] == rest;
      } else {
        var parts := [[s[0]] + rest[0]] + rest[1..];
        assert parts[1..] == rest[1..];
      }
    }
  }

  /** No piece holds the separator, and splitting invents no characters. */
  lemma {:induction false} SplitPiecesAreClean(s: string, sep: char)
    ensures NoneContains(Split(s, sep), sep)
    ensures forall i, c :: 0 <= i < |Split(s, sep)| && c in Split(s, sep)[i] ==> c in s
  {
    if s != [] {
      SplitPiecesAreClean(s[1..], sep);
      var rest := Split(s[1..], sep);
      var parts := Split(s, sep);
      assert forall c :: c in s[1..] ==> c in s;
      forall i, c | 0 <= i < |parts| && c in parts[i]
        ensures c != sep && c in s
      {
        if s[0] == sep {
          assert i > 0 && parts[i] == rest[i - 1];
        } else if i > 0 {
          assert parts[i] == rest[i];
        } else {
          assert c == s[0] || c in rest[0];
        }
      }
    }
  }

  lemma {:induction false} SplitWithout(s: string, sep: char)
    requires sep !in s
    ensures Split(s, sep) == [s]
  {
    if s != [] {
      SplitWithout(s[1..], sep);
      assert s == [s[0]] + s[1..];
    }
  }

  lemma {:induction false} SplitAtSeparator(a: string, sep: char, b: string)
    ensures Split(a + [sep] + b, sep) == Split(a, sep) + Split(b, sep)
  {
    var whole := a + [sep] + b;
    if a == [] {
      assert whole[0] == sep && whole[1..] == b;
    } else {
      SplitAtSeparator(a[1..], sep, b);
      assert whole[0] == a[0] && whole[1..] == a[1..] + [sep] + b;
      AttachAppend(a[0], sep, Split(a[1..], sep), Split(b, sep));
    }
  }

  lemma {:induction false} SplitJoin(parts: seq<string>, sep: char)
    requires parts != [] && NoneContains(parts, sep)
    ensures Split(Join(parts, sep), sep) == parts
  {
    SplitWithout(parts[0], sep);
    if |parts| > 1 {
      SplitJoin(parts[1..], sep);
      SplitAtSeparator(parts[0], sep, Join(parts[1..], sep));
      assert parts == [parts[0]] + parts[1..];
    }
  }

  /** The number of occurrences of `c`. */
  function Count(s: string, c: char): nat {
    if s == [] then 0 else (if s[0] == c then 1 else 0) + Count(s[1..], c)
  }

  lemma {:induction false} CountAppend(a: string, b: string, c: char)
    ensures Count(a + b, c) == Count(a, c) + Count(b, c)
  {
    if a == [] {
      assert a + b == b;
    } else {
      CountAppend(a[1..], b, c);
      assert (a + b)[1..] == a[1..] + b;
    }
  }

  lemma {:induction false} CountZero(s: string, c: char)
    ensures Count(s, c) == 0 <==> c !in s
  {
    if s != [] {
      CountZero(s[1..], c);
      assert s == [s[0]] + s[1..];
    }
  }

  /** `s.replacen(from, to, n)`: replaces the first `n` occurrences. */
  function ReplaceN(s: string, from: char, to: char, n: nat): (r: string)
    ensures |r| == |s|
  {
    if s == [] then []
    else if s[0] == from && n > 0 then [to] + ReplaceN(s[1..], from, to, n - 1)
    else [s[0]] + ReplaceN(s[1..], from, to, n)
  }

  lemma {:induction false} ReplaceKeepsOthers(s: string, from: char, to: char, n: nat, c: char)
    requires c != from && c != to
    ensures Count(ReplaceN(s, from, to, n), c) == Count(s, c)
  {
    if s != [] {
      var n' := if s[0] == from && n > 0 then n - 1 else n;
      ReplaceKeepsOthers(s[1..], from, to, n', c);
      var r := ReplaceN(s, from, to, n);
      assert r[1..] == ReplaceN(s[1..], from, to, n');
    }
  }

  lemma {:induction false} ReplaceIsIdle(s: string, from: char, to: char, n: nat)
    requires from != to && n > 0
    ensures ReplaceN(s, from, to, n) == s <==> from !in s
  {
    if s != [] {
      assert s == [s[0]] + s[1..];
      if s[0] != from {
        ReplaceIsIdle(s[1..], from, to, n);
      }
    }
  }

  lemma {:induction false} ReplaceAfter(a: string, b: string, from: char, to: char, n: nat)
    requires from !in a
    ensures ReplaceN(a + b, from, to, n) == a + ReplaceN(b, from, to, n)
  {
    if a == [] {
      assert a + b == b;
    } else {
      assert (a + b)[1..] == a[1..] + b && a == [a[0]] + a[1..];
      ReplaceAfter(a[1..], b, from, to, n);
    }
  }

  lemma {:induction false} ReplaceBefore(a: string, b: string, from: char, to: char, n: nat)
    requires from !in b && from != to
    ensures ReplaceN(a + b, from, to, n) == ReplaceN(a, from, to, n) + b
  {
    if a == [] {
      assert a + b == b;
      ReplaceNothing(b, from, to, n);
    } else {
      assert (a + b)[1..] == a[1..] + b;
      ReplaceBefore(a[1..], b, from, to, if a[0] == from && n > 0 then n - 1 else n);
    }
  }

  lemma {:induction false} ReplaceNothing(s: string, from: char, to: char, n: nat)
    requires from !in s
    ensures ReplaceN(s, from, to, n) == s
  {
    if s != [] {
      assert s == [s[0]] + s[1..];
      ReplaceNothing(s[1..], from, to, n);
    }
  }

  /** Exactly the first `n` occurrences change, and nothing else does. */
  lemma {:induction false} ReplaceNAt(s: string, from: char, to: char, n: nat, i: nat)
    requires i < |s|
    ensures ReplaceN(s, from, to, n)[i] == if s[i] == from && Count(s[..i], from) < n then to else s[i]
  {
    if i > 0 {
      var n' := if s[0] == from && n > 0 then n - 1 else n;
      ReplaceNAt(s[1..], from, to, n', i - 1);
      assert s[1..][..i - 1] == s[..i][1..];
    }
  }

  /** A text has one piece more than separators. */
  lemma {:induction false} SplitCount(s: string, sep: char)
    ensures |Split(s, sep)| == Count(s, sep) + 1
  {
    if s != [] {
      SplitCount(s[1..], sep);
    }
  }

  /** A text splits in two pieces exactly when it is those pieces around one separator. */
  lemma SplitInTwo(s: string, sep: char, a: string, b: string)
    ensures Split(s, sep) == [a, b] <==> sep !in a && sep !in b && s == a + [sep] + b
  {
    if Split(s, sep) == [a, b] {
      JoinSplit(s, sep);
      SplitPiecesAreClean(s, sep);
      assert [a, b][1..] == [b];
      assert sep !in Split(s, sep)[0] && sep !in Split(s, sep)[1];
    }
    if sep !in a && sep !in b && s == a + [sep] + b {
      SplitAtSeparator(a, sep, b);
      SplitWithout(a, sep);
      SplitWithout(b, sep);
    }
  }

  /** The first piece is what precedes the first separator. */
  lemma SplitFirst(s: string, sep: char, a: string)
    requires sep !in a
    ensures Split(s, sep)[0] == a <==> s == a || a + [sep] <= s
  {
    if s == a {
      SplitWithout(a, sep);
    } else if a + [sep] <= s {
      SplitAtSeparator(a, sep, s[|a| + 1..]);
      SplitWithout(a, sep);
      assert s == a + [sep] + s[|a| + 1..];
    } else if Split(s, sep)[0] == a {
      JoinSplit(s, sep);
    }
  }
}
