/** What one JSON message of a websocket client makes its session do: queue actions for the
    engine, put a notice into its own channel, start replaying history, or end. */
module SessionRequests {
  import opened Basics
  import opened Text
  import opened ChannelNames
  import opened ReplayEngine

  /** What can be in a session's channel: messages of the engine, notices of the session
      itself, and whatever a history task of the session reads from files. */
  datatype Line = FromEngine(message: Message) | UnknownAction | RangeError | FromHistory(text: string)

  /** `Failed` ends the session. */
  datatype Outcome = Failed | Handled(queued: seq<SocketAction>, notices: seq<Line>, replays: bool)

  ghost predicate AllDigits(s: string) {
    forall i :: 0 <= i < |s| ==> '0' <= s[i] <= '9'
  }

  /** The number that the digits of `s` spell, or nothing if it holds anything else. */
  function Decimal(s: string): (n: Option<nat>)
    ensures n.Some? <==> AllDigits(s)
  {
    if s == [] then Some(0)
    else
      var front, last := Decimal(s[..|s| - 1]), s[|s| - 1];
      assert s == s[..|s| - 1] + [last];
      if front.Some? && '0' <= last <= '9' then Some(10 * front.value + (last as int - '0' as int)) else None
  }

  const MIN_I64: int := -0x8000_0000_0000_0000
  const MAX_I64: int := 0x7FFF_FFFF_FFFF_FFFF

  function InRange(v: int): Option<int> {
    if MIN_I64 <= v <= MAX_I64 then Some(v) else None
  }

  function Unsigned(s: string): string {
    if s != [] && (s[0] == '-' || s[0] == '+') then s[1..] else s
  }

  /** `str::parse::<i64>`: an optional sign, at least one digit, nothing else, in range. */
  function ParseI64(s: string): Option<int> {
    var digits := Unsigned(s);
    var n := Decimal(digits);
    if digits == [] || n.None? then None
    else InRange(if s[0] == '-' then 0 - n.value else n.value)
  }

  /** The range is two days separated by a dash, counted backwards from today; a missing
      second day is the first. The history task walks upwards from the first day while that
      is not below the second, once for each argument. */
  function HandleHistory(range: string, args: seq<MarketDataArg>): Outcome {
    var days := Split(range, '-');
    var start, end := ParseI64(days[0]), ParseI64(if |days| > 1 then days[1] else days[0]);
    if start.None? || end.None? then Failed
    else
      Handled([], if 0 <= end.value && start.value < end.value then [RangeError] else [],
              args != [] && start.value >= end.value)
  }

  function Subscriptions(id: Id, args: seq<MarketDataArg>): seq<SocketAction> {
    seq(|args|, i requires 0 <= i < |args| => Subscribe(ReplayName(args[i]), id))
  }

  function Cancellations(args: seq<MarketDataArg>): seq<SocketAction> {
    seq(|args|, i requires 0 <= i < |args| => Unsubscribe(Some(ReplayName(args[i]))))
  }

  /** The word before the first `@` of the action decides, and each argument goes by its
      channel name. A session's channel goes by the session's id. */
  function Handle(id: Id, action: string, args: seq<MarketDataArg>): (outcome: Outcome)
    ensures outcome.Handled? ==>
      && (forall i :: 0 <= i < |outcome.queued| && outcome.queued[i].Subscribe? ==> outcome.queued[i].tx == id)
      && (forall i :: 0 <= i < |outcome.notices| ==> !outcome.notices[i].FromEngine?)
  {
    var words := Split(action, '@');
    if words[0] == "subscribe" then
      Handled(Subscriptions(id, args), [], false)
    else if words[0] == "unsubscribe" then
      if args == [] then Handled([Unsubscribe(None)], [], false)
      else Handled(Cancellations(args), [], false)
    else if words[0] == "history" then HandleHistory(if |words| > 1 then words[1] else "0-0", args)
    else Handled([], [UnknownAction], false)
  }

  method HandleRange(range: string, args: seq<MarketDataArg>) returns (outcome: Outcome)
    ensures outcome == HandleHistory(range, args)
  {
    var days := Split(range, '-');
    var start := ParseI64(days[0]);
    if start.None? { return Failed; }
    var end := ParseI64(if |days| > 1 then days[1] else days[0]);
    if end.None? { return Failed; }
    var notices := [];
    if 0 <= end.value && start.value < end.value {
      notices := notices + [RangeError];
    }
    return Handled([], notices, args != [] && start.value >= end.value);
  }

  method HandleJson(id: Id, action: string, args: seq<MarketDataArg>) returns (outcome: Outcome)
    ensures outcome == Handle(id, action, args)
  {
    var queued: seq<SocketAction> := [];
    var words := Split(action, '@');
    if words[0] == "subscribe" {
      for i := 0 to |args|
        invariant queued == Subscriptions(id, args)[..i]
      {
        queued := queued + [Subscribe(ReplayName(args[i]), id)];
      }
    } else if words[0] == "unsubscribe" {
      if args == [] { return Handled([Unsubscribe(None)], [], false); }
      for i := 0 to |args|
        invariant queued == Cancellations(args)[..i]
      {
        queued := queued + [Unsubscribe(Some(ReplayName(args[i])))];
      }
    } else if words[0] == "history" {
      outcome := HandleRange(if |words| > 1 then words[1] else "0-0", args);
      return;
    } else {
      return Handled([], [UnknownAction], false);
    }
    return Handled(queued, [], false);
  }

  /** A dash separates the days, so no day of a range is ever negative. */
  lemma DaysAreNotNegative(range: string, i: nat)
    requires i < |Split(range, '-')|
    ensures var day := ParseI64(Split(range, '-')[i]);
            day.Some? ==> day.value >= 0
  {
    SplitPiecesAreClean(range, '-');
  }

  /** The test for a negative last day can never fail: a readable history request is warned
      about exactly when it counts its first day lower than its last, and replays exactly
      when it is not warned about and has arguments. */
  lemma HistoryWarnsOrReplays(range: string, args: seq<MarketDataArg>)
    requires HandleHistory(range, args).Handled?
    ensures var outcome, days := HandleHistory(range, args), Split(range, '-');
            var start, end := ParseI64(days[0]).value, ParseI64(if |days| > 1 then days[1] else days[0]).value;
      && 0 <= start && 0 <= end && outcome.queued == []
      && outcome.notices == (if start < end then [RangeError] else [])
      && (outcome.replays <==> args != [] && outcome.notices == [])
  {
    DaysAreNotNegative(range, 0);
    if |Split(range, '-')| > 1 {
      DaysAreNotNegative(range, 1);
    }
  }

  // ---------- The words of a request ----------

  /** The action is `word`, or `word` and an `@` and anything. */
  ghost predicate Says(action: string, word: string) {
    action == word || word + "@" <= action
  }

  lemma FirstWord(action: string, word: string)
    requires '@' !in word
    ensures Split(action, '@')[0] == word <==> Says(action, word)
  {
    assert "@" == ['@'];
    SplitFirst(action, '@', word);
  }

  lemma OneWordEach(action: string)
    ensures Split(action, '@')[0] == "subscribe" <==> Says(action, "subscribe")
    ensures Split(action, '@')[0] == "unsubscribe" <==> Says(action, "unsubscribe")
    ensures Split(action, '@')[0] == "history" <==> Says(action, "history")
  {
    FirstWord(action, "subscribe");
    FirstWord(action, "unsubscribe");
    FirstWord(action, "history");
  }

  /** Subscribing queues one subscription per argument, in order, to the argument's channel
      name and through the session's own channel. */
  lemma SubscribeAsks(id: Id, action: string, args: seq<MarketDataArg>)
    requires Says(action, "subscribe")
    ensures var outcome := Handle(id, action, args);
      && outcome.Handled? && outcome.notices == [] && !outcome.replays && |outcome.queued| == |args|
      && forall i :: 0 <= i < |args| ==> outcome.queued[i] == Subscribe(ReplayName(args[i]), id)
  {
    OneWordEach(action);
  }

  /** Unsubscribing queues one cancellation per argument, in order, or a single general one
      if there are no arguments. */
  lemma UnsubscribeAsks(id: Id, action: string, args: seq<MarketDataArg>)
    requires Says(action, "unsubscribe")
    ensures var outcome := Handle(id, action, args);
      && outcome.Handled? && outcome.notices == [] && !outcome.replays
      && (args == [] ==> outcome.queued == [Unsubscribe(None)])
      && (args != [] ==> |outcome.queued| == |args|)
      && (args != [] ==> forall i :: 0 <= i < |args| ==> outcome.queued[i] == Unsubscribe(Some(ReplayName(args[i]))))
  {
    OneWordEach(action);
  }

  /** No other word queues anything. An unknown one is answered by a notice, and nothing
      but a history request fails or replays. */
  lemma OtherWordsQueueNothing(id: Id, action: string, args: seq<MarketDataArg>)
    requires !Says(action, "subscribe") && !Says(action, "unsubscribe")
    ensures var outcome := Handle(id, action, args);
      && (outcome.Handled? ==> outcome.queued == [])
      && (!Says(action, "history") ==> outcome == Handled([], [UnknownAction], false))
  {
    OneWordEach(action);
  }

  // ---------- The days of a history request ----------

  /** A number in decimal, without leading zeros. */
  function Render(n: nat): (s: string)
    ensures s != []
  {
    (if n < 10 then [] else Render(n / 10)) + [('0' as int + n % 10) as char]
  }

  /** Decimal texts spell what they render, and only leading zeros spell it otherwise. */
  lemma {:induction false} RenderSpells(n: nat)
    ensures Decimal(Render(n)) == Some(n) && AllDigits(Render(n))
  {
    var s := Render(n);
    if n >= 10 {
      RenderSpells(n / 10);
      assert s[..|s| - 1] == Render(n / 10);
    }
  }

  function Zeros(k: nat): string {
    seq(k, _ => '0')
  }

  lemma {:induction false} SpelledIsRendered(s: string, n: nat) returns (k: nat)
    requires s != [] && Decimal(s) == Some(n)
    ensures s == Zeros(k) + Render(n)
  {
    var front, last := s[..|s| - 1], s[|s| - 1];
    var m := Decimal(front).value;
    assert s == front + [last] && n / 10 == m && n % 10 == last as int - '0' as int;
    if front == [] {
      k := 0;
    } else {
      k := SpelledIsRendered(front, m);
      if n < 10 {
        assert Render(m) == ['0'] && Render(n) == [last];
        assert front == Zeros(k) + ['0'] == Zeros(k + 1);
        k := k + 1;
      }
    }
  }

  predicate Sign(sign: string) {
    sign == "" || sign == "+" || sign == "-"
  }

  function Signed(sign: string, n: nat): int {
    if sign == "-" then 0 - n else n
  }

  lemma ParseSigned(sign: string, digits: string)
    requires Sign(sign) && digits != [] && AllDigits(digits)
    ensures ParseI64(sign + digits) == InRange(Signed(sign, Decimal(digits).value))
  {
    assert '0' <= digits[0] <= '9';
    if sign == "" {
      assert sign + digits == digits;
    } else {
      ParseAfterSign(sign[0], digits);
      assert sign == [sign[0]];
    }
  }

  lemma ParseAfterSign(sign: char, digits: string)
    requires (sign == '-' || sign == '+') && digits != [] && Decimal(digits).Some?
    ensures ParseI64([sign] + digits) == InRange(if sign == '-' then 0 - Decimal(digits).value else Decimal(digits).value)
  {
    var s := [sign] + digits;
    assert s[0] == sign && Unsigned(s) == digits;
    if sign == '-' {
      assert s[0] == '-';
    }
  }

  /** Parsing inverts rendering, signs included, within the range of the type. */
  lemma ParseRendered(sign: string, n: nat)
    requires Sign(sign)
    ensures ParseI64(sign + Render(n)) == InRange(Signed(sign, n))
  {
    RenderSpells(n);
    ParseSigned(sign, Render(n));
  }

  /** The days that fit are those of 63 bits. */
  lemma DaysFit(n: nat)
    ensures ParseI64(Render(n)) == if n < 0x8000_0000_0000_0000 then Some(n as int) else None
    ensures ParseI64("-" + Render(n)) == if n <= 0x8000_0000_0000_0000 then Some(0 - n) else None
  {
    assert "" + Render(n) == Render(n);
    ParseRendered("", n);
    ParseRendered("-", n);
  }

  lemma ParsedHasSign(s: string) returns (sign: string, digits: string)
    requires ParseI64(s).Some?
    ensures Sign(sign) && s == sign + digits && digits != [] && AllDigits(digits)
  {
    if s[0] == '-' || s[0] == '+' {
      return [s[0]], s[1..];
    }
    return "", s;
  }

  /** And whatever parses is a rendered number, up to a sign and leading zeros. */
  lemma ParsedIsRendered(s: string, v: int) returns (sign: string, k: nat, n: nat)
    requires ParseI64(s) == Some(v)
    ensures Sign(sign) && v == Signed(sign, n) && MIN_I64 <= v <= MAX_I64
    ensures s == sign + (Zeros(k) + Render(n))
  {
    var digits;
    sign, digits := ParsedHasSign(s);
    ParseSigned(sign, digits);
    n := Decimal(digits).value;
    k := SpelledIsRendered(digits, n);
  }

  lemma NoDash(n: nat)
    ensures '-' !in Render(n) && '@' !in Render(n)
  {
    RenderSpells(n);
  }

  lemma RangeDays(range: string, first: string, last: string, x: int, y: int, args: seq<MarketDataArg>)
    requires Split(range, '-') == [first, last]
    requires ParseI64(first) == Some(x) && ParseI64(last) == Some(y) && 0 <= y
    ensures HandleHistory(range, args) == Handled([], if x < y then [RangeError] else [], args != [] && x >= y)
  {
  }

  lemma ParseDay(n: nat)
    requires n <= MAX_I64
    ensures ParseI64(Render(n)) == Some(n as int)
  {
    assert "" + Render(n) == Render(n);
    ParseRendered("", n);
  }

  lemma TwoDays(first: nat, last: nat, args: seq<MarketDataArg>)
    requires first <= MAX_I64 && last <= MAX_I64
    ensures HandleHistory(Render(first) + ['-'] + Render(last), args) ==
            Handled([], if first < last then [RangeError] else [], args != [] && first >= last)
  {
    var a, b := Render(first), Render(last);
    NoDash(first);
    NoDash(last);
    SplitInTwo(a + ['-'] + b, '-', a, b);
    ParseDay(first);
    ParseDay(last);
    RangeDays(a + ['-'] + b, a, b, first, last, args);
  }

  lemma OneDay(day: nat, args: seq<MarketDataArg>)
    requires day <= MAX_I64
    ensures HandleHistory(Render(day), args) == Handled([], [], args != [])
  {
    NoDash(day);
    SplitWithout(Render(day), '-');
    ParseDay(day);
  }

  /** From the text of the request: a range of two days, one day, or today. */
  lemma HistoryAsks(id: Id, first: nat, last: nat, args: seq<MarketDataArg>)
    requires first <= MAX_I64 && last <= MAX_I64
    ensures Handle(id, "history@" + (Render(first) + "-" + Render(last)), args) ==
            Handled([], if first < last then [RangeError] else [], args != [] && first >= last)
    ensures Handle(id, "history@" + Render(first), args) == Handled([], [], args != [])
    ensures Handle(id, "history", args) == Handled([], [], args != [])
  {
    NoDash(first);
    NoDash(last);
    assert "-" == ['-'];
    TwoDays(first, last, args);
    OneDay(first, args);
    HistoryWords(id, Render(first) + ['-'] + Render(last), args);
    HistoryWords(id, Render(first), args);
    HistoryToday(id, args);
  }

  lemma HistoryToday(id: Id, args: seq<MarketDataArg>)
    ensures Handle(id, "history", args) == Handled([], [], args != [])
  {
    SplitWithout("history", '@');
    assert Render(0) == ['0'] && "0-0" == Render(0) + ['-'] + Render(0);
    TwoDays(0, 0, args);
  }

  lemma HistoryWords(id: Id, range: string, args: seq<MarketDataArg>)
    requires '@' !in range
    ensures Handle(id, "history@" + range, args) == HandleHistory(range, args)
  {
    assert "history@" + range == "history" + ['@'] + range;
    SplitInTwo("history@" + range, '@', "history", range);
  }

  /** A history request fails, which ends the session, exactly when one of its days does
      not parse. */
  lemma HistoryFails(range: string, args: seq<MarketDataArg>)
    ensures HandleHistory(range, args).Failed? <==>
            var days := Split(range, '-');
            ParseI64(days[0]).None? || ParseI64(if |days| > 1 then days[1] else days[0]).None?
  {
  }
}
