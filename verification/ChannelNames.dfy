/** How the integration writer names the channel it publishes a symbol on, and how the
    replay server names the channel it subscribes to. */
module ChannelNames {
  import opened Basics
  import opened Text

  datatype MarketDataArg = MarketDataArg(exchange: string, marketType: string, symbol: string, msgType: string)

  function Path(name: string): string {
    "ipc:///tmp/" + name + ".ipc"
  }

  function WriterKey(exchange: string, marketType: string, msgType: string, symbol: string, period: string): string {
    exchange + "_" + marketType + "_" + msgType + "_" + symbol + (if |period| == 0 then "" else "_") + period
  }

  /** The path the writer binds for a key. */
  function WriterPath(key: string): string {
    Path(ReplaceN(key, '/', '-', 3))
  }

  /** `MarketDataArg::to_string`: the message type is a name, or a name and a period. */
  function ReplayName(arg: MarketDataArg): string {
    var pieces := Split(arg.msgType, '@');
    var period := if |pieces| > 1 then "_" + pieces[1] else "";
    arg.exchange + "_" + arg.marketType + "_" + pieces[0] + "_" + arg.symbol + period
  }

  function ReplayPath(arg: MarketDataArg): string {
    "ipc:///tmp/" + ReplayName(arg) + ".ipc"
  }

  /** A replay message type made of a writer's message type and an optional period. */
  function MessageType(name: string, period: Option<string>): string {
    match period
    case None => name
    case Some(p) => name + ['@'] + p
  }

  function PeriodText(period: Option<string>): string {
    if period.None? then "" else period.value
  }

  // ---------- Agreement ----------

  lemma PathIsInjective(a: string, b: string)
    ensures Path(a) == Path(b) <==> a == b
  {
    var prefix := "ipc:///tmp/";
    assert |Path(a)| == |prefix| + |a| + 4 && |Path(b)| == |prefix| + |b| + 4;
    if Path(a) == Path(b) {
      assert Path(a)[|prefix|..|prefix| + |a|] == a;
      assert Path(b)[|prefix|..|prefix| + |b|] == b;
    }
  }

  /** A name built from `@`-free pieces around the given fields. */
  function Joined(e: string, m: string, t: string, s: string, tail: string): string {
    e + "_" + m + "_" + t + "_" + s + tail
  }

  lemma JoinedCount(e: string, m: string, t: string, s: string, tail: string, c: char)
    requires c != '_'
    ensures Count(Joined(e, m, t, s, tail), c) == Count(e, c) + Count(m, c) + Count(t, c) + Count(s, c) + Count(tail, c)
  {
    var u := "_";
    CountZero(u, c);
    CountAppend(e, u, c);
    CountAppend(e + u, m, c);
    CountAppend(e + u + m, u, c);
    CountAppend(e + u + m + u, t, c);
    CountAppend(e + u + m + u + t, u, c);
    CountAppend(e + u + m + u + t + u, s, c);
    CountAppend(e + u + m + u + t + u + s, tail, c);
  }

  function WriterTail(period: string): string {
    if |period| == 0 then "" else "_" + period
  }

  lemma WriterKeyIsJoined(e: string, m: string, t: string, s: string, period: string)
    ensures WriterKey(e, m, t, s, period) == Joined(e, m, t, s, WriterTail(period))
  {
  }

  lemma ReplayNameIsJoined(arg: MarketDataArg)
    ensures var pieces := Split(arg.msgType, '@');
      ReplayName(arg) == Joined(arg.exchange, arg.marketType, pieces[0], arg.symbol,
                                if |pieces| > 1 then "_" + pieces[1] else "")
  {
  }

  /** The replay name drops every `@` of the message type. */
  lemma ReplayNameCount(arg: MarketDataArg)
    ensures Count(ReplayName(arg), '@') == Count(arg.exchange, '@') + Count(arg.marketType, '@') + Count(arg.symbol, '@')
  {
    var pieces := Split(arg.msgType, '@');
    var tail := if |pieces| > 1 then "_" + pieces[1] else "";
    ReplayNameIsJoined(arg);
    SplitPiecesAreClean(arg.msgType, '@');
    JoinedCount(arg.exchange, arg.marketType, pieces[0], arg.symbol, tail, '@');
    CountZero(pieces[0], '@');
    CountZero(tail, '@');
  }

  /** With an `@`-free name and period, replay's name is the writer's key, except that an
      empty period still leaves its underscore. */
  lemma CleanReplayName(e: string, m: string, t: string, s: string, period: Option<string>)
    requires '@' !in t && '@' !in PeriodText(period)
    ensures ReplayName(MarketDataArg(e, m, s, MessageType(t, period))) ==
            Joined(e, m, t, s, if period.None? then "" else "_" + period.value)
  {
    var arg := MarketDataArg(e, m, s, MessageType(t, period));
    ReplayNameIsJoined(arg);
    SplitWithout(t, '@');
    if period.Some? {
      SplitAtSeparator(t, '@', period.value);
      SplitWithout(period.value, '@');
    }
  }

  ghost predicate SlashFree(e: string, m: string, t: string, s: string, period: string) {
    '/' !in e && '/' !in m && '/' !in t && '/' !in s && '/' !in period
  }

  lemma KeySlashes(e: string, m: string, t: string, s: string, period: string)
    ensures '/' in WriterKey(e, m, t, s, period) <==> !SlashFree(e, m, t, s, period)
  {
  }

  /** Writer and replay server meet on the same channel for the same fields exactly when no
      field has a slash, neither message name nor period has an `@`, and a period that is
      given is not empty. */
  lemma PathsAgree(e: string, m: string, t: string, s: string, period: Option<string>)
    ensures (WriterPath(WriterKey(e, m, t, s, PeriodText(period)))
             == ReplayPath(MarketDataArg(e, m, s, MessageType(t, period))))
            <==>
            (SlashFree(e, m, t, s, PeriodText(period))
             && '@' !in t && '@' !in PeriodText(period) && period != Some(""))
  {
    var p := PeriodText(period);
    var key, arg := WriterKey(e, m, t, s, p), MarketDataArg(e, m, s, MessageType(t, period));
    PathIsInjective(ReplaceN(key, '/', '-', 3), ReplayName(arg));
    if '@' !in t && '@' !in p {
      CleanReplayName(e, m, t, s, period);
      WriterKeyIsJoined(e, m, t, s, p);
      ReplaceIsIdle(key, '/', '-', 3);
      KeySlashes(e, m, t, s, p);
      if period == Some("") {
        assert |ReplayName(arg)| == |key| + 1;
      }
    } else {
      ReplaceKeepsOthers(key, '/', '-', 3, '@');
      ReplayNameCount(arg);
      WriterKeyIsJoined(e, m, t, s, p);
      JoinedCount(e, m, t, s, WriterTail(p), '@');
      CountZero(t, '@');
      CountZero(WriterTail(p), '@');
    }
  }

  /** For a symbol with slashes the replay configuration has to spell the symbol the way the
      writer renames it: first three slashes as dashes. */
  lemma RenamedSymbolAgrees(e: string, m: string, t: string, s: string, period: Option<string>)
    requires SlashFree(e, m, t, "", PeriodText(period))
    requires '@' !in t && '@' !in PeriodText(period) && period != Some("")
    ensures WriterPath(WriterKey(e, m, t, s, PeriodText(period)))
            == ReplayPath(MarketDataArg(e, m, ReplaceN(s, '/', '-', 3), MessageType(t, period)))
  {
    var p := PeriodText(period);
    var head, tail := e + "_" + m + "_" + t + "_", WriterTail(p);
    WriterKeyIsJoined(e, m, t, s, p);
    assert WriterKey(e, m, t, s, p) == head + (s + tail);
    ReplaceAfter(head, s + tail, '/', '-', 3);
    ReplaceBefore(s, tail, '/', '-', 3);
    CleanReplayName(e, m, t, ReplaceN(s, '/', '-', 3), period);
  }
}
