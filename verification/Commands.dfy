/** The text command protocol that clients speak on a QUIC stream:
    commands `sub@topic` and `unsub@topic` separated by semicolons. */
module Commands {
  import opened Basics
  import opened Text
  import opened PublisherTypes

  datatype Command = Subscribe(topic: Topic) | Unsubscribe(topic: Topic) | Unknown(name: string, topic: Topic)
  {
    predicate Names(t: Topic) {
      (Subscribe? || Unsubscribe?) && topic == t
    }
  }

  /** Reported to the client as "ERROR: Subscription does not exist" and "ERROR: error:
      Non-existent Action". */
  datatype Error = NoSuchSubscription | NoSuchAction

  function CommandOf(name: string, topic: string): Command {
    if name == "sub" then Subscribe(topic)
    else if name == "unsub" then Unsubscribe(topic)
    else Unknown(name, topic)
  }

  /** One action; `None` when it does not consist of exactly two pieces around an `@`. */
  function ParseCommand(action: string): Option<Command> {
    var pieces := Split(action, '@');
    if |pieces| != 2 then None else Some(CommandOf(pieces[0], pieces[1]))
  }

  /** The commands before the first action that does not parse. */
  function PrefixCommands(actions: seq<string>): seq<Command> {
    if actions == [] || ParseCommand(actions[0]).None? then []
    else [ParseCommand(actions[0]).value] + PrefixCommands(actions[1..])
  }

  function Parse(text: string): seq<Command> {
    PrefixCommands(Split(text, ';'))
  }

  ghost predicate AllParse(actions: seq<string>) {
    forall i :: 0 <= i < |actions| ==> ParseCommand(actions[i]).Some?
  }

  /** Every action of the text is a command, so handling it does not stop early. */
  ghost predicate WellFormed(text: string) {
    AllParse(Split(text, ';'))
  }

  /** Effect of one command issued by `cid`. */
  function Apply(subs: Subscriptions, cid: Cid, c: Command): Subscriptions {
    match c
    case Subscribe(t) => if t in subs then subs[t := subs[t] + {cid}] else subs
    case Unsubscribe(t) => if t in subs then subs[t := subs[t] - {cid}] else subs
    case Unknown(_, _) => subs
  }

  /** The error reported back for a command, if any. */
  function Complaint(topics: set<Topic>, c: Command): seq<Error> {
    if c.Unknown? then [NoSuchAction]
    else if c.topic !in topics then [NoSuchSubscription]
    else []
  }

  function ApplyAll(subs: Subscriptions, cid: Cid, cs: seq<Command>): Subscriptions {
    if cs == [] then subs else ApplyAll(Apply(subs, cid, cs[0]), cid, cs[1..])
  }

  function Complaints(topics: set<Topic>, cs: seq<Command>): seq<Error> {
    if cs == [] then [] else Complaint(topics, cs[0]) + Complaints(topics, cs[1..])
  }

  /** `cs[i]` is the last command that says anything about topic `t`. */
  ghost predicate LastWord(cs: seq<Command>, i: int, t: Topic) {
    0 <= i < |cs| && cs[i].Names(t) && forall j :: i < j < |cs| ==> !cs[j].Names(t)
  }

  ghost predicate Mentions(cs: seq<Command>, t: Topic) {
    exists i :: 0 <= i < |cs| && cs[i].Names(t)
  }

  /** A command list never creates or drops topics. */
  lemma {:induction false} TopicsAreFixed(subs: Subscriptions, cid: Cid, cs: seq<Command>)
    ensures ApplyAll(subs, cid, cs).Keys == subs.Keys
  {
    if cs != [] {
      TopicsAreFixed(Apply(subs, cid, cs[0]), cid, cs[1..]);
    }
  }

  lemma MentionsRest(cs: seq<Command>, t: Topic)
    requires cs != []
    ensures Mentions(cs, t) <==> cs[0].Names(t) || Mentions(cs[1..], t)
  {
    var rest := cs[1..];
    assert forall j :: 0 <= j < |rest| ==> rest[j] == cs[j + 1];
    if Mentions(rest, t) {
      var j :| 0 <= j < |rest| && rest[j].Names(t);
      assert cs[j + 1].Names(t);
    }
    if i :| 0 < i < |cs| && cs[i].Names(t) {
      assert rest[i - 1].Names(t);
    }
  }

  lemma LastWordRest(cs: seq<Command>, i: int, t: Topic)
    requires LastWord(cs, i, t)
    ensures if i > 0 then LastWord(cs[1..], i - 1, t) else !Mentions(cs[1..], t)
  {
    var rest := cs[1..];
    assert forall j :: 0 <= j < |rest| ==> rest[j] == cs[j + 1];
  }

  /** For every known topic: the last word on it decides whether the issuing client is
      subscribed, silence leaves the topic alone, and no other client is ever affected. */
  lemma {:induction false} LastWordDecides(subs: Subscriptions, cid: Cid, cs: seq<Command>, t: Topic)
    requires t in subs
    ensures t in ApplyAll(subs, cid, cs)
    ensures forall i :: LastWord(cs, i, t) ==> (cid in ApplyAll(subs, cid, cs)[t] <==> cs[i].Subscribe?)
    ensures !Mentions(cs, t) ==> ApplyAll(subs, cid, cs)[t] == subs[t]
    ensures forall other :: other != cid ==> (other in ApplyAll(subs, cid, cs)[t] <==> other in subs[t])
  {
    if cs != [] {
      var first := Apply(subs, cid, cs[0]);
      var rest := cs[1..];
      LastWordDecides(first, cid, rest, t);
      MentionsRest(cs, t);
      forall i | LastWord(cs, i, t)
        ensures cid in ApplyAll(subs, cid, cs)[t] <==> cs[i].Subscribe?
      {
        LastWordRest(cs, i, t);
      }
    }
  }

  /** Every command list has a last word on each topic it mentions. */
  lemma {:induction false} LastWordExists(cs: seq<Command>, t: Topic) returns (i: int)
    requires Mentions(cs, t)
    ensures LastWord(cs, i, t)
  {
    i := |cs| - 1;
    while !cs[i].Names(t)
      invariant 0 <= i < |cs|
      invariant forall j :: i < j < |cs| ==> !cs[j].Names(t)
      decreases i
    {
      assert exists k :: 0 <= k < i && cs[k].Names(t);
      i := i - 1;
    }
  }

  lemma {:induction false} ApplyAllAppend(subs: Subscriptions, cid: Cid, a: seq<Command>, b: seq<Command>)
    ensures ApplyAll(subs, cid, a + b) == ApplyAll(ApplyAll(subs, cid, a), cid, b)
  {
    if a == [] {
      assert a + b == b;
    } else {
      ApplyAllAppend(Apply(subs, cid, a[0]), cid, a[1..], b);
      assert (a + b)[1..] == a[1..] + b;
    }
  }

  lemma {:induction false} ComplaintsAppend(topics: set<Topic>, a: seq<Command>, b: seq<Command>)
    ensures Complaints(topics, a + b) == Complaints(topics, a) + Complaints(topics, b)
  {
    if a == [] {
      assert a + b == b;
    } else {
      ComplaintsAppend(topics, a[1..], b);
      assert (a + b)[0] == a[0] && (a + b)[1..] == a[1..] + b;
      var first, later := Complaint(topics, a[0]), Complaints(topics, a[1..]);
      assert first + (later + Complaints(topics, b)) == (first + later) + Complaints(topics, b);
    }
  }

  lemma ComplaintsOfOne(topics: set<Topic>, c: Command)
    ensures Complaints(topics, [c]) == Complaint(topics, c)
  {
    assert Complaints(topics, [c]) == Complaint(topics, c) + Complaints(topics, [c][1..]);
  }

  lemma ComplaintsAround(topics: set<Topic>, before: seq<Command>, c: Command, after: seq<Command>)
    ensures Complaints(topics, before + [c] + after) ==
            Complaints(topics, before) + Complaint(topics, c) + Complaints(topics, after)
  {
    ComplaintsAppend(topics, before + [c], after);
    ComplaintsAppend(topics, before, [c]);
    ComplaintsOfOne(topics, c);
  }

  /** A failing command gets its complaint, right after the complaints of the commands
      before it and before those of the commands after it; other commands get none. */
  lemma ComplaintsInOrder(topics: set<Topic>, cs: seq<Command>, i: nat)
    requires i < |cs|
    ensures Complaints(topics, cs) ==
            Complaints(topics, cs[..i])
            + (if cs[i].Unknown? then [NoSuchAction] else if cs[i].topic !in topics then [NoSuchSubscription] else [])
            + Complaints(topics, cs[i + 1..])
  {
    assert cs == cs[..i] + [cs[i]] + cs[i + 1..];
    ComplaintsAround(topics, cs[..i], cs[i], cs[i + 1..]);
  }

  lemma {:induction false} PrefixCommandsAppend(a: seq<string>, b: seq<string>)
    ensures PrefixCommands(a + b) ==
            PrefixCommands(a) + (if AllParse(a) then PrefixCommands(b) else [])
  {
    if a == [] {
      assert a + b == b;
    } else {
      assert (a + b)[1..] == a[1..] + b;
      if ParseCommand(a[0]).Some? {
        PrefixCommandsAppend(a[1..], b);
        assert AllParse(a) <==> AllParse(a[1..]) by {
          assert a == [a[0]] + a[1..];
        }
      }
    }
  }

  /** Handling `a;b` is handling `a` and then `b`, unless `a` holds a malformed action:
      then `b` is never looked at. */
  lemma HandlingConcatenation(subs: Subscriptions, cid: Cid, a: string, b: string)
    ensures WellFormed(a) ==>
      ApplyAll(subs, cid, Parse(a + ";" + b)) == ApplyAll(ApplyAll(subs, cid, Parse(a)), cid, Parse(b))
    ensures WellFormed(a) ==>
      Complaints(subs.Keys, Parse(a + ";" + b)) == Complaints(subs.Keys, Parse(a)) + Complaints(subs.Keys, Parse(b))
    ensures !WellFormed(a) ==> Parse(a + ";" + b) == Parse(a)
  {
    SplitAtSeparator(a, ';', b);
    assert a + [';'] + b == a + ";" + b;
    PrefixCommandsAppend(Split(a, ';'), Split(b, ';'));
    ApplyAllAppend(subs, cid, Parse(a), Parse(b));
    ComplaintsAppend(subs.Keys, Parse(a), Parse(b));
  }

  // ---------- The grammar of texts ----------

  /** An action is malformed exactly when it does not hold exactly one `@`. Otherwise it is
      one of the two known actions, by its literal word, or an unknown one. */
  lemma ActionGrammar(action: string, name: string, topic: Topic)
    ensures ParseCommand(action).None? <==> Count(action, '@') != 1
    ensures ParseCommand(action) == Some(Subscribe(topic)) <==> '@' !in topic && action == "sub@" + topic
    ensures ParseCommand(action) == Some(Unsubscribe(topic)) <==> '@' !in topic && action == "unsub@" + topic
    ensures ParseCommand(action) == Some(Unknown(name, topic)) <==>
            && '@' !in name && '@' !in topic && name != "sub" && name != "unsub"
            && action == name + "@" + topic
  {
    SplitCount(action, '@');
    var pieces := Split(action, '@');
    if |pieces| == 2 {
      assert pieces == [pieces[0], pieces[1]];
    }
    assert "sub@" == "sub" + ['@'] && "unsub@" == "unsub" + ['@'] && "@" == ['@'];
    SplitInTwo(action, '@', "sub", topic);
    SplitInTwo(action, '@', "unsub", topic);
    SplitInTwo(action, '@', name, topic);
  }

  lemma {:induction false} PrefixCommandsAre(actions: seq<string>)
    ensures var cs := PrefixCommands(actions);
      && |cs| <= |actions|
      && (forall i :: 0 <= i < |cs| ==> ParseCommand(actions[i]) == Some(cs[i]))
      && (|cs| < |actions| ==> ParseCommand(actions[|cs|]).None?)
  {
    if actions != [] && ParseCommand(actions[0]).Some? {
      PrefixCommandsAre(actions[1..]);
    }
  }

  /** A read is handled action by action up to the first malformed one: of a text made of
      actions with semicolons between them, the commands are those of these actions. */
  lemma TextGrammar(actions: seq<string>)
    requires actions != [] && NoneContains(actions, ';')
    ensures var cs := Parse(Join(actions, ';'));
      && |cs| <= |actions|
      && (forall i :: 0 <= i < |cs| ==> ParseCommand(actions[i]) == Some(cs[i]))
      && (|cs| < |actions| ==> Count(actions[|cs|], '@') != 1)
  {
    SplitJoin(actions, ';');
    PrefixCommandsAre(actions);
    var n := |PrefixCommands(actions)|;
    if n < |actions| {
      ActionGrammar(actions[n], "", "");
    }
  }

  lemma SingleCommand(action: string, c: Command)
    requires ';' !in action && ParseCommand(action) == Some(c)
    ensures Parse(action) == [c]
  {
    SplitWithout(action, ';');
    assert [action][1..] == [] && PrefixCommands([action][1..]) == [];
    assert PrefixCommands([action]) == [c] + [];
  }

  /** What the two single-action texts do to the topic they name. */
  lemma SingleActions(subs: Subscriptions, cid: Cid, t: Topic)
    requires t in subs && ';' !in t && '@' !in t
    ensures ApplyAll(subs, cid, Parse("sub@" + t)) == subs[t := subs[t] + {cid}]
    ensures ApplyAll(subs, cid, Parse("unsub@" + t)) == subs[t := subs[t] - {cid}]
    ensures Complaints(subs.Keys, Parse("sub@" + t)) == Complaints(subs.Keys, Parse("unsub@" + t)) == []
  {
    ActionGrammar("sub@" + t, "", t);
    ActionGrammar("unsub@" + t, "", t);
    SingleCommand("sub@" + t, Subscribe(t));
    SingleCommand("unsub@" + t, Unsubscribe(t));
  }
}
