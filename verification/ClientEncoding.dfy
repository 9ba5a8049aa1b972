/** The client's side of the command protocol: one buffer that subscribes to a list of
    topics, and what the publisher makes of it. */
module ClientEncoding {
  import opened Basics
  import opened Text
  import opened PublisherTypes
  import opened Commands

  function SubscribeActions(topics: seq<Topic>): (actions: seq<string>)
    ensures |actions| == |topics|
    ensures forall i :: 0 <= i < |topics| ==> actions[i] == "sub@" + topics[i]
  {
    seq(|topics|, i requires 0 <= i < |topics| => "sub@" + topics[i])
  }

  ghost function SubscribeCommands(topics: seq<Topic>): (cs: seq<Command>)
    ensures |cs| == |topics|
    ensures forall i :: 0 <= i < |topics| ==> cs[i] == Subscribe(topics[i])
  {
    seq(|topics|, i requires 0 <= i < |topics| => Subscribe(topics[i]))
  }

  lemma {:induction false} JoinSnoc(parts: seq<string>, last: string, sep: char)
    requires parts != []
    ensures Join(parts + [last], sep) == Join(parts, sep) + [sep] + last
  {
    if |parts| > 1 {
      JoinSnoc(parts[1..], last, sep);
      assert (parts + [last])[1..] == parts[1..] + [last];
    } else {
      assert (parts + [last])[1..] == [last];
    }
  }

  /** Fills the request buffer and cuts its last byte. With an empty list there is no last
      byte to cut and the client panics, which is reported here as `None`. */
  method EncodeSubscribeList(topics: seq<Topic>) returns (buffer: Option<string>)
    ensures buffer.None? <==> topics == []
    ensures buffer.Some? ==> buffer.value == Join(SubscribeActions(topics), ';')
  {
    var data := "";
    for i := 0 to |topics|
      invariant i == 0 ==> data == ""
      invariant i > 0 ==> data == Join(SubscribeActions(topics)[..i], ';') + ";"
    {
      ghost var actions := SubscribeActions(topics);
      assert actions[..i + 1] == actions[..i] + [actions[i]];
      if i > 0 {
        JoinSnoc(actions[..i], actions[i], ';');
      } else {
        assert actions[..1] == [actions[0]];
      }
      data := data + "sub@" + topics[i] + ";";
    }
    assert SubscribeActions(topics)[..|topics|] == SubscribeActions(topics);
    if data == "" { return None; }
    return Some(data[..|data| - 1]);
  }

  ghost predicate CleanTopic(t: Topic) {
    ';' !in t && '@' !in t
  }

  ghost predicate Clean(topics: seq<Topic>) {
    forall i :: 0 <= i < |topics| ==> CleanTopic(topics[i])
  }

  lemma SubscribeActionParses(t: Topic)
    requires CleanTopic(t)
    ensures ParseCommand("sub@" + t) == Some(Subscribe(t))
    ensures ';' !in "sub@" + t
  {
    assert "sub@" + t == "sub" + ['@'] + t;
    SplitAtSeparator("sub", '@', t);
    SplitWithout("sub", '@');
    SplitWithout(t, '@');
  }

  lemma {:induction false} SubscribeActionsParse(topics: seq<Topic>)
    requires Clean(topics)
    ensures PrefixCommands(SubscribeActions(topics)) == SubscribeCommands(topics)
  {
    if topics != [] {
      SubscribeActionsParse(topics[1..]);
      SubscribeActionParses(topics[0]);
      assert SubscribeActions(topics)[1..] == SubscribeActions(topics[1..]);
      assert SubscribeCommands(topics) == [Subscribe(topics[0])] + SubscribeCommands(topics[1..]);
    }
  }

  /** A parsed command never carries a separator in its topic. */
  lemma {:induction false} ParsedTopicsAreClean(actions: seq<string>)
    requires NoneContains(actions, ';')
    ensures forall i :: 0 <= i < |PrefixCommands(actions)| ==> CleanTopic(PrefixCommands(actions)[i].topic)
  {
    if actions != [] && ParseCommand(actions[0]).Some? {
      ParsedTopicsAreClean(actions[1..]);
      SplitPiecesAreClean(actions[0], '@');
      assert NoneContains(Split(actions[0], '@'), '@');
      assert '@' !in Split(actions[0], '@')[1];
      var cs := PrefixCommands(actions);
      assert CleanTopic(cs[0].topic);
      assert cs[1..] == PrefixCommands(actions[1..]);
      forall i | 0 <= i < |cs| ensures CleanTopic(cs[i].topic) {
        assert i > 0 ==> cs[i] == cs[1..][i - 1];
      }
    }
  }

  /** The publisher reads the client's buffer back as one subscribe command per listed
      topic, in order, exactly when no topic contains a separator. */
  lemma EncodedListParses(topics: seq<Topic>)
    requires topics != []
    ensures Parse(Join(SubscribeActions(topics), ';')) == SubscribeCommands(topics) <==> Clean(topics)
  {
    var actions := SubscribeActions(topics);
    var text := Join(actions, ';');
    if Clean(topics) {
      forall i | 0 <= i < |topics| ensures ';' !in actions[i] {
        SubscribeActionParses(topics[i]);
      }
      SplitJoin(actions, ';');
      SubscribeActionsParse(topics);
    }
    if Parse(text) == SubscribeCommands(topics) {
      ParsedListIsClean(topics, text);
    }
  }

  lemma ParsedListIsClean(topics: seq<Topic>, text: string)
    requires Parse(text) == SubscribeCommands(topics)
    ensures Clean(topics)
  {
    SplitPiecesAreClean(text, ';');
    ParsedTopicsAreClean(Split(text, ';'));
    forall i | 0 <= i < |topics| ensures CleanTopic(topics[i]) {
      assert Parse(text)[i].topic == topics[i];
    }
  }

  /** Subscribe commands put the client into the named topics it can name, and that is all. */
  lemma SubscribeCommandsEffect(topics: seq<Topic>, subs: Subscriptions, cid: Cid, t: Topic)
    requires t in subs
    ensures var after := ApplyAll(subs, cid, SubscribeCommands(topics));
            t in after && after[t] == if t in topics then subs[t] + {cid} else subs[t]
  {
    var cs := SubscribeCommands(topics);
    LastWordDecides(subs, cid, cs, t);
    if t in topics {
      var k :| 0 <= k < |topics| && topics[k] == t;
      assert cs[k].Names(t);
      var i := LastWordExists(cs, t);
      assert LastWord(cs, i, t) && cs[i].Subscribe?;
    } else {
      assert !Mentions(cs, t);
    }
  }

  /** The number of listed topics that nobody publishes, repetitions counted. */
  function Unknowns(known: set<Topic>, topics: seq<Topic>): nat {
    if topics == [] then 0
    else (if topics[0] in known then 0 else 1) + Unknowns(known, topics[1..])
  }

  lemma {:induction false} ComplaintsOfSubscribes(known: set<Topic>, topics: seq<Topic>)
    ensures Complaints(known, SubscribeCommands(topics)) == seq(Unknowns(known, topics), _ => NoSuchSubscription)
  {
    if topics != [] {
      ComplaintsOfSubscribes(known, topics[1..]);
      assert SubscribeCommands(topics)[1..] == SubscribeCommands(topics[1..]);
    }
  }

  /** After the publisher has handled the buffer in one read, the client is in exactly its
      old topics and the known listed ones, nobody else moved, and each unknown listed topic
      drew one complaint. */
  lemma EncodedListSubscribes(topics: seq<Topic>, subs: Subscriptions, cid: Cid, text: string)
    requires topics != [] && Clean(topics) && text == Join(SubscribeActions(topics), ';')
    ensures ApplyAll(subs, cid, Parse(text)) ==
            map t | t in subs :: if t in topics then subs[t] + {cid} else subs[t]
    ensures Complaints(subs.Keys, Parse(text)) == seq(Unknowns(subs.Keys, topics), _ => NoSuchSubscription)
  {
    EncodedListParses(topics);
    TopicsAreFixed(subs, cid, SubscribeCommands(topics));
    forall t | t in subs
      ensures ApplyAll(subs, cid, SubscribeCommands(topics))[t] == if t in topics then subs[t] + {cid} else subs[t]
    {
      SubscribeCommandsEffect(topics, subs, cid, t);
    }
    ComplaintsOfSubscribes(subs.Keys, topics);
  }
}
