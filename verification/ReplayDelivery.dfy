/** What each session's channel carries: the exact transcript of replies and live data,
    derived from the history alone. */
module ReplayDelivery {
  import opened ReplayEngine
  import opened ReplayTrace

  /** Session `id` subscribes through channel `chan(id)`, which is its own. */
  ghost predicate Channels(h: seq<Event>, chan: Id -> Tx) {
    && (forall k, id :: 0 <= k < |h| && Subscribes(h[k], id) ==> h[k].action.tx == chan(id))
    && (forall a, b :: chan(a) == chan(b) ==> a == b)
  }

  /** What event `k` makes the engine tell session `id`. */
  ghost function Told(h: seq<Event>, k: nat, id: Id): seq<Message>
    requires k < |h|
  {
    match h[k]
    case Act(who, Subscribe(s, _)) => if who == id then [Reply(Recipient(h, k + 1, id, s))] else []
    case Act(who, Unsubscribe(Some(s))) => if who == id && Known(h, k, id) then [Reply(Entry(h, k, s))] else []
    case Act(_, Unsubscribe(None)) => []
    case Data(s, msgType, payload) => if Recipient(h, k, id, s) then [Live(msgType, payload)] else []
  }

  ghost function Transcript(h: seq<Event>, n: nat, id: Id): seq<Message>
    requires n <= |h|
  {
    if n == 0 then [] else Transcript(h, n - 1, id) + Told(h, n - 1, id)
  }

  lemma UserChannel(h: seq<Event>, n: nat, id: Id, chan: Id -> Tx)
    requires n <= |h| && Channels(h, chan) && id in After(h, n).users
    ensures After(h, n).users[id].tx == chan(id)
  {
    UsersAreKnown(h, n, id);
    var j := KnownHasFirst(h, n, id);
    UserIsFirst(h, j, n, id);
  }

  /** In an entry, channel `chan(id)` is reached once if `id` is there and else never. */
  lemma EntryReaches(h: seq<Event>, n: nat, id: Id, s: Symbol, chan: Id -> Tx)
    requires n <= |h| && Channels(h, chan) && s in After(h, n).subs
    ensures Reached(After(h, n).subs[s], chan(id)) == if Recipient(h, n, id, s) then 1 else 0
  {
    var sessions := After(h, n).subs[s];
    forall other | other in sessions
      ensures sessions[other] == chan(other)
    {
      var j := SenderIsAccepted(h, n, other, s);
    }
    RecipientsFollowHistory(h, n, id, s);
    assert Reachers(sessions, chan(id)) == if id in sessions then {id} else {};
  }

  /** The reply to a subscription is truthful: it reports success exactly when the session
      is a recipient of the symbol afterwards, and there is always exactly one. */
  lemma SubscribeReplies(h: seq<Event>, n: nat, chan: Id -> Tx)
    requires n < |h| && Channels(h, chan) && h[n].Act? && h[n].action.Subscribe?
    ensures var (who, s) := (h[n].id, h[n].action.symbol);
      After(h, n + 1).out == Send(After(h, n).out, chan(who), Reply(Recipient(h, n + 1, who, s)))
  {
    var (who, s) := (h[n].id, h[n].action.symbol);
    assert Subscribes(h[n], who);
    RecipientsFollowHistory(h, n + 1, who, s);
    RecipientsFollowHistory(h, n, who, s);
    if Recipient(h, n, who, s) {
      RecipientHolds(h, n, who, s);
    }
    HoldsIsUserIndex(h, n, who, s);
    UserChannel(h, n + 1, who, chan);
  }

  lemma UnsubscribeReplies(h: seq<Event>, n: nat, chan: Id -> Tx)
    requires n < |h| && Channels(h, chan) && h[n].Act? && h[n].action.Unsubscribe?
    ensures After(h, n + 1).out ==
            match h[n].action.which
            case None => After(h, n).out
            case Some(s) =>
              if Known(h, n, h[n].id) then Send(After(h, n).out, chan(h[n].id), Reply(Entry(h, n, s)))
              else After(h, n).out
  {
    var who := h[n].id;
    UsersAreKnown(h, n, who);
    if who in After(h, n).users {
      UserChannel(h, n, who, chan);
    }
    if h[n].action.which.Some? {
      RecipientsFollowHistory(h, n, who, h[n].action.which.value);
    }
  }

  /** One event adds to each session's channel what the session is to be told. */
  lemma QueueNext(h: seq<Event>, n: nat, id: Id, chan: Id -> Tx)
    requires n < |h| && Channels(h, chan)
    ensures Queue(After(h, n + 1).out, chan(id)) == Queue(After(h, n).out, chan(id)) + Told(h, n, id)
  {
    match h[n] {
      case Act(who, Subscribe(s, _)) => SubscribeReplies(h, n, chan);
      case Act(who, Unsubscribe(which)) => UnsubscribeReplies(h, n, chan);
      case Data(s, msgType, payload) =>
        var e := After(h, n);
        RecipientsFollowHistory(h, n, id, s);
        if s in e.subs {
          EntryReaches(h, n, id, s, chan);
          BroadcastQueue(e.out, e.subs[s], Live(msgType, payload), chan(id));
          assert Repeat(Live(msgType, payload), 1) == [Live(msgType, payload)];
        }
    }
  }

  /** For every history, every session's channel carries exactly its transcript. */
  lemma {:induction false} ChannelsCarryTranscripts(h: seq<Event>, n: nat, id: Id, chan: Id -> Tx)
    requires n <= |h| && Channels(h, chan)
    ensures Queue(After(h, n).out, chan(id)) == Transcript(h, n, id)
  {
    if n > 0 {
      ChannelsCarryTranscripts(h, n - 1, id, chan);
      QueueNext(h, n - 1, id, chan);
    }
  }

  function Lives(q: seq<Message>): seq<Message> {
    if q == [] then []
    else Lives(q[..|q| - 1]) + if q[|q| - 1].Live? then [q[|q| - 1]] else []
  }

  /** The live message of event `k`, if it is data that finds `id` among the recipients. */
  ghost function Fed(h: seq<Event>, k: nat, id: Id): seq<Message>
    requires k < |h|
  {
    match h[k]
    case Data(s, msgType, payload) => if Recipient(h, k, id, s) then [Live(msgType, payload)] else []
    case Act(_, _) => []
  }

  /** The data events that find `id` among the recipients of their symbol, in order. */
  ghost function Delivered(h: seq<Event>, n: nat, id: Id): seq<Message>
    requires n <= |h|
  {
    if n == 0 then [] else Delivered(h, n - 1, id) + Fed(h, n - 1, id)
  }

  lemma LivesStep(q: seq<Message>, told: seq<Message>, delivered: seq<Message>, fed: seq<Message>,
                  q': seq<Message>, delivered': seq<Message>)
    requires |told| <= 1 && fed == if told != [] && told[0].Live? then told else []
    requires q' == q + told && delivered' == delivered + fed
    requires Lives(q) == delivered
    ensures Lives(q') == delivered'
  {
    if told == [] {
      assert q + told == q && delivered + fed == delivered;
    } else {
      assert (q + told)[..|q|] == q && told == [told[0]];
    }
  }

  lemma ToldLive(h: seq<Event>, k: nat, id: Id)
    requires k < |h|
    ensures |Told(h, k, id)| <= 1
    ensures Fed(h, k, id) == if Told(h, k, id) != [] && Told(h, k, id)[0].Live? then Told(h, k, id) else []
  {
  }

  lemma {:induction false} TranscriptLives(h: seq<Event>, n: nat, id: Id)
    requires n <= |h|
    ensures Lives(Transcript(h, n, id)) == Delivered(h, n, id)
  {
    if n > 0 {
      var k := n - 1;
      TranscriptLives(h, k, id);
      ToldLive(h, k, id);
      LivesStep(Transcript(h, k, id), Told(h, k, id), Delivered(h, k, id), Fed(h, k, id),
                Transcript(h, n, id), Delivered(h, n, id));
    }
  }

  /** Conservation and order of live data: a session gets each data event for a symbol it
      receives exactly once, in order of arrival, and no other. */
  lemma LiveDataIsConserved(h: seq<Event>, n: nat, id: Id, chan: Id -> Tx)
    requires n <= |h| && Channels(h, chan)
    ensures Lives(Queue(After(h, n).out, chan(id))) == Delivered(h, n, id)
  {
    ChannelsCarryTranscripts(h, n, id, chan);
    TranscriptLives(h, n, id);
  }

  /** The data event that creates an entry reaches nobody. */
  lemma EntryCreationReachesNobody(h: seq<Event>, n: nat, id: Id)
    requires n < |h| && h[n].Data? && !Entry(h, n, h[n].symbol)
    ensures After(h, n + 1).out == After(h, n).out
    ensures Delivered(h, n + 1, id) == Delivered(h, n, id)
  {
    RecipientsFollowHistory(h, n, id, h[n].symbol);
  }
}
