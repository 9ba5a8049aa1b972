/** The publisher's two shared maps and the critical sections that read or change them,
    each as it runs while its locks are held. */
module PublisherState {
  import opened Basics
  import opened PublisherTypes
  import opened Text
  import opened Commands
  import opened RetryToken

  /** What the publisher can see of a QUIC connection, and the payloads offered to it. */
  datatype Client = Client(closed: bool, established: bool, offers: seq<Bytes>)

  type Clients = map<Cid, Client>

  const NEW_CLIENT := Client(false, false, [])

  /** Every subscribed connection id is a key of the client list. */
  ghost predicate Consistent(clients: Clients, subs: Subscriptions) {
    forall t, c :: t in subs && c in subs[t] ==> c in clients
  }

  // ---------- Packet admission ----------

  datatype Packet = Packet(dcid: Cid, from: Address, initial: bool, supported: bool, token: Bytes)

  datatype Admission =
    | Dropped
    | Negotiate
    | Retry(token: Bytes, scid: Cid)
    | Known(cid: Cid)
    | Opened(cid: Cid, odcid: Cid)

  /** The fate of a packet; `connId` is the connection id derived from its dcid. */
  function Admit(clients: Clients, p: Packet, connId: Cid): Admission {
    if p.dcid in clients then Known(p.dcid)
    else if connId in clients then Known(connId)
    else if !p.initial then Dropped
    else if !p.supported then Negotiate
    else if p.token == [] then Retry(Minted(p.dcid, p.from), connId)
    else
      match ValidateToken(p.from, p.token)
      case None => Dropped
      case Some(odcid) => if |connId| != |p.dcid| then Dropped else Opened(p.dcid, odcid)
  }

  function AfterAdmission(clients: Clients, a: Admission): Clients {
    if a.Opened? then clients[a.cid := NEW_CLIENT] else clients
  }

  /** A connection is opened for exactly the supported Initial packets of unknown ids that
      bring a token minted for their own address, with a dcid as long as a derived id. */
  lemma OpenedNeedsOwnToken(clients: Clients, p: Packet, connId: Cid, odcid: Cid)
    ensures Admit(clients, p, connId) == Opened(p.dcid, odcid) <==>
            && p.dcid !in clients && connId !in clients
            && p.initial && p.supported && |p.dcid| == |connId|
            && p.token == Minted(odcid, p.from)
  {
    ValidIffMinted(p.from, p.token, odcid);
  }

  ghost predicate Unlisted(clients: Clients, p: Packet, connId: Cid) {
    p.dcid !in clients && connId !in clients
  }

  /** A packet belongs to the client listed under its dcid, or else under the derived id. */
  lemma KnownIsListed(clients: Clients, p: Packet, connId: Cid, c: Cid)
    ensures Admit(clients, p, connId) == Known(c) <==>
            || (c == p.dcid && c in clients)
            || (p.dcid !in clients && c == connId && c in clients)
    ensures Admit(clients, p, connId).Known? <==> !Unlisted(clients, p, connId)
  {
  }

  /** Admission changes the list only by opening, and an opened client starts out neither
      closed nor established, and with nothing offered to it. */
  lemma AdmissionOpens(clients: Clients, p: Packet, connId: Cid)
    ensures var a, after := Admit(clients, p, connId), AfterAdmission(clients, Admit(clients, p, connId));
      && (!a.Opened? ==> after == clients)
      && (a.Opened? ==> a.cid == p.dcid && a.cid !in clients && after.Keys == clients.Keys + {a.cid})
      && (a.Opened? ==> !after[a.cid].closed && !after[a.cid].established && after[a.cid].offers == [])
      && (a.Opened? ==> forall c :: c in clients ==> after[c] == clients[c])
  {
  }

  /** A Retry answers exactly the first contact of an unlisted client, with the token of
      the packet's dcid and address and with the derived id; version negotiation answers
      exactly the unsupported Initial packets of unlisted clients. */
  lemma RetryIsFirstContact(clients: Clients, p: Packet, connId: Cid, token: Bytes, scid: Cid)
    ensures Admit(clients, p, connId) == Retry(token, scid) <==>
            && Unlisted(clients, p, connId) && p.initial && p.supported && p.token == []
            && token == Minted(p.dcid, p.from) && scid == connId
    ensures Admit(clients, p, connId) == Negotiate <==>
            Unlisted(clients, p, connId) && p.initial && !p.supported
  {
  }

  /** Dropped are exactly the unlisted packets that are not Initial, or bring a token that
      was not minted for their address, or a dcid of the wrong length. */
  lemma DroppedHasReason(clients: Clients, p: Packet, connId: Cid)
    ensures Admit(clients, p, connId) == Dropped <==>
            && Unlisted(clients, p, connId)
            && (!p.initial
                || (p.supported && p.token != []
                    && (|p.dcid| != |connId| || !exists odcid :: p.token == Minted(odcid, p.from))))
  {
    var odcid := ValidateToken(p.from, p.token);
    if odcid.Some? {
      ValidIffMinted(p.from, p.token, odcid.value);
    } else {
      forall other ensures p.token != Minted(other, p.from) {
        ValidIffMinted(p.from, p.token, other);
      }
    }
  }

  /** Address validation completes: the answer to a first packet is a Retry, and a second
      packet from the same octets that adopts the Retry's connection id and token opens a
      connection that remembers the dcid of the first. */
  lemma RetryHandshake(clients: Clients, later: Clients, first: Packet, second: Packet, connId: Cid, connId2: Cid)
    requires first.initial && first.supported && first.token == []
    requires first.dcid !in clients && connId !in clients
    requires second.initial && second.supported && second.from.Octets() == first.from.Octets()
    requires second.token == Minted(first.dcid, first.from) && second.dcid == connId
    requires second.dcid !in later && connId2 !in later && |connId| == |connId2|
    ensures Admit(clients, first, connId) == Retry(second.token, second.dcid)
    ensures Admit(later, second, connId2) == Opened(connId, first.dcid)
    ensures connId in AfterAdmission(later, Admit(later, second, connId2))
  {
    ForeignToken(first.dcid, first.from, second.from);
  }

  // ---------- Collection of closed connections ----------

  function ClosedIn(clients: Clients, visited: set<Cid>): set<Cid> {
    set c | c in clients && c in visited && clients[c].closed
  }

  function Kept(clients: Clients, visited: set<Cid>): Clients {
    map c | c in clients && !(c in visited && clients[c].closed) :: clients[c]
  }

  function Purged(subs: Subscriptions, gone: set<Cid>): Subscriptions {
    map t | t in subs :: subs[t] - gone
  }

  /** Collection keeps the two maps consistent although it prunes them one after the other. */
  lemma CollectionKeepsConsistent(clients: Clients, subs: Subscriptions, visited: set<Cid>)
    requires Consistent(clients, subs)
    ensures Consistent(Kept(clients, visited), Purged(subs, ClosedIn(clients, visited)))
  {
    var kept, purged := Kept(clients, visited), Purged(subs, ClosedIn(clients, visited));
    forall t, c | t in purged && c in purged[t] ensures c in kept {
      assert c in subs[t] && c !in ClosedIn(clients, visited);
    }
  }

  /** A complete collection leaves no trace of a closed client and drops no other: what is
      left in any topic is exactly its open subscribers. */
  lemma CollectionLeavesTheOpen(clients: Clients, subs: Subscriptions, t: Topic, cid: Cid)
    requires Consistent(clients, subs) && t in subs
    ensures var kept, purged := Kept(clients, clients.Keys), Purged(subs, ClosedIn(clients, clients.Keys));
      && (cid in kept <==> cid in clients && !clients[cid].closed)
      && t in purged && (cid in purged[t] <==> cid in subs[t] && cid in kept)
  {
  }

  /** A registered client's commands keep the maps consistent. */
  lemma {:induction false} CommandsKeepConsistent(clients: Clients, subs: Subscriptions, cid: Cid, cs: seq<Command>)
    ensures Consistent(clients, subs) && cid in clients ==> Consistent(clients, ApplyAll(subs, cid, cs))
  {
    if cs != [] {
      CommandsKeepConsistent(clients, Apply(subs, cid, cs[0]), cid, cs[1..]);
    }
  }

  lemma KeptAgain(clients: Clients, visited: set<Cid>, cid: Cid)
    requires cid in clients && cid !in visited
    ensures cid in Kept(clients, visited) && Kept(clients, visited)[cid] == clients[cid]
    ensures !clients[cid].closed ==> Kept(clients, visited + {cid}) == Kept(clients, visited)
    ensures !clients[cid].closed ==> ClosedIn(clients, visited + {cid}) == ClosedIn(clients, visited)
    ensures clients[cid].closed ==> Kept(clients, visited + {cid}) == Kept(clients, visited) - {cid}
    ensures clients[cid].closed ==> ClosedIn(clients, visited + {cid}) == ClosedIn(clients, visited) + {cid}
  {
  }

  lemma PurgedNone(subs: Subscriptions)
    ensures Purged(subs, {}) == subs
  {
    assert forall t :: t in subs ==> Purged(subs, {})[t] == subs[t] - {} == subs[t];
  }

  lemma PurgedAgain(subs: Subscriptions, gone: set<Cid>, more: set<Cid>)
    ensures Purged(Purged(subs, gone), more) == Purged(subs, gone + more)
  {
    assert forall t :: t in subs ==> subs[t] - gone - more == subs[t] - (gone + more);
  }

  // ---------- Distribution ----------

  /** One payload offered to the established clients among `receivers`; sending to those
      in `failing` breaks, which closes them. */
  function Offered(clients: Clients, receivers: set<Cid>, data: Bytes, failing: set<Cid>): Clients {
    map c | c in clients ::
      if c in receivers && clients[c].established then OfferedOne(clients[c], data, c in failing) else clients[c]
  }

  function OfferedOne(c: Client, data: Bytes, fails: bool): Client {
    c.(offers := c.offers + [data], closed := c.closed || fails)
  }

  class Publisher {
    var clients: Clients
    var subs: Subscriptions

    constructor ()
      ensures clients == map[] && subs == map[]
    {
      clients, subs := map[], map[];
    }

    /** Lookup or insertion of the connection a packet belongs to. */
    method AdmitPacket(p: Packet, connId: Cid) returns (a: Admission)
      modifies this`clients
      ensures a == Admit(old(clients), p, connId)
      ensures clients == AfterAdmission(old(clients), a)
      ensures a.Known? || a.Opened? ==> a.cid in clients
      ensures old(Consistent(clients, subs)) ==> Consistent(clients, subs)
    {
      if p.dcid !in clients && connId !in clients {
        if !p.initial { return Dropped; }
        if !p.supported { return Negotiate; }
        if p.token == [] {
          var token := MintToken(p.dcid, p.from);
          return Retry(token, connId);
        }
        var odcid := ValidateToken(p.from, p.token);
        if odcid.None? { return Dropped; }
        if |connId| != |p.dcid| { return Dropped; }
        clients := clients[p.dcid := NEW_CLIENT];
        return Opened(p.dcid, odcid.value);
      }
      return Known(if p.dcid in clients then p.dcid else connId);
    }

    /** Runs the commands of one read; `buf` is `None` when the bytes are not UTF-8. */
    method HandleSub(cid: Cid, buf: Option<string>) returns (errors: seq<Error>)
      modifies this`subs
      ensures buf.None? ==> subs == old(subs) && errors == []
      ensures buf.Some? ==> subs == ApplyAll(old(subs), cid, Parse(buf.value))
      ensures buf.Some? ==> errors == Complaints(old(subs).Keys, Parse(buf.value))
      ensures old(Consistent(clients, subs)) && cid in clients ==> Consistent(clients, subs)
    {
      errors := [];
      if buf.None? { return; }
      var actions := Split(buf.value, ';');
      ghost var all := PrefixCommands(actions);
      var i := 0;
      assert actions[0..] == actions;
      while i < |actions|
        invariant 0 <= i <= |actions|
        invariant subs.Keys == old(subs).Keys
        invariant ApplyAll(subs, cid, PrefixCommands(actions[i..])) == ApplyAll(old(subs), cid, all)
        invariant errors + Complaints(subs.Keys, PrefixCommands(actions[i..])) == Complaints(old(subs).Keys, all)
      {
        var pieces := Split(actions[i], '@');
        ActionStep(subs, cid, actions, i, errors);
        if |pieces| != 2 { break; }
        var error := RunCommand(cid, pieces[0], pieces[1]);
        errors := errors + error;
        i := i + 1;
      }
      CommandsKeepConsistent(clients, old(subs), cid, all);
    }

    /** Runs one command and reports its error, if any. */
    method RunCommand(cid: Cid, name: string, topic: string) returns (error: seq<Error>)
      modifies this`subs
      ensures subs == Apply(old(subs), cid, CommandOf(name, topic))
      ensures error == Complaint(old(subs).Keys, CommandOf(name, topic))
    {
      error := [];
      if name == "sub" {
        if topic in subs {
          subs := subs[topic := subs[topic] + {cid}];
        } else {
          error := [NoSuchSubscription];
        }
      } else if name == "unsub" {
        if topic in subs {
          subs := subs[topic := subs[topic] - {cid}];
        } else {
          error := [NoSuchSubscription];
        }
      } else {
        error := [NoSuchAction];
      }
    }

    /** Unsubscribes each closed client from every topic, then drops it. */
    method CollectClosed()
      modifies this
      ensures clients == Kept(old(clients), old(clients).Keys)
      ensures subs == Purged(old(subs), ClosedIn(old(clients), old(clients).Keys))
      ensures old(Consistent(clients, subs)) ==> Consistent(clients, subs)
    {
      var todo := clients.Keys;
      ghost var clients0, subs0 := clients, subs;
      PurgedNone(subs0);
      assert ClosedIn(clients0, clients0.Keys - todo) == {};
      while todo != {}
        invariant todo <= clients0.Keys
        invariant clients == Kept(clients0, clients0.Keys - todo)
        invariant subs == Purged(subs0, ClosedIn(clients0, clients0.Keys - todo))
      {
        var cid :| cid in todo;
        ghost var visited := clients0.Keys - todo;
        KeptAgain(clients0, visited, cid);
        PurgedAgain(subs0, ClosedIn(clients0, visited), {cid});
        if clients[cid].closed {
          Unsubscribe(cid);
          clients := clients - {cid};
        }
        todo := todo - {cid};
        assert clients0.Keys - todo == visited + {cid};
      }
      assert clients0.Keys - todo == clients0.Keys;
      if Consistent(clients0, subs0) {
        CollectionKeepsConsistent(clients0, subs0, clients0.Keys);
      }
    }

    method Unsubscribe(cid: Cid)
      modifies this`subs
      ensures subs == Purged(old(subs), {cid})
    {
      var topics := subs.Keys;
      while topics != {}
        invariant topics <= old(subs).Keys
        invariant subs.Keys == old(subs).Keys
        invariant forall t :: t in subs ==> subs[t] == if t in topics then old(subs)[t] else old(subs)[t] - {cid}
      {
        var t :| t in topics;
        subs := subs[t := subs[t] - {cid}];
        topics := topics - {t};
      }
    }

    /** Sets up a topic for each channel, forgetting whoever was subscribed to it. */
    method AddTopics(ipcs: seq<Topic>)
      modifies this`subs
      ensures subs.Keys == old(subs).Keys + set t | t in ipcs
      ensures forall t :: t in subs ==> subs[t] == if t in ipcs then {} else old(subs)[t]
      ensures old(Consistent(clients, subs)) ==> Consistent(clients, subs)
    {
      for i := 0 to |ipcs|
        invariant subs.Keys == old(subs).Keys + set t | t in ipcs[..i]
        invariant forall t :: t in subs ==> subs[t] == if t in ipcs[..i] then {} else old(subs)[t]
      {
        subs := subs[ipcs[i] := {}];
        assert ipcs[..i + 1] == ipcs[..i] + [ipcs[i]];
      }
      assert ipcs[..|ipcs|] == ipcs;
    }

    /** Offers one message to the subscribers of a topic; the lookup of each of them
        relies on consistency. */
    method Distribute(topic: Topic, data: Bytes, failing: set<Cid>)
      requires Consistent(clients, subs)
      modifies this`clients
      ensures clients == if topic in subs then Offered(old(clients), subs[topic], data, failing) else old(clients)
      ensures forall c :: c in old(clients) ==>
        (var receives := topic in subs && c in subs[topic] && old(clients)[c].established;
         && c in clients && clients[c].offers == old(clients)[c].offers + (if receives then [data] else [])
         && clients[c].closed == (old(clients)[c].closed || (receives && c in failing))
         && clients[c].established == old(clients)[c].established)
      ensures Consistent(clients, subs)
    {
      if topic !in subs { return; }
      var todo := subs[topic];
      while todo != {}
        invariant todo <= subs[topic]
        invariant clients == Offered(old(clients), subs[topic] - todo, data, failing)
      {
        var cid :| cid in todo;
        var client := clients[cid];
        if client.established {
          clients := clients[cid := OfferedOne(client, data, cid in failing)];
        }
        todo := todo - {cid};
      }
      assert subs[topic] - todo == subs[topic];
    }
  }

  /** One action's share in handling what is left of a request. */
  lemma ActionStep(subs: Subscriptions, cid: Cid, actions: seq<string>, i: nat, errors: seq<Error>)
    requires i < |actions|
    ensures var pieces, rest := Split(actions[i], '@'), PrefixCommands(actions[i + 1..]);
      if |pieces| != 2 then PrefixCommands(actions[i..]) == []
      else
        var c := CommandOf(pieces[0], pieces[1]);
        && Apply(subs, cid, c).Keys == subs.Keys
        && ApplyAll(Apply(subs, cid, c), cid, rest) == ApplyAll(subs, cid, PrefixCommands(actions[i..]))
        && errors + Complaint(subs.Keys, c) + Complaints(subs.Keys, rest)
           == errors + Complaints(subs.Keys, PrefixCommands(actions[i..]))
  {
    var pieces, rest := Split(actions[i], '@'), PrefixCommands(actions[i + 1..]);
    assert actions[i..][0] == actions[i] && actions[i..][1..] == actions[i + 1..];
    if |pieces| == 2 {
      var c := CommandOf(pieces[0], pieces[1]);
      assert ([c] + rest)[1..] == rest;
      assert errors + (Complaint(subs.Keys, c) + Complaints(subs.Keys, rest))
          == errors + Complaint(subs.Keys, c) + Complaints(subs.Keys, rest);
    }
  }
}
