/** The life of a client in the list: it is opened by a packet with its own token, answers to
    its connection id from then on, and leaves only through the alive check once closed. */
module PublisherClients {
  import opened Basics
  import opened PublisherTypes
  import opened PublisherState
  import opened PublisherThreads

  /** The alive check drops `c`. */
  predicate Collects(s: State, a: Action, c: Cid) {
    a.Advance? && a.t in s.threads && s.threads[a.t].AliveDrop? && s.threads[a.t].cid == c
  }

  /** No step of the run drops `c`. */
  ghost predicate Uncollected(s: State, actions: seq<Action>, c: Cid)
    decreases actions
  {
    actions == [] ||
    (!Collects(s, actions[0], c) && Next(s, actions[0]).Some? && Uncollected(Next(s, actions[0]).value, actions[1..], c))
  }

  /** A client leaves the list only by being dropped, and only a closed one is. */
  lemma OnlyTheClosedLeave(s: State, a: Action, c: Cid)
    requires Inv(s) && Next(s, a).Some? && c in s.clients
    ensures c !in Next(s, a).value.clients ==> Collects(s, a, c) && s.clients[c].closed
  {
    assert Local(s.clients, s.subs, s.threads[a.t]);
  }

  lemma {:induction false} UncollectedStays(s: State, actions: seq<Action>, c: Cid)
    requires Inv(s) && c in s.clients && Uncollected(s, actions, c)
    ensures Run(s, actions).Some? && c in Run(s, actions).value.clients
    decreases actions
  {
    if actions != [] {
      OnlyTheClosedLeave(s, actions[0], c);
      NextKeepsInv(s, actions[0]);
      UncollectedStays(Next(s, actions[0]).value, actions[1..], c);
    }
  }

  /** What a packet does to the thread that receives it: it goes on with the client that the
      packet belongs to, or with none. */
  lemma ArrivalServes(s: State, t: Tid, p: Packet, connId: Cid, c: Cid)
    requires t in s.threads
    ensures Next(s, Arrive(t, p, connId)).Some? <==> s.threads[t].ConnHasList?
    ensures s.threads[t].ConnHasList? ==>
      var s' := Next(s, Arrive(t, p, connId)).value;
      && s'.subs == s.subs && s'.clients == AfterAdmission(s.clients, Admit(s.clients, p, connId))
      && (s'.threads[t] == ConnClient(c) <==>
            Admit(s.clients, p, connId) == Known(c)
            || (Admit(s.clients, p, connId).Opened? && Admit(s.clients, p, connId).cid == c))
      && (s'.threads[t].ConnClient? || s'.threads[t].ConnIdle?)
  {
  }

  /** Once a packet has opened a connection, every later packet with that connection id is
      served by it, whatever happens in between, until the alive check drops it. */
  lemma OpenedStaysKnown(s: State, t: Tid, p: Packet, connId: Cid, odcid: Cid, actions: seq<Action>,
                         later: State, u: Tid, q: Packet, connId2: Cid)
    requires Reachable(s) && Next(s, Arrive(t, p, connId)).Some?
    requires Admit(s.clients, p, connId) == Opened(p.dcid, odcid)
    requires Uncollected(Next(s, Arrive(t, p, connId)).value, actions, p.dcid)
    requires Run(Next(s, Arrive(t, p, connId)).value, actions) == Some(later)
    requires u in later.threads && later.threads[u].ConnHasList? && q.dcid == p.dcid
    ensures Admit(later.clients, q, connId2) == Known(p.dcid)
    ensures var end := Next(later, Arrive(u, q, connId2));
            end.Some? && end.value.threads[u] == ConnClient(p.dcid) && end.value.clients == later.clients
  {
    ReachableInv(s);
    NextKeepsInv(s, Arrive(t, p, connId));
    UncollectedStays(Next(s, Arrive(t, p, connId)).value, actions, p.dcid);
    KnownIsListed(later.clients, q, connId2, p.dcid);
    ArrivalServes(later, u, q, connId2, p.dcid);
  }

  /** While a connection loop is busy with a client, it may find it in any state; that is
      all it changes, and bytes that are not text change nothing. */
  lemma ConnectionFinds(s: State, t: Tid, c: Cid, closed: bool, established: bool)
    requires Inv(s) && t in s.threads && s.threads[t] == ConnClient(c)
    ensures c in s.clients && Next(s, Read(t, None)) == Some(s)
    ensures Next(s, Receive(t, closed, established)) ==
            Some(s.(clients := s.clients[c := Client(closed, established, s.clients[c].offers)]))
  {
    assert Local(s.clients, s.subs, s.threads[t]);
    assert s.listOwner == Some(t) && s.subOwner != Some(t);
    assert s.threads[t := ConnClient(c)] == s.threads;
    assert Put(s, t, ConnClient(c), s.clients, s.subs) == s;
  }

  /** Done with its client, the loop gives the list back and closes at most this client. */
  lemma ConnectionGivesBack(s: State, t: Tid, c: Cid, closed: bool)
    requires Inv(s) && t in s.threads && s.threads[t] == ConnClient(c)
    ensures c in s.clients
    ensures Next(s, Finish(t, closed)) ==
            Some(s.(threads := s.threads[t := ConnIdle], listOwner := None,
                    clients := s.clients[c := s.clients[c].(closed := s.clients[c].closed || closed)]))
  {
    assert Local(s.clients, s.subs, s.threads[t]);
    assert s.listOwner == Some(t) && s.subOwner != Some(t);
  }
}
