/** From input to effect: the text of a read and the payload of a message are what the
    critical section they lead to works on, however long the thread waits for its locks. */
module PublisherJobs {
  import opened Basics
  import opened PublisherTypes
  import opened Commands
  import opened PublisherState
  import opened PublisherThreads
  import opened PublisherSections

  /** What a thread has been given to do and has not finished. */
  datatype Job = Commands(cid: Cid, request: seq<Command>) | Payload(topic: Topic, data: Bytes)

  function JobOf(th: Thread): Option<Job> {
    match th
    case ConnWantSub(cid, request) => Some(Commands(cid, request))
    case ConnHasSub(cid, request, _, _) => Some(Commands(cid, request))
    case DistWantSub(topic, data) => Some(Payload(topic, data))
    case DistHasSub(topic, data) => Some(Payload(topic, data))
    case DistWantList(topic, data) => Some(Payload(topic, data))
    case DistSend(topic, data, _, _, _) => Some(Payload(topic, data))
    case _ => None
  }

  function JobAt(s: State, t: Tid): Option<Job> {
    if t in s.threads then JobOf(s.threads[t]) else None
  }

  /** Throughout the run, thread `t` has something to do. */
  ghost predicate Works(s: State, actions: seq<Action>, t: Tid)
    decreases actions
  {
    && JobAt(s, t).Some?
    && (actions == [] ||
        (Next(s, actions[0]).Some? && Works(Next(s, actions[0]).value, actions[1..], t)))
  }

  lemma JobStep(s: State, a: Action, t: Tid)
    requires Next(s, a).Some? && JobAt(s, t).Some? && JobAt(Next(s, a).value, t).Some?
    ensures JobAt(Next(s, a).value, t) == JobAt(s, t)
  {
    if a.t != t {
      NextMovesOne(s, a);
    }
  }

  lemma {:induction false} JobIsKept(s: State, actions: seq<Action>, t: Tid)
    requires Works(s, actions, t)
    ensures Run(s, actions).Some? && JobAt(Run(s, actions).value, t) == JobAt(s, t)
    decreases actions
  {
    if actions != [] {
      JobStep(s, actions[0], t);
      JobIsKept(Next(s, actions[0]).value, actions[1..], t);
    }
  }

  /** A job begins with nothing but the thread's own input: a read's text, or a message. */
  lemma JobsBeginWithInput(s: State, a: Action, t: Tid)
    requires Next(s, a).Some? && JobAt(s, t).None?
    ensures var job := JobAt(Next(s, a).value, t);
      job.Some? <==>
        && a.t == t && t in s.threads
        && ((s.threads[t].ConnClient? && a.Read? && a.buf.Some?) || (s.threads[t].DistIdle? && a.Request?))
    ensures var job := JobAt(Next(s, a).value, t);
      job.Some? ==> job.value == if a.Read? then Commands(s.threads[t].cid, Parse(a.buf.value))
                                 else Payload(s.threads[t].topic, a.data)
  {
    NextMovesOne(s, a);
  }

  lemma ReadBegins(s: State, t: Tid, text: string)
    requires Next(s, Read(t, Some(text))).Some?
    ensures t in s.threads && s.threads[t].ConnClient?
    ensures JobAt(Next(s, Read(t, Some(text))).value, t) == Some(Commands(s.threads[t].cid, Parse(text)))
  {
  }

  lemma MessageBegins(s: State, t: Tid, data: Bytes)
    requires Next(s, Request(t, data)).Some? && s.threads[t].DistIdle?
    ensures JobAt(Next(s, Request(t, data)).value, t) == Some(Payload(s.threads[t].topic, data))
  {
  }

  /** A read, over any interleaving: a connection reads `text`, waits for the subscriptions
      while the others go on, gets them in state `lock`, works among the others and gives
      them back in `out`. The subscriptions are then those of `lock` with the commands that
      the text spells applied for its client. */
  lemma ReadRunsItsText(s: State, t: Tid, text: string, wait: seq<Action>, lock: State,
                        entry: State, actions: seq<Action>, end: State, a: Action, out: State)
    requires Next(s, Read(t, Some(text))).Some?
    requires Works(Next(s, Read(t, Some(text))).value, wait, t)
    requires Run(Next(s, Read(t, Some(text))).value, wait) == Some(lock)
    requires Completes(lock, t, entry, actions, end, a, out)
    ensures t in s.threads && s.threads[t].ConnClient? && out.threads[t] == s.threads[t]
    ensures out.subs == ApplyAll(lock.subs, s.threads[t].cid, Parse(text)) && out.clients == lock.clients
  {
    ReadBegins(s, t, text);
    JobIsKept(Next(s, Read(t, Some(text))).value, wait, t);
    EntryOf(lock, t, entry);
    CommandsRunAsOne(lock, t, entry, actions, end, a, out);
  }

  /** Which section a thread enters. */
  lemma EntryOf(s: State, t: Tid, entry: State)
    requires Next(s, Acquire(t)) == Some(entry) && t in entry.threads && InSection(entry.threads[t])
    ensures t in s.threads
    ensures JobOf(s.threads[t]).Some? ==> JobOf(entry.threads[t]) == JobOf(s.threads[t])
    ensures JobOf(s.threads[t]).Some? && JobOf(s.threads[t]).value.Commands? ==> entry.threads[t].ConnHasSub?
    ensures JobOf(s.threads[t]).Some? && JobOf(s.threads[t]).value.Payload? ==> entry.threads[t].DistSend?
  {
  }

  /** A message, over any interleaving: the distribution of a topic is handed `data`, takes
      its two locks one after the other while the others go on, and gives them back in
      `out`. Every established subscriber that the topic has at `lock` has then been offered
      `data` once, and nobody else anything. */
  lemma MessageReachesSubscribers(s: State, t: Tid, data: Bytes, wait: seq<Action>, lock: State,
                                  entry: State, actions: seq<Action>, end: State, a: Action, out: State)
    requires Next(s, Request(t, data)).Some? && s.threads[t].DistIdle?
    requires Works(Next(s, Request(t, data)).value, wait, t)
    requires Run(Next(s, Request(t, data)).value, wait) == Some(lock)
    requires Completes(lock, t, entry, actions, end, a, out)
    ensures var topic := s.threads[t].topic;
      && topic in lock.subs && out.threads[t] == DistRelease(topic) && out.subs == lock.subs
      && out.clients == Offered(lock.clients, lock.subs[topic], data, Broken(actions, t))
  {
    MessageBegins(s, t, data);
    JobIsKept(Next(s, Request(t, data)).value, wait, t);
    EntryOf(lock, t, entry);
    DistributionRunsAsOne(lock, t, entry, actions, end, a, out);
  }

  // ---------- A distribution serves one topic for good ----------

  function TopicOf(th: Thread): Option<Topic> {
    match th
    case DistIdle(topic) => Some(topic)
    case DistWantSub(topic, _) => Some(topic)
    case DistHasSub(topic, _) => Some(topic)
    case DistWantList(topic, _) => Some(topic)
    case DistSend(topic, _, _, _, _) => Some(topic)
    case DistRelease(topic) => Some(topic)
    case _ => None
  }

  lemma AdvanceKeepsTopic(s: State, t: Tid)
    requires Next(s, Advance(t)).Some? && TopicOf(s.threads[t]).Some?
    ensures TopicOf(Next(s, Advance(t)).value.threads[t]) == TopicOf(s.threads[t])
  {
  }

  lemma OwnTopicStep(s: State, a: Action)
    requires Next(s, a).Some? && TopicOf(s.threads[a.t]).Some?
    requires a.Visit? ==> a.cid in s.clients
    ensures TopicOf(Next(s, a).value.threads[a.t]) == TopicOf(s.threads[a.t])
  {
    match a {
      case Request(t, data) =>
      case Acquire(t) =>
      case Visit(t, cid, fails) =>
      case Advance(t) => AdvanceKeepsTopic(s, t);
      case _ => assert false;
    }
  }

  lemma TopicStep(s: State, a: Action, t: Tid)
    requires Inv(s) && Next(s, a).Some? && t in s.threads && TopicOf(s.threads[t]).Some?
    ensures t in Next(s, a).value.threads && TopicOf(Next(s, a).value.threads[t]) == TopicOf(s.threads[t])
  {
    NextMovesOne(s, a);
    if a.t == t {
      if a.Visit? {
        SendKeepsInv(s, t, a.cid, a.fails);
      }
      OwnTopicStep(s, a);
    }
  }

  lemma {:induction false} TopicIsForGood(s: State, actions: seq<Action>, t: Tid)
    requires Inv(s) && Run(s, actions).Some? && t in s.threads && TopicOf(s.threads[t]).Some?
    ensures var s' := Run(s, actions).value;
            t in s'.threads && TopicOf(s'.threads[t]) == TopicOf(s.threads[t])
    decreases actions
  {
    if actions != [] {
      TopicStep(s, actions[0], t);
      NextKeepsInv(s, actions[0]);
      TopicIsForGood(Next(s, actions[0]).value, actions[1..], t);
    }
  }

  // ---------- Threads keep their kind ----------

  datatype Kind = Connection | AliveCheck | Setup | Distribution | Gone

  function KindOf(th: Thread): Kind {
    if th.Panicked? then Gone
    else if TopicOf(th).Some? then Distribution
    else if th.SetupWant? || th.SetupAdd? || th.SetupSpawn? || th.SetupDone? then Setup
    else if th.AliveIdle? || th.AliveWantList? || th.AliveWantSub? || th.AliveScan? || th.AliveDrop? || th.AliveRelease? then AliveCheck
    else Connection
  }

  lemma AcquireKeepsKind(s: State, t: Tid)
    requires Next(s, Acquire(t)).Some?
    ensures KindOf(Next(s, Acquire(t)).value.threads[t]) == KindOf(s.threads[t])
  {
  }

  lemma AdvanceKeepsKind(s: State, t: Tid)
    requires Next(s, Advance(t)).Some?
    ensures KindOf(Next(s, Advance(t)).value.threads[t]) == KindOf(s.threads[t])
  {
  }

  lemma VisitKeepsKind(s: State, t: Tid, cid: Cid, fails: bool)
    requires Next(s, Visit(t, cid, fails)).Some? && cid in s.clients
    ensures KindOf(Next(s, Visit(t, cid, fails)).value.threads[t]) == KindOf(s.threads[t])
  {
  }

  lemma OtherStepKeepsKind(s: State, a: Action)
    requires Next(s, a).Some? && !a.Acquire? && !a.Visit? && !a.Advance?
    ensures KindOf(Next(s, a).value.threads[a.t]) == KindOf(s.threads[a.t])
  {
  }

  lemma OwnKindStep(s: State, a: Action)
    requires Next(s, a).Some? && (a.Visit? ==> a.cid in s.clients)
    ensures KindOf(Next(s, a).value.threads[a.t]) == KindOf(s.threads[a.t])
  {
    match a {
      case Acquire(t) => AcquireKeepsKind(s, t);
      case Visit(t, cid, fails) => VisitKeepsKind(s, t, cid, fails);
      case Advance(t) => AdvanceKeepsKind(s, t);
      case _ => OtherStepKeepsKind(s, a);
    }
  }

  lemma KindStep(s: State, a: Action, t: Tid)
    requires Inv(s) && Next(s, a).Some? && t in s.threads
    ensures t in Next(s, a).value.threads && KindOf(Next(s, a).value.threads[t]) == KindOf(s.threads[t])
  {
    NextMovesOne(s, a);
    if a.t == t {
      if a.Visit? && s.threads[t].DistSend? {
        SendKeepsInv(s, t, a.cid, a.fails);
      }
      OwnKindStep(s, a);
    }
  }

  /** In every run a thread stays what it is: a connection loop, the alive check, the topic
      setup or a distribution. */
  lemma {:induction false} KindIsForGood(s: State, actions: seq<Action>, t: Tid)
    requires Inv(s) && Run(s, actions).Some? && t in s.threads
    ensures var s' := Run(s, actions).value;
            t in s'.threads && KindOf(s'.threads[t]) == KindOf(s.threads[t])
    decreases actions
  {
    if actions != [] {
      KindStep(s, actions[0], t);
      NextKeepsInv(s, actions[0]);
      KindIsForGood(Next(s, actions[0]).value, actions[1..], t);
    }
  }

  // ---------- Distributions have topics ----------

  ghost predicate KnowsTopics(subs: Subscriptions, th: Thread) {
    && (TopicOf(th).Some? ==> TopicOf(th).value in subs)
    && (th.SetupSpawn? ==> th.topics <= subs.Keys)
  }

  ghost predicate TopicsKnown(s: State) {
    forall t :: t in s.threads ==> KnowsTopics(s.subs, s.threads[t])
  }

  lemma TopicsStay(s: State, a: Action)
    requires Next(s, a).Some?
    ensures s.subs.Keys <= Next(s, a).value.subs.Keys
  {
  }

  lemma MoverKnowsTopics(s: State, a: Action)
    requires Inv(s) && TopicsKnown(s) && Next(s, a).Some?
    ensures KnowsTopics(Next(s, a).value.subs, Next(s, a).value.threads[a.t])
    ensures a.Fork? ==> a.topic in s.subs
  {
    var th, s' := s.threads[a.t], Next(s, a).value;
    assert KnowsTopics(s.subs, th);
    TopicsStay(s, a);
    if TopicOf(th).Some? {
      TopicStep(s, a, a.t);
    } else {
      KindStep(s, a, a.t);
      if a.Advance? && th.SetupAdd? && th.ipcs == [] {
        assert s'.threads[a.t] == SetupSpawn(s.subs.Keys);
      }
    }
  }

  lemma NextKeepsTopicsKnown(s: State, a: Action)
    requires Inv(s) && TopicsKnown(s) && Next(s, a).Some?
    ensures TopicsKnown(Next(s, a).value)
  {
    var s' := Next(s, a).value;
    NextMovesOne(s, a);
    TopicsStay(s, a);
    MoverKnowsTopics(s, a);
    forall t | t in s'.threads && t != a.t ensures KnowsTopics(s'.subs, s'.threads[t]) {
      if t in s.threads {
        assert KnowsTopics(s.subs, s.threads[t]);
      }
    }
  }

  lemma {:induction false} RunKeepsTopicsKnown(s: State, actions: seq<Action>)
    requires Inv(s) && TopicsKnown(s) && Run(s, actions).Some?
    ensures TopicsKnown(Run(s, actions).value)
    decreases actions
  {
    if actions != [] {
      NextKeepsTopicsKnown(s, actions[0]);
      NextKeepsInv(s, actions[0]);
      RunKeepsTopicsKnown(Next(s, actions[0]).value, actions[1..]);
    }
  }

  /** In every reachable state the topic of every distribution exists: no message is ever
      skipped for want of its topic. */
  lemma TopicsAreThere(s: State, t: Tid)
    requires Reachable(s) && t in s.threads && TopicOf(s.threads[t]).Some?
    ensures TopicOf(s.threads[t]).value in s.subs
  {
    var init :| Init(init) && ReachableFrom(init, s);
    var actions :| Run(init, actions) == Some(s);
    InitInv(init);
    RunKeepsTopicsKnown(init, actions);
    assert KnowsTopics(s.subs, s.threads[t]);
  }
}
