/** The topic setup, interleaved with everything else: it resets exactly its own topics and
    starts exactly one distribution for each topic there is. */
module PublisherSetup {
  import opened Basics
  import opened PublisherTypes
  import opened PublisherState
  import opened PublisherThreads
  import opened PublisherSections

  function WithTopics(subs: Subscriptions, ipcs: seq<Topic>): Subscriptions {
    map t | t in subs.Keys + (set i | i in ipcs) :: if t in ipcs then {} else subs[t]
  }

  predicate InSetup(th: Thread) {
    th.SetupAdd? || th.SetupSpawn? || th.SetupDone?
  }

  /** The subscriptions once the setup is done. */
  function Target(subs: Subscriptions, th: Thread): Subscriptions {
    if th.SetupAdd? then WithTopics(subs, th.ipcs) else subs
  }

  /** The distributions of `topic` that the thread still has to start. */
  function Owes(subs: Subscriptions, th: Thread, topic: Topic): nat {
    if th.SetupAdd? then (if topic in Target(subs, th) then 1 else 0)
    else if th.SetupSpawn? then (if topic in th.topics then 1 else 0)
    else 0
  }

  function ForksOf(a: Action, t: Tid, topic: Topic): nat {
    if a.Fork? && a.t == t && a.topic == topic then 1 else 0
  }

  /** How often thread `t` starts a distribution of `topic`. */
  ghost function Forks(actions: seq<Action>, t: Tid, topic: Topic): nat {
    if actions == [] then 0 else ForksOf(actions[0], t, topic) + Forks(actions[1..], t, topic)
  }

  /** Thread `t` holds the lock throughout the run. */
  ghost predicate SetsUp(s: State, actions: seq<Action>, t: Tid)
    decreases actions
  {
    && t in s.threads && (s.threads[t].SetupAdd? || s.threads[t].SetupSpawn?)
    && (actions == [] ||
        (Next(s, actions[0]).Some? && SetsUp(Next(s, actions[0]).value, actions[1..], t)))
  }

  lemma TopicAdded(subs: Subscriptions, ipcs: seq<Topic>)
    ensures ipcs == [] ==> WithTopics(subs, ipcs) == subs
    ensures ipcs != [] ==> WithTopics(subs[ipcs[0] := {}], ipcs[1..]) == WithTopics(subs, ipcs)
  {
    if ipcs != [] {
      assert ipcs == [ipcs[0]] + ipcs[1..];
    }
  }

  lemma OwnSetupStep(s: State, a: Action, topic: Topic)
    requires Next(s, a).Some? && (s.threads[a.t].SetupAdd? || s.threads[a.t].SetupSpawn?)
    ensures var s' := Next(s, a).value;
      && InSetup(s'.threads[a.t])
      && Target(s'.subs, s'.threads[a.t]) == Target(s.subs, s.threads[a.t])
      && Owes(s.subs, s.threads[a.t], topic) == ForksOf(a, a.t, topic) + Owes(s'.subs, s'.threads[a.t], topic)
  {
    var th := s.threads[a.t];
    if th.SetupAdd? {
      TopicAdded(s.subs, th.ipcs);
    }
    match a {
      case Advance(t) =>
      case Fork(t, other, child) =>
      case _ => assert false;
    }
  }

  lemma SetupStep(s: State, a: Action, t: Tid, topic: Topic)
    requires Inv(s) && Next(s, a).Some? && t in s.threads && (s.threads[t].SetupAdd? || s.threads[t].SetupSpawn?)
    ensures var s' := Next(s, a).value;
      && t in s'.threads && Target(s'.subs, s'.threads[t]) == Target(s.subs, s.threads[t])
      && Owes(s.subs, s.threads[t], topic) == ForksOf(a, t, topic) + Owes(s'.subs, s'.threads[t], topic)
  {
    if a.t == t {
      OwnSetupStep(s, a, topic);
    } else {
      OnlyHoldersWrite(s, a, t);
    }
  }

  lemma {:induction false} SetupProceeds(s: State, actions: seq<Action>, t: Tid, topic: Topic)
    requires Inv(s) && SetsUp(s, actions, t)
    ensures Run(s, actions).Some?
    ensures var s' := Run(s, actions).value;
      && Inv(s') && t in s'.threads && Target(s'.subs, s'.threads[t]) == Target(s.subs, s.threads[t])
      && Owes(s.subs, s.threads[t], topic) == Forks(actions, t, topic) + Owes(s'.subs, s'.threads[t], topic)
    decreases actions
  {
    if actions != [] {
      SetupStep(s, actions[0], t, topic);
      NextKeepsInv(s, actions[0]);
      SetupProceeds(Next(s, actions[0]).value, actions[1..], t, topic);
    }
  }

  lemma SetupEntry(s: State, t: Tid)
    requires t in s.threads && s.threads[t].SetupWant? && Next(s, Acquire(t)).Some?
    ensures Next(s, Acquire(t)).value.threads[t] == SetupAdd(s.threads[t].ipcs)
    ensures Next(s, Acquire(t)).value.subs == s.subs
  {
  }

  lemma SetupExit(end: State, t: Tid, out: State)
    requires t in end.threads && (end.threads[t].SetupAdd? || end.threads[t].SetupSpawn?)
    requires Next(end, Advance(t)) == Some(out) && out.threads[t] == SetupDone
    ensures end.threads[t] == SetupSpawn({}) && out.subs == end.subs
  {
  }

  lemma {:induction false} SetsUpToTheEnd(s: State, actions: seq<Action>, t: Tid)
    requires SetsUp(s, actions, t)
    ensures Run(s, actions).Some? && SetsUp(Run(s, actions).value, [], t)
    decreases actions
  {
    if actions != [] {
      SetsUpToTheEnd(Next(s, actions[0]).value, actions[1..], t);
    }
  }

  /** From taking the lock to giving it back: the listed topics exist without subscribers,
      the others are as they were, and every topic there is got exactly one distribution. */
  lemma SetupRunsAsOne(s: State, t: Tid, actions: seq<Action>, end: State, out: State, topic: Topic)
    requires Reachable(s) && t in s.threads && s.threads[t].SetupWant? && Next(s, Acquire(t)).Some?
    requires SetsUp(Next(s, Acquire(t)).value, actions, t) && Run(Next(s, Acquire(t)).value, actions) == Some(end)
    requires Next(end, Advance(t)) == Some(out) && out.threads[t] == SetupDone
    ensures out.subs == WithTopics(s.subs, s.threads[t].ipcs)
    ensures Forks(actions, t, topic) == if topic in out.subs then 1 else 0
  {
    ReachableInv(s);
    NextKeepsInv(s, Acquire(t));
    SetupEntry(s, t);
    var entry := Next(s, Acquire(t)).value;
    SetupProceeds(entry, actions, t, topic);
    SetsUpToTheEnd(entry, actions, t);
    SetupExit(end, t, out);
  }
}
