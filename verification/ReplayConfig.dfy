/** The replay server's configuration handler: tasks keyed by the whole configured record,
    so that nothing is ever lost, whatever the configuration files say. */
module ReplayConfig {
  import opened Basics
  import opened Reconciler
  import ChannelNames

  type MarketDataArg = ChannelNames.MarketDataArg

  /** The record is the whole key; its task carries nothing else. */
  datatype NoInfo = NoInfo

  function AsItem(arg: MarketDataArg): Item<MarketDataArg, NoInfo> {
    Item(arg, NoInfo)
  }

  function AsItems(args: seq<MarketDataArg>): (items: seq<Item<MarketDataArg, NoInfo>>)
    ensures |items| == |args|
    ensures forall i :: 0 <= i < |args| ==> items[i] == AsItem(args[i])
  {
    seq(|args|, i requires 0 <= i < |args| => AsItem(args[i]))
  }

  function Records(items: seq<Item<MarketDataArg, NoInfo>>): (args: seq<MarketDataArg>)
    ensures AsItems(args) == items
  {
    var args := seq(|items|, i requires 0 <= i < |items| => items[i].key);
    assert forall i :: 0 <= i < |items| ==> items[i].info == NoInfo;
    args
  }

  class DynamicConfigHandler {
    var allSubTask: map<MarketDataArg, Task<NoInfo>>
    var spawned: seq<Item<MarketDataArg, NoInfo>>
    var aborted: seq<TaskId>

    function State(): Book<MarketDataArg, NoInfo>
      reads this
    {
      Book(allSubTask, spawned, aborted)
    }

    /** The first configuration has to be readable; the server stops otherwise. */
    constructor (config: seq<MarketDataArg>)
      ensures Update(Empty(), Items(AsItems(config)), State())
    {
      allSubTask, spawned, aborted := map[], [], [];
      new;
      var _ := OnConfigUpdate(Some(config));
    }

    method Cleanup(tasks: seq<MarketDataArg>)
      modifies this
      ensures State() == AbortAll(old(State()), AsItems(tasks))
    {
      ghost var items := AsItems(tasks);
      for i := 0 to |tasks|
        invariant State() == AbortAll(old(State()), items[..i])
      {
        assert items[..i + 1][..i] == items[..i];
        if tasks[i] in allSubTask {
          aborted := aborted + [allSubTask[tasks[i]].id];
        }
        allSubTask := allSubTask - {tasks[i]};
      }
      assert items[..|tasks|] == items;
    }

    method Register(tasks: seq<MarketDataArg>)
      modifies this
      ensures State() == SpawnAll(old(State()), AsItems(tasks))
    {
      ghost var items := AsItems(tasks);
      for i := 0 to |tasks|
        invariant State() == SpawnAll(old(State()), items[..i])
      {
        assert items[..i + 1][..i] == items[..i];
        allSubTask := allSubTask[tasks[i] := Task(NoInfo, |spawned|)];
        spawned := spawned + [AsItem(tasks[i])];
      }
      assert items[..|tasks|] == items;
    }

    /** `parsed` is `None` when the file cannot be read or parsed. */
    method OnConfigUpdate(parsed: Option<seq<MarketDataArg>>) returns (ok: bool)
      modifies this
      ensures ok == parsed.Some?
      ensures if ok then Update(old(State()), Items(AsItems(parsed.value)), State()) else State() == old(State())
    {
      if parsed.None? { return false; }
      var current := allSubTask.Keys;
      var ipcs := set arg | arg in parsed.value;
      var added := IntoIter(ipcs - current);
      var removed := IntoIter(current - ipcs);
      VisitsAsItems(State(), parsed.value, removed, added);
      Cleanup(removed);
      Register(added);
      return true;
    }

    method HandleEvent(ev: Event<MarketDataArg, NoInfo>)
      modifies this
      ensures Step(old(State()), ev, State())
    {
      if ev.Modify? {
        var parsed := match ev.parsed
          case None => None
          case Some(items) => Some(Records(items));
        assert ev.parsed.Some? ==> AsItems(Records(ev.parsed.value)) == ev.parsed.value;
        var _ := OnConfigUpdate(parsed);
      }
    }
  }

  /** The set differences of records are the differences of items. */
  lemma VisitsAsItems(b: Book<MarketDataArg, NoInfo>, config: seq<MarketDataArg>,
                      removed: seq<MarketDataArg>, added: seq<MarketDataArg>)
    requires Visits(removed, b.held.Keys - set arg | arg in config)
    requires Visits(added, (set arg | arg in config) - b.held.Keys)
    ensures Visits(AsItems(removed), Current(b) - Items(AsItems(config)))
    ensures Visits(AsItems(added), Items(AsItems(config)) - Current(b))
  {
    forall it: Item<MarketDataArg, NoInfo>
      ensures it in Current(b) <==> it.key in b.held
      ensures it in AsItems(config) <==> it.key in config
      ensures it in AsItems(removed) <==> it.key in removed
      ensures it in AsItems(added) <==> it.key in added
    {
      assert it.info == NoInfo && it == AsItem(it.key);
      if it.key in b.held {
        assert b.held[it.key].info == NoInfo && it == Item(it.key, b.held[it.key].info);
      }
      InAsItems(config, it.key);
      InAsItems(removed, it.key);
      InAsItems(added, it.key);
    }
  }

  lemma InAsItems(args: seq<MarketDataArg>, arg: MarketDataArg)
    ensures AsItem(arg) in AsItems(args) <==> arg in args
  {
  }

  /** A record is its own key: no configuration can bind it twice. */
  lemma AlwaysFunctional(config: set<Item<MarketDataArg, NoInfo>>)
    ensures Functional(config)
  {
    forall a, b | a in config && b in config && a.key == b.key ensures a == b {
      assert a.info == NoInfo && b.info == NoInfo;
    }
  }

  /** For any run, duplicates in the files allowed: the task keys are exactly the records of
      the last configuration read, and every task ever spawned is held under exactly one
      record or was aborted exactly once. */
  lemma TasksFollowConfig(initial: seq<MarketDataArg>, books: seq<Book<MarketDataArg, NoInfo>>,
                          events: seq<Event<MarketDataArg, NoInfo>>, id: TaskId)
    requires Run(books, events) && Update(Empty(), Items(AsItems(initial)), books[0])
    ensures var b := books[|events|];
      && b.held.Keys == (set it | it in InForce(AsItems(initial), events) :: it.key)
      && Leaks(b) == {}
      && (id < |b.spawned| ==> Holds(b, id) != (id in b.aborted) && multiset(b.aborted)[id] <= 1)
  {
    var start: Book<MarketDataArg, NoInfo> := Empty();
    UpdateMatchesConfig(start, Items(AsItems(initial)), books[0]);
    UpdateLeaks(start, Items(AsItems(initial)), books[0]);
    RunLeaks(books, events);
    RunFollowsConfig(AsItems(initial), books, events);
    AlwaysFunctional(Items(AsItems(initial)));
    AlwaysFunctional(Items(InForce(AsItems(initial), events)));
    forall i | 0 <= i < |events| && events[i].Modify? && events[i].parsed.Some?
      ensures Functional(Items(events[i].parsed.value))
    {
      AlwaysFunctional(Items(events[i].parsed.value));
    }
    var b := books[|events|];
    KeysOfCurrent(b);
    if id < |b.spawned| {
      NoLeaksMeansAccounted(b, id);
    }
  }

  lemma KeysOfCurrent(b: Book<MarketDataArg, NoInfo>)
    ensures b.held.Keys == set it | it in Current(b) :: it.key
  {
    forall k | k in b.held ensures k in set it | it in Current(b) :: it.key {
      assert Item(k, b.held[k].info) in Current(b);
    }
  }

  /** A record that stays configured keeps its task across an update. */
  lemma UnchangedRecordKeepsTask(b: Book<MarketDataArg, NoInfo>, config: seq<MarketDataArg>,
                                 b': Book<MarketDataArg, NoInfo>, arg: MarketDataArg)
    requires Update(b, Items(AsItems(config)), b') && arg in b.held && arg in config
    ensures arg in b'.held && b'.held[arg] == b.held[arg]
  {
    InAsItems(config, arg);
    assert b.held[arg].info == NoInfo;
    UnchangedKeepTask(b, Items(AsItems(config)), b', arg);
  }
}
