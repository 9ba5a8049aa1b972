/** The multicast server's configuration handler. Its configuration lists pairs of a
    message type and a channel url; its map of running tasks is keyed by the url alone. */
module MulticastConfig {
  import opened Basics
  import opened Reconciler

  type IpcUrl = string
  type IpcType = nat

  /** A configured pair: the url is the key, the message type the information. */
  type Ipc = Item<IpcUrl, IpcType>

  /** Splits `current` and `latest` into what only one of them has, consuming `latest`. */
  method DiffIpc(current: set<Ipc>, latest: set<Ipc>) returns (removed: set<Ipc>, added: set<Ipc>)
    ensures removed == current - latest && added == latest - current
    ensures removed !! added && current - removed + added == latest
  {
    removed, added := {}, latest;
    var todo := current;
    while todo != {}
      invariant todo <= current
      invariant removed == (current - todo) - latest
      invariant added == latest - (current - todo)
    {
      var ipc :| ipc in todo;
      if ipc in added {
        assert ipc in added;    // removal finds it
        added := added - {ipc};
      } else {
        assert ipc !in removed; // insertion is new
        removed := removed + {ipc};
      }
      todo := todo - {ipc};
    }
  }

  class DynamicConfigHandler {
    var ipcsMap: map<IpcUrl, Task<IpcType>>
    var spawned: seq<Ipc>
    var aborted: seq<TaskId>

    function State(): Book<IpcUrl, IpcType>
      reads this
    {
      Book(ipcsMap, spawned, aborted)
    }

    constructor ()
      ensures State() == Empty()
    {
      ipcsMap, spawned, aborted := map[], [], [];
    }

    /** Registers the initial list as it stands; a file that cannot be read is an error. */
    method Initiate(parsed: Option<seq<Ipc>>) returns (ok: bool)
      modifies this
      ensures ok == parsed.Some?
      ensures State() == if ok then SpawnAll(old(State()), parsed.value) else old(State())
    {
      if parsed.None? { return false; }
      Register(parsed.value);
      return true;
    }

    method Diff(config: seq<Ipc>) returns (removed: set<Ipc>, added: set<Ipc>)
      ensures removed == Current(State()) - Items(config) && added == Items(config) - Current(State())
    {
      var current := set url | url in ipcsMap :: Item(url, ipcsMap[url].info);
      var latest := set ipc | ipc in config;
      removed, added := DiffIpc(current, latest);
    }

    method Cleanup(tasks: seq<Ipc>)
      modifies this
      ensures State() == AbortAll(old(State()), tasks)
    {
      for i := 0 to |tasks|
        invariant State() == AbortAll(old(State()), tasks[..i])
      {
        assert tasks[..i + 1][..i] == tasks[..i];
        var url := tasks[i].key;
        if url in ipcsMap {
          aborted := aborted + [ipcsMap[url].id];
        }
        ipcsMap := ipcsMap - {url};
      }
      assert tasks[..|tasks|] == tasks;
    }

    method Register(tasks: seq<Ipc>)
      modifies this
      ensures State() == SpawnAll(old(State()), tasks)
    {
      for i := 0 to |tasks|
        invariant State() == SpawnAll(old(State()), tasks[..i])
      {
        assert tasks[..i + 1][..i] == tasks[..i];
        ipcsMap := ipcsMap[tasks[i].key := Task(tasks[i].info, |spawned|)];
        spawned := spawned + [tasks[i]];
      }
      assert tasks[..|tasks|] == tasks;
    }

    method HandleEvent(ev: Event<IpcUrl, IpcType>)
      modifies this
      ensures Step(old(State()), ev, State())
    {
      if ev.Modify? && ev.parsed.Some? {
        var removed, added := Diff(ev.parsed.value);
        var removedOrder := IntoIter(removed);
        var addedOrder := IntoIter(added);
        Cleanup(removedOrder);
        Register(addedOrder);
      }
    }
  }

  ghost predicate DistinctUrls(ipcs: seq<Ipc>) {
    forall i, j :: 0 <= i < j < |ipcs| ==> ipcs[i].key != ipcs[j].key
  }

  /** The task ledger over a whole run: the server never loses a running task exactly when
      its initial list repeats no url and no configuration it reads gives a url two types. */
  lemma NoTaskIsLost(initial: seq<Ipc>, books: seq<Book<IpcUrl, IpcType>>, events: seq<Event<IpcUrl, IpcType>>)
    requires Run(books, events) && books[0] == SpawnAll(Empty(), initial)
    ensures Leaks(books[|events|]) == {} <==> DistinctUrls(initial) && EachFunctional(events)
  {
    var start: Book<IpcUrl, IpcType> := Empty();
    SpawnAllLeaks(start, initial);
    RunLeaks(books, events);
  }

  /** In such a run every task ever spawned is held under exactly one url or has been
      aborted exactly once. */
  lemma EveryTaskIsAccounted(initial: seq<Ipc>, books: seq<Book<IpcUrl, IpcType>>,
                             events: seq<Event<IpcUrl, IpcType>>, id: TaskId)
    requires Run(books, events) && books[0] == SpawnAll(Empty(), initial)
    requires DistinctUrls(initial) && EachFunctional(events)
    requires id < |books[|events|].spawned|
    ensures var b := books[|events|];
      && Holds(b, id) != (id in b.aborted)
      && multiset(b.aborted)[id] <= 1
      && forall u, v :: u in b.held && v in b.held && b.held[u].id == id && b.held[v].id == id ==> u == v
  {
    var start: Book<IpcUrl, IpcType> := Empty();
    SpawnAllLeaks(start, initial);
    RunLeaks(books, events);
    NoTaskIsLost(initial, books, events);
    NoLeaksMeansAccounted(books[|events|], id);
  }

  /** After any event sequence the running pairs are those of the last configuration read,
      or else of the initial list, exactly when that binds each url to one type. */
  lemma RunningIsConfigured(initial: seq<Ipc>, books: seq<Book<IpcUrl, IpcType>>,
                            events: seq<Event<IpcUrl, IpcType>>)
    requires Run(books, events) && books[0] == SpawnAll(Empty(), initial)
    ensures Current(books[|events|]) == Items(InForce(initial, events)) <==>
            Functional(Items(InForce(initial, events)))
  {
    if Functional(Items(initial)) {
      InitialItems(initial);
    }
    RunFollowsConfig(initial, books, events);
  }

  lemma InitialItems(initial: seq<Ipc>)
    requires Functional(Items(initial))
    ensures Current(SpawnAll(Empty<IpcUrl, IpcType>(), initial)) == Items(initial)
  {
    var start: Book<IpcUrl, IpcType> := Empty();
    var b := SpawnAll(start, initial);
    forall url
      ensures url in b.held ==> Item(url, b.held[url].info) in initial
      ensures forall ipc :: ipc in initial && ipc.key == url ==> url in b.held
    {
      SpawnAllHeld(start, initial, url);
    }
    forall ipc | ipc in initial ensures ipc in Current(b) {
      assert Item(ipc.key, b.held[ipc.key].info) in Items(initial);
    }
  }
}
