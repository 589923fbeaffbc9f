/**
 * The sending process object (C/tasks/north/sending_process/sending.cpp):
 * how its configuration text is assembled and read back, the start-up
 * decisions of its constructor, the wiring of the filter pipeline, and the
 * buffer of reading sets that filters write into and stop releases.
 *
 * The management and storage services, the plugin manager and the filter
 * plugins are not part of this model: what they answer is given as data
 * (a Store, an Environment, a FilterInit function).
 */
module Sending {
  import opened Common
  import opened ConfigCategory
  import opened PluginApi
  import opened NorthPluginFacade

  const PluginUndefined: string := ""
  const PluginConfigKey: string := "PLUGIN"
  const PluginTypesKey: string := "OMF_TYPES"
  const GlobalConfigKey: string := "GLOBAL_CONFIGURATION"
  /** last_object of a newly created stream. */
  const NewStreamLastObject: nat := 0

  // ---------------------------------------------------------------------
  // fetchConfiguration

  /** config()[key] on the plugin's configuration map: operator[] yields "" for a missing key. */
  function ConfigEntry(pluginConfig: map<string, string>, key: string): string
  {
    if key in pluginConfig then pluginConfig[key] else ""
  }

  /**
   * The text of the category created with defaults only: the plugin's
   * "PLUGIN" entry and a comma ahead of the process defaults when a plugin
   * is named, inside "{ " and " }".
   */
  function MergedConfigText(pluginName: string, pluginConfig: map<string, string>, defaults: string): (r: string)
    ensures |r| >= 4 && r[..2] == "{ " && r[|r| - 2..] == " }"
    ensures pluginName == PluginUndefined ==> r[2..|r| - 2] == defaults
    ensures pluginName != PluginUndefined ==>
              r[2..|r| - 2] == ConfigEntry(pluginConfig, PluginConfigKey) + ", " + defaults
  {
    var front := if pluginName != PluginUndefined then ConfigEntry(pluginConfig, PluginConfigKey) + ", " else "";
    var r := "{ " + front + defaults + " }";
    assert r[2..|r| - 2] == front + defaults;
    r
  }

  /**
   * Whether OMF_TYPES is written into the global map at the end of a
   * fetch. The types category is created and read under the name passed
   * in, but the write tests plugin_name again after the "plugin" item has
   * been read into m_plugin_name. The second call of the start-up passes
   * m_plugin_name itself by reference, so that test sees the name just
   * read; the first call passes the literal undefined name, for which
   * TypesPresent is already false. Both calls thus write exactly when
   * the types were read and the category still names a plugin.
   */
  predicate TypesWritten(pluginName: string, pluginConfig: map<string, string>, category: seq<CategoryItem>)
  {
    TypesPresent(pluginName, pluginConfig) && PluginNameOf(category) != PluginUndefined
  }

  /** The text of the OMF_TYPES category: the plugin's entry inside "{ " and " }". */
  function TypesConfigText(pluginConfig: map<string, string>): string
  {
    "{ " + ConfigEntry(pluginConfig, PluginTypesKey) + " }"
  }

  /** Whether the OMF_TYPES category is created and read: a plugin is named and its map has the key. */
  predicate TypesPresent(pluginName: string, pluginConfig: map<string, string>)
  {
    pluginName != PluginUndefined && PluginTypesKey in pluginConfig
  }

  /**
   * What the management service answers during one fetch: whether it
   * accepts a category built from a text (false also stands for a text
   * DefaultConfigCategory cannot build), and the two categories it
   * returns with values and defaults.
   */
  datatype Store = Store(accepts: string -> bool, category: seq<CategoryItem>, types: seq<CategoryItem>)

  /** The members fetchConfiguration sets, and the static global configuration map. */
  datatype Settings = Settings(
    pluginName: string,
    blockSize: nat,
    sleepInterval: nat,
    duration: nat,
    streamId: int,
    dataSource: string,
    global: map<string, string>)

  /**
   * The exceptions fetchConfiguration catches before it sets any member:
   * a refused category, a refused types category, or one of blockSize,
   * duration and sleepInterval missing.
   */
  predicate FetchAborts(pluginName: string, pluginConfig: map<string, string>, defaults: string, store: Store)
  {
    !store.accepts(MergedConfigText(pluginName, pluginConfig, defaults)) ||
    (TypesPresent(pluginName, pluginConfig) && !store.accepts(TypesConfigText(pluginConfig))) ||
    !HasItem(store.category, "blockSize") || !HasItem(store.category, "duration") ||
    !HasItem(store.category, "sleepInterval")
  }

  /** The stream id read from the category: atoi of "streamId", with "0" standing in for a missing item. */
  function StreamIdOf(category: seq<CategoryItem>): (r: int)
    ensures !HasItem(category, "streamId") ==> r == 0
    ensures HasItem(category, "streamId") ==> r == Atoi(ValueOf(category, "streamId").value)
  {
    var text := if HasItem(category, "streamId") then ValueOf(category, "streamId").value else "0";
    AtoiOfZero("0");
    Atoi(text)
  }

  /** The plugin name read from the category: "plugin", or the undefined name when it is missing. */
  function PluginNameOf(category: seq<CategoryItem>): (r: string)
    ensures !HasItem(category, "plugin") ==> r == PluginUndefined
    ensures HasItem(category, "plugin") ==> r == ValueOf(category, "plugin").value
  {
    match ValueOf(category, "plugin")
    case Ok(name) => name
    case Err(_) => PluginUndefined
  }

  /**
   * globalConfiguration after a complete fetch: the category's items under
   * GLOBAL_CONFIGURATION, the types category's under OMF_TYPES when it was
   * read, and every other key as before.
   */
  function UpdatedGlobal(global: map<string, string>, category: seq<CategoryItem>, types: Option<seq<CategoryItem>>)
    : (r: map<string, string>)
    ensures GlobalConfigKey in r && r[GlobalConfigKey] == ItemsToJson(category)
    ensures types.Some? ==> PluginTypesKey in r && r[PluginTypesKey] == ItemsToJson(types.value)
    ensures forall k :: k != GlobalConfigKey && (k != PluginTypesKey || types.None?) ==>
              (k in r <==> k in global) && (k in r ==> r[k] == global[k])
  {
    var withItems := global[GlobalConfigKey := ItemsToJson(category)];
    if types.Some? then withItems[PluginTypesKey := ItemsToJson(types.value)] else withItems
  }

  /** The members set once the required items are read: the plugin name, the numbers and the stream id. */
  function ReadRequired(before: Settings, category: seq<CategoryItem>): (r: Settings)
    requires HasItem(category, "blockSize") && HasItem(category, "duration") && HasItem(category, "sleepInterval")
    ensures r.pluginName == PluginNameOf(category) && r.streamId == StreamIdOf(category)
    ensures r.dataSource == before.dataSource && r.global == before.global
  {
    before.(
      pluginName := PluginNameOf(category),
      blockSize := StrToUl(ValueOf(category, "blockSize").value),
      sleepInterval := StrToUl(ValueOf(category, "sleepInterval").value),
      duration := StrToUl(ValueOf(category, "duration").value),
      streamId := StreamIdOf(category))
  }

  /**
   * The members after fetchConfiguration, from the members before it. An
   * aborted fetch changes nothing; otherwise the plugin name, the numeric
   * settings and the stream id are set, and a missing "source" item then
   * stops the fetch before the data source and the global map are set.
   */
  function Fetch(before: Settings, defaults: string, pluginName: string, pluginConfig: map<string, string>,
                 store: Store): (r: Settings)
    ensures FetchAborts(pluginName, pluginConfig, defaults, store) ==> r == before
    ensures !FetchAborts(pluginName, pluginConfig, defaults, store) ==>
              r.pluginName == PluginNameOf(store.category) && r.streamId == StreamIdOf(store.category)
  {
    if FetchAborts(pluginName, pluginConfig, defaults, store) then before
    else
      var category := store.category;
      var updated := ReadRequired(before, category);
      match ValueOf(category, "source")
      case Err(_) => updated
      case Ok(source) =>
        updated.(dataSource := source,
                 global := UpdatedGlobal(before.global, category,
                                         if TypesWritten(pluginName, pluginConfig, category) then Some(store.types) else None))
  }

  /** A fetch that gets past the required items sets the numeric settings with strtoul. */
  lemma FetchReadsNumbers(before: Settings, defaults: string, pluginName: string, pluginConfig: map<string, string>,
                          store: Store)
    requires !FetchAborts(pluginName, pluginConfig, defaults, store)
    ensures var r := Fetch(before, defaults, pluginName, pluginConfig, store);
      r.blockSize == StrToUl(ValueOf(store.category, "blockSize").value) &&
      r.sleepInterval == StrToUl(ValueOf(store.category, "sleepInterval").value) &&
      r.duration == StrToUl(ValueOf(store.category, "duration").value)
  {
    var updated := ReadRequired(before, store.category);
    assert Fetch(before, defaults, pluginName, pluginConfig, store).(dataSource := updated.dataSource,
                                                                      global := updated.global) == updated;
  }

  /** Without a "source" item, the fetch stops before the data source and the global map. */
  lemma FetchWithoutSource(before: Settings, defaults: string, pluginName: string, pluginConfig: map<string, string>,
                           store: Store)
    requires !FetchAborts(pluginName, pluginConfig, defaults, store) && !HasItem(store.category, "source")
    ensures var r := Fetch(before, defaults, pluginName, pluginConfig, store);
      r.dataSource == before.dataSource && r.global == before.global
  {
    assert ValueOf(store.category, "source").Err?;
  }

  /**
   * With a "source" item, the fetch completes: the data source is read and
   * the global map is updated.
   */
  lemma FetchWithSource(before: Settings, defaults: string, pluginName: string, pluginConfig: map<string, string>,
                        store: Store)
    requires !FetchAborts(pluginName, pluginConfig, defaults, store) && HasItem(store.category, "source")
    ensures var r := Fetch(before, defaults, pluginName, pluginConfig, store);
      r.dataSource == ValueOf(store.category, "source").value &&
      r.global == UpdatedGlobal(before.global, store.category,
                                if TypesWritten(pluginName, pluginConfig, store.category) then Some(store.types) else None)
  {
    var source := ValueOf(store.category, "source");
    assert source.Ok?;
    var types := if TypesWritten(pluginName, pluginConfig, store.category) then Some(store.types) else None;
    assert Fetch(before, defaults, pluginName, pluginConfig, store) ==
           ReadRequired(before, store.category).(dataSource := source.value,
                                                 global := UpdatedGlobal(before.global, store.category, types));
  }

  /**
   * A fetch whose category has lost its "plugin" item leaves OMF_TYPES in
   * the global map as it was, even when the name passed in had the types
   * category created and read.
   */
  lemma FetchWithoutPluginItemKeepsTypes(before: Settings, defaults: string, pluginName: string,
                                         pluginConfig: map<string, string>, store: Store)
    requires !FetchAborts(pluginName, pluginConfig, defaults, store) && HasItem(store.category, "source")
    requires !HasItem(store.category, "plugin")
    ensures var r := Fetch(before, defaults, pluginName, pluginConfig, store);
      r.pluginName == PluginUndefined &&
      (PluginTypesKey in r.global <==> PluginTypesKey in before.global) &&
      (PluginTypesKey in r.global ==> r.global[PluginTypesKey] == before.global[PluginTypesKey])
  {
    FetchWithSource(before, defaults, pluginName, pluginConfig, store);
    assert PluginTypesKey != GlobalConfigKey by {
      assert PluginTypesKey[0] != GlobalConfigKey[0];
    }
  }

  /**
   * With the types read and a plugin still named by the category, the
   * fetch writes the types category's items under OMF_TYPES.
   */
  lemma FetchWritesTypes(before: Settings, defaults: string, pluginName: string,
                         pluginConfig: map<string, string>, store: Store)
    requires !FetchAborts(pluginName, pluginConfig, defaults, store) && HasItem(store.category, "source")
    requires TypesPresent(pluginName, pluginConfig) && HasItem(store.category, "plugin")
    requires ValueOf(store.category, "plugin").value != PluginUndefined
    ensures var r := Fetch(before, defaults, pluginName, pluginConfig, store);
      PluginTypesKey in r.global && r.global[PluginTypesKey] == ItemsToJson(store.types)
  {
    FetchWithSource(before, defaults, pluginName, pluginConfig, store);
  }

  // ---------------------------------------------------------------------
  // setupFiltersPipeline

  /** The OUTPUT_HANDLE a filter is initialised with: the next filter, or the load buffer index. */
  datatype Output = NextFilter(index: nat) | LoadBufferIndex

  /** The output of filter i of n: every filter but the last feeds the next one. */
  function OutputFor(i: nat, n: nat): (r: Output)
    ensures i + 1 < n ==> r == NextFilter(i + 1)
    ensures i + 1 >= n ==> r == LoadBufferIndex
  {
    if i + 1 < n then NextFilter(i + 1) else LoadBufferIndex
  }

  /** What a filter's init answers, given its name and output. */
  type FilterInit = (string, Output) -> bool

  predicate InitSucceeds(filters: seq<string>, init: FilterInit, k: nat)
    requires k < |filters|
  {
    init(filters[k], OutputFor(k, |filters|))
  }

  /** The first filter at or after from whose init fails, if any. */
  function FirstInitFailureFrom(filters: seq<string>, init: FilterInit, from: nat): (r: Option<nat>)
    requires from <= |filters|
    ensures r.Some? ==> from <= r.value < |filters| && !InitSucceeds(filters, init, r.value) &&
                        forall k :: from <= k < r.value ==> InitSucceeds(filters, init, k)
    ensures r.None? ==> forall k :: from <= k < |filters| ==> InitSucceeds(filters, init, k)
    decreases |filters| - from
  {
    if from == |filters| then None
    else if !InitSucceeds(filters, init, from) then Some(from)
    else FirstInitFailureFrom(filters, init, from + 1)
  }

  /** The first filter whose plugin_init fails, if any. */
  function FirstInitFailure(filters: seq<string>, init: FilterInit): (r: Option<nat>)
    ensures r.None? <==> forall k :: 0 <= k < |filters| ==> InitSucceeds(filters, init, k)
    ensures r.Some? ==> r.value < |filters| && !InitSucceeds(filters, init, r.value) &&
                        forall k :: 0 <= k < r.value ==> InitSucceeds(filters, init, k)
  {
    FirstInitFailureFrom(filters, init, 0)
  }

  const InitFailedPrefix: string := "'plugin_init' failed for filter '"

  /**
   * setupFiltersPipeline: each filter in turn is registered as a child of
   * the process category and initialised with its output; the first init
   * that fails ends the loop and the result is false.
   */
  method SetupFiltersPipeline(filters: seq<string>, init: FilterInit)
    returns (ok: bool, calls: seq<(string, Output)>, children: seq<string>, errMsg: string)
    ensures ok <==> FirstInitFailure(filters, init).None?
    ensures |calls| == if ok then |filters| else FirstInitFailure(filters, init).value + 1
    ensures |calls| <= |filters|
    ensures forall k :: 0 <= k < |calls| ==> calls[k] == (filters[k], OutputFor(k, |filters|))
    ensures children == filters[..|calls|]
    ensures !ok ==> errMsg == InitFailedPrefix + filters[FirstInitFailure(filters, init).value] + "'"
  {
    ok := true;
    calls := [];
    children := [];
    errMsg := InitFailedPrefix;
    var i := 0;
    while i < |filters|
      invariant 0 <= i <= |filters|
      invariant |calls| == i && children == filters[..i]
      invariant forall k :: 0 <= k < i ==> calls[k] == (filters[k], OutputFor(k, |filters|))
      invariant forall k :: 0 <= k < i ==> InitSucceeds(filters, init, k)
    {
      children := children + [filters[i]];
      var output := if i + 1 < |filters| then NextFilter(i + 1) else LoadBufferIndex;
      calls := calls + [(filters[i], output)];
      if !init(filters[i], output) {
        errMsg := errMsg + filters[i] + "'";
        ok := false;
        assert FirstInitFailureFrom(filters, init, i) == Some(i);
        FirstFailureSkips(filters, init, i);
        assert children == filters[..i + 1];
        return;
      }
      i := i + 1;
    }
    FirstFailureSkips(filters, init, |filters|);
  }

  /** When every filter before i initialises, the search from 0 answers what the search from i does. */
  lemma {:induction false} FirstFailureSkips(filters: seq<string>, init: FilterInit, i: nat)
    requires i <= |filters|
    requires forall k :: 0 <= k < i ==> InitSucceeds(filters, init, k)
    ensures FirstInitFailure(filters, init) == FirstInitFailureFrom(filters, init, i)
    decreases i
  {
    if i > 0 {
      FirstFailureSkips(filters, init, i - 1);
      assert FirstInitFailureFrom(filters, init, i - 1) == FirstInitFailureFrom(filters, init, i);
    }
  }

  /** loadFilters: a failed load fails, no filters succeed, otherwise the pipeline decides. */
  function LoadFilters(loaded: bool, filters: seq<string>, init: FilterInit): (r: bool)
    ensures r <==> loaded && (|filters| == 0 || forall k :: 0 <= k < |filters| ==> InitSucceeds(filters, init, k))
  {
    loaded && (|filters| == 0 || FirstInitFailure(filters, init).None?)
  }

  // ---------------------------------------------------------------------
  // The constructor's decisions

  /**
   * What the services answer while the process starts: the two fetches,
   * the loaded plugin library (None when PluginManager cannot load it) and
   * its configuration map, the stream table, and the filters.
   */
  datatype Environment = Environment(
    firstStore: Store,
    secondStore: Store,
    library: Option<Library>,
    pluginConfig: map<string, string>,
    newStream: int,              // createNewStream: the id allocated, 0 on failure
    streamIdSaved: bool,         // setCategoryItemValue of "streamId" returns normally
    lastObject: Option<nat>,     // the last_object of the stream's row, None when there is no row
    streamCreated: bool,         // createStream inserts the row
    filtersLoaded: bool,         // FilterPlugin::loadFilters
    filters: seq<string>,
    filterInit: FilterInit)

  /** The runtime_error the constructor throws. */
  datatype StartError =
    | PluginNotDefined
    | PluginNotLoaded(name: string)
    | NoNewStream
    | StreamIdNotSaved
    | StreamNotCreated(streamId: int)
    | FiltersFailed

  /**
   * The members before the first fetch: the constructor sets the stream id
   * to -1 and the plugin name to undefined; the numeric settings are read
   * before any of them is used.
   */
  const InitialSettings: Settings := Settings(PluginUndefined, 0, 0, 0, -1, "", map[])

  /** The stream id after the allocation step: a zero id is replaced by a newly created stream. */
  function AllocatedStream(streamId: int, env: Environment): (r: Result<int, StartError>)
    ensures r.Ok? ==> r.value != 0
    ensures streamId != 0 ==> r == Ok(streamId)
    ensures streamId == 0 ==> (r.Ok? <==> env.newStream != 0 && env.streamIdSaved)
    ensures streamId == 0 && r.Ok? ==> r.value == env.newStream
    ensures streamId == 0 && env.newStream == 0 ==> r == Err(NoNewStream)
  {
    if streamId != 0 then Ok(streamId)
    else if env.newStream == 0 then Err(NoNewStream)
    else if !env.streamIdSaved then Err(StreamIdNotSaved)
    else Ok(env.newStream)
  }

  /** The last sent id: the stream row's last_object, or 0 for a stream created now. */
  function LastSent(streamId: int, env: Environment): (r: Result<nat, StartError>)
    ensures env.lastObject.Some? ==> r == Ok(env.lastObject.value)
    ensures env.lastObject.None? ==> r == if env.streamCreated then Ok(NewStreamLastObject) else Err(StreamNotCreated(streamId))
  {
    match env.lastObject
    case Some(v) => Ok(v)
    case None => if env.streamCreated then Ok(NewStreamLastObject) else Err(StreamNotCreated(streamId))
  }

  /** The first fetch: without a plugin, from the members the constructor set. */
  function FirstFetch(defaults: string, env: Environment): Settings
  {
    Fetch(InitialSettings, defaults, PluginUndefined, env.pluginConfig, env.firstStore)
  }

  /** The second fetch: with the plugin the first one named. */
  function SecondFetch(defaults: string, env: Environment): Settings
  {
    var first := FirstFetch(defaults, env);
    Fetch(first, defaults, first.pluginName, env.pluginConfig, env.secondStore)
  }

  /** The steps after the plugin is loaded: the stream id, the last sent id and the filters. */
  function AfterLoad(second: Settings, env: Environment): (r: Result<(Settings, nat), StartError>)
    ensures r.Ok? ==> r.value.0.streamId != 0 && LoadFilters(env.filtersLoaded, env.filters, env.filterInit)
    ensures r.Ok? ==> r.value.0 == second.(streamId := r.value.0.streamId)
  {
    match AllocatedStream(second.streamId, env)
    case Err(e) => Err(e)
    case Ok(streamId) =>
      match LastSent(streamId, env)
      case Err(e) => Err(e)
      case Ok(lastSent) =>
        if !LoadFilters(env.filtersLoaded, env.filters, env.filterInit) then Err(FiltersFailed)
        else Ok((second.(streamId := streamId), lastSent))
  }

  /**
   * The constructor: a first fetch without a plugin, which must name one;
   * the plugin load; a second fetch with the plugin's entries; the stream
   * allocation; the last sent id; the filters.
   */
  function Startup(defaults: string, env: Environment): (r: Result<(Settings, nat), StartError>)
    ensures FirstFetch(defaults, env).pluginName == PluginUndefined ==> r == Err(PluginNotDefined)
    ensures FirstFetch(defaults, env).pluginName != PluginUndefined && env.library.None? ==>
              r == Err(PluginNotLoaded(FirstFetch(defaults, env).pluginName))
    ensures r.Ok? ==> env.library.Some? && r.value.0.streamId != 0 &&
                      LoadFilters(env.filtersLoaded, env.filters, env.filterInit)
  {
    var first := FirstFetch(defaults, env);
    if first.pluginName == PluginUndefined then Err(PluginNotDefined)
    else if env.library.None? then Err(PluginNotLoaded(first.pluginName))
    else AfterLoad(SecondFetch(defaults, env), env)
  }

  /**
   * A successful start keeps what the second fetch read, except a zero
   * stream id, which becomes the newly allocated one; the last sent id is
   * the stream's last_object, or 0 for a stream created now.
   */
  lemma StartupSettings(defaults: string, env: Environment)
    requires Startup(defaults, env).Ok?
    ensures var second := SecondFetch(defaults, env);
      var settings := Startup(defaults, env).value.0;
      settings == second.(streamId := settings.streamId) &&
      (second.streamId != 0 ==> settings.streamId == second.streamId) &&
      (second.streamId == 0 ==> settings.streamId == env.newStream && env.streamIdSaved)
    ensures Startup(defaults, env).value.1 ==
              if env.lastObject.Some? then env.lastObject.value else NewStreamLastObject
  {
    var second := SecondFetch(defaults, env);
    assert Startup(defaults, env) == AfterLoad(second, env);
    var streamId := AllocatedStream(second.streamId, env);
    assert streamId.Ok?;
    assert LastSent(streamId.value, env).Ok?;
  }

  /** A category without a "plugin" item stops the process before any plugin is loaded. */
  lemma NoPluginItemStops(defaults: string, env: Environment)
    requires !HasItem(env.firstStore.category, "plugin")
    ensures Startup(defaults, env) == Err(PluginNotDefined)
  {
  }

  // ---------------------------------------------------------------------
  // The process object

  /**
   * The reading sets a buffer holds, in slot order (the sets stop deletes):
   * one per non-NULL slot, so a single slot gives its set or nothing, and
   * the sets of a split buffer are those of each part, in order.
   */
  function Held(slots: seq<Option<ReadingSet>>): (r: seq<ReadingSet>)
    ensures |r| <= |slots|
    ensures forall s :: s in r <==> Some(s) in slots
    ensures |slots| == 1 ==> r == (if slots[0].Some? then [slots[0].value] else [])
    ensures |slots| > 1 ==>
      r == Held(slots[..|slots| - 1]) + (if slots[|slots| - 1].Some? then [slots[|slots| - 1].value] else [])
    decreases |slots|
  {
    var one := (slot: Option<ReadingSet>) => if slot.Some? then [slot.value] else [];
    FlatMapSplit(slots, one);
    if slots == [] then []
    else
      var rest := Held(slots[1..]);
      assert FlatMap(slots[1..], one) == rest;
      assert |slots| > 1 ==> FlatMap(slots[..|slots| - 1], one) == Held(slots[..|slots| - 1]);
      assert |slots| > 1 ==> FlatMap(slots[|slots| - 1..], one) == one(slots[|slots| - 1]);
      FlatMap(slots, one)
  }

  /** One more slot: its set, if any, comes last. */
  lemma HeldSnoc(slots: seq<Option<ReadingSet>>, slot: Option<ReadingSet>)
    ensures Held(slots + [slot]) == Held(slots) + (if slot.Some? then [slot.value] else [])
  {
    var all := slots + [slot];
    assert all[..|slots|] == slots && all[|slots|..] == [slot];
    if slots == [] {
      assert all == [slot];
    }
  }

  class SendingProcess {
    /** m_buffer: DATA_BUFFER_ELMS slots, each NULL or a reading set. */
    const buffer: array<Option<ReadingSet>>
    /** m_load_buffer_index: the slot useFilteredData writes. */
    var loadBufferIndex: nat
    var running: bool
    /**
     * The members fetchConfiguration sets (m_plugin_name, m_block_size,
     * m_sleep, m_duration, m_stream_id, m_data_source_t) and the static
     * globalConfiguration map it returns.
     */
    var settings: Settings
    var lastSentId: nat
    var sentReadings: nat
    var updateDb: bool
    /** The counter updates written so far: (stream id, last_object, statistics increment). */
    var counterUpdates: seq<(int, nat, nat)>
    var plugin: NorthPlugin?

    ghost predicate Valid()
      reads this
    {
      buffer.Length >= 1 && loadBufferIndex < buffer.Length
    }

    /** The buffer of elements NULL slots, the running state, and the counters at zero. */
    constructor (elements: nat)
      requires elements >= 1
      ensures Valid() && fresh(buffer) && buffer.Length == elements
      ensures forall i :: 0 <= i < elements ==> buffer[i].None?
      ensures settings == InitialSettings && loadBufferIndex == 0
      ensures running && lastSentId == 0 && sentReadings == 0 && !updateDb && counterUpdates == [] && plugin == null
    {
      buffer := new Option<ReadingSet>[elements](_ => None);
      loadBufferIndex := 0;
      running := true;
      settings := InitialSettings;
      lastSentId := 0;
      sentReadings := 0;
      updateDb := false;
      counterUpdates := [];
      plugin := null;
    }

    /** fetchConfiguration: the members move as Fetch says, and the global map is returned. */
    method FetchConfiguration(defaults: string, name: string, pluginConfig: map<string, string>, store: Store)
      returns (global: map<string, string>)
      modifies this
      ensures settings == Fetch(old(settings), defaults, name, pluginConfig, store)
      ensures global == settings.global
      ensures loadBufferIndex == old(loadBufferIndex) && running == old(running) && lastSentId == old(lastSentId)
      ensures sentReadings == old(sentReadings) && updateDb == old(updateDb)
      ensures counterUpdates == old(counterUpdates) && plugin == old(plugin)
    {
      settings := Fetch(settings, defaults, name, pluginConfig, store);
      global := settings.global;
    }

    /** setLoadBufferIndex. */
    method SetLoadBufferIndex(index: nat)
      requires Valid() && index < buffer.Length
      modifies this
      ensures Valid() && loadBufferIndex == index
      ensures settings == old(settings) && lastSentId == old(lastSentId) && running == old(running)
      ensures sentReadings == old(sentReadings) && updateDb == old(updateDb)
      ensures counterUpdates == old(counterUpdates) && plugin == old(plugin)
    {
      loadBufferIndex := index;
    }

    /** useFilteredData: the filtered set goes into the slot of the current load index. */
    method UseFilteredData(readings: ReadingSet)
      requires Valid()
      modifies buffer
      ensures buffer[loadBufferIndex] == Some(readings)
      ensures forall i :: 0 <= i < buffer.Length && i != loadBufferIndex ==> buffer[i] == old(buffer[i])
    {
      buffer[loadBufferIndex] := Some(readings);
    }

    /**
     * stop: the running flag drops, every set the buffer holds is deleted
     * (returned, in slot order; the slots themselves are not reset), and
     * then the plugin is shut down.
     */
    method Stop() returns (released: seq<ReadingSet>)
      requires Valid() && plugin != null && plugin.pluginShutdown.Some? && plugin.instance.Some?
      modifies this, plugin
      ensures !running && plugin == old(plugin) && buffer[..] == old(buffer[..])
      ensures released == Held(buffer[..])
      ensures plugin.instance == old(plugin.instance) && plugin.shutdowns == old(plugin.shutdowns) + [plugin.instance.value]
    {
      running := false;
      released := [];
      var i := 0;
      while i < buffer.Length
        invariant 0 <= i <= buffer.Length
        invariant released == Held(buffer[..i])
      {
        assert Held(buffer[..i + 1]) == Held(buffer[..i]) + (if buffer[i].Some? then [buffer[i].value] else []) by {
          assert buffer[..i + 1] == buffer[..i] + [buffer[i]];
          HeldSnoc(buffer[..i], buffer[i]);
        }
        if buffer[i].Some? {
          released := released + [buffer[i].value];
        }
        i := i + 1;
      }
      assert buffer[..i] == buffer[..];
      plugin.Shutdown();
    }
  }

  /**
   * The constructor as a whole: the process object exists exactly when
   * Startup succeeds, with the settings and last sent id Startup gives, an
   * empty buffer and the plugin initialised.
   */
  method Create(elements: nat, defaults: string, env: Environment)
    returns (p: SendingProcess?, err: Option<StartError>)
    requires elements >= 1
    requires env.library.Some? ==> env.library.value.pluginInit.Some?
    ensures p == null <==> Startup(defaults, env).Err?
    ensures p == null ==> err == Some(Startup(defaults, env).error)
    ensures p != null ==> err.None? && fresh(p) && fresh(p.buffer) && p.Valid() && p.buffer.Length == elements
    ensures p != null ==> p.settings == Startup(defaults, env).value.0 && p.lastSentId == Startup(defaults, env).value.1
    ensures p != null ==> forall i :: 0 <= i < p.buffer.Length ==> p.buffer[i].None?
    ensures p != null ==> p.plugin != null && fresh(p.plugin) && p.plugin.instance.Some?
  {
    var process := new SendingProcess(elements);
    err := Start(process, defaults, env);
    if err.Some? {
      return null, err;
    }
    return process, None;
  }

  /**
   * The constructor's steps on a new process object: the two fetches, the
   * plugin load and what AfterLoad says; the buffer is not touched.
   */
  method Start(process: SendingProcess, defaults: string, env: Environment) returns (err: Option<StartError>)
    requires process.Valid() && process.settings == InitialSettings && process.plugin == null
    requires env.library.Some? ==> env.library.value.pluginInit.Some?
    modifies process
    ensures process.Valid()
    ensures err.None? <==> Startup(defaults, env).Ok?
    ensures err.Some? ==> err == Some(Startup(defaults, env).error)
    ensures err.None? ==> process.settings == Startup(defaults, env).value.0 && process.lastSentId == Startup(defaults, env).value.1
    ensures err.None? ==> process.plugin != null && fresh(process.plugin) && process.plugin.instance.Some?
  {
    var _ := process.FetchConfiguration(defaults, PluginUndefined, env.pluginConfig, env.firstStore);
    assert process.settings == FirstFetch(defaults, env);
    if process.settings.pluginName == PluginUndefined {
      return Some(PluginNotDefined);
    }
    if env.library.None? {
      return Some(PluginNotLoaded(process.settings.pluginName));
    }
    var plugin := new NorthPlugin(env.library.value);
    process.plugin := plugin;
    var _ := process.FetchConfiguration(defaults, process.settings.pluginName, env.pluginConfig, env.secondStore);
    assert process.settings == SecondFetch(defaults, env);
    assert Startup(defaults, env) == AfterLoad(SecondFetch(defaults, env), env);
    err := FinishStart(process, plugin, env);
  }

  /**
   * The constructor after the second fetch: the stream allocation, the
   * plugin's init, the last sent id and the filters, as AfterLoad says.
   */
  method FinishStart(process: SendingProcess, plugin: NorthPlugin, env: Environment) returns (err: Option<StartError>)
    requires process.Valid() && plugin.pluginInit.Some?
    modifies process, plugin
    ensures var r := AfterLoad(old(process.settings), env);
      (err.None? <==> r.Ok?) && (r.Err? ==> err == Some(r.error)) &&
      (r.Ok? ==> process.settings == r.value.0 && process.lastSentId == r.value.1 && plugin.instance.Some?)
    ensures process.Valid() && process.plugin == old(process.plugin)
  {
    if process.settings.streamId == 0 {
      if env.newStream == 0 {
        return Some(NoNewStream);
      }
      process.settings := process.settings.(streamId := env.newStream);
      if !env.streamIdSaved {
        return Some(StreamIdNotSaved);
      }
    }
    var _ := plugin.Init(env.secondStore.category);
    match env.lastObject {
      case Some(v) =>
        process.lastSentId := v;
      case None =>
        if !env.streamCreated {
          return Some(StreamNotCreated(process.settings.streamId));
        }
        process.lastSentId := NewStreamLastObject;
    }
    if !env.filtersLoaded {
      return Some(FiltersFailed);
    }
    if |env.filters| != 0 {
      var ok, _, _, _ := SetupFiltersPipeline(env.filters, env.filterInit);
      if !ok {
        return Some(FiltersFailed);
      }
    }
    return None;
  }
}
