# FogLAMP core, modelled in Dafny

This project models the sequential rules at the heart of FogLAMP's
north-bound export path, together with some of its south-side and
scheduling logic. Each core source file has one Dafny module with the
same structure:

- `config_category.dfy`: configuration categories (`C/common/config_category.cpp`).
  An item is built from one JSON member. Its type tag is inferred from the
  kinds of "value" and "default", and "default" wins. The category has by-name
  accessors (the first match answers), `setItemsValueFromDefault`,
  `checkDefaultValuesOnly`, `addItem`, copy and `operator=` (which appends),
  the two JSON renderings, and the `escape` / `unescape` loops.
- `pi_server.dfy`, `thingspeak.dfy`: the `plugin_init` of the PI_Server and
  ThingSpeak north plugins. This covers the item checks in their order, the
  size_t URL split with `find` / `substr`, the sender choice by scheme, the
  fields loop, `plugin_extra_config` and `plugin_shutdown`.
- `omf_north.dfy`, `ocs_north.dfy`: the OMF Python north plugin and its OCS
  variant. This covers:
  - the type, container and data payload builders and the container id;
  - `create_omf_data`;
  - `send_to_pi`'s retry loop with doubling sleeps, over a sequence of
    transport outcomes;
  - `plugin_send`'s result;
  - the OCS `plugin_init` checks and `_create_omf_type_automatic`.
- `north_plugin.dfy`, `get_plugin_info.dfy`: the north plugin facade over
  resolved entry points, and the `get_plugin_info` utility's decision table.
- `sending.dfy`, `sending_process.dfy`: the north sending process. This
  covers configuration assembly and fallbacks, the constructor's start-up
  decisions, the filter pipeline wiring, and the ring buffer shared by the
  load and send loops, each loop body being one step method on a class.
- `ingest.dfy`: the south ingest queue, its counters, the asset tracking
  cache and the statistics reset rule.
- `scheduler.dfy`: `start_task` admission, the first and next start of
  interval and startup schedules in integer seconds, the schedule scan and
  the task counters.
- `plugin_discovery.dfy`, `api_utils.dfy`, `statistics_db.dfy`: plugin
  folder filtering and list ordering, C plugin library name derivation and
  file search, and the folding of statistics rows into results and
  history runs.
- `common.dfy`, `json.dfy`: shared models of std::string `find` / `substr`
  with size_t wrap-around, `atoi`, `strtoul`, decimal text, Python slicing
  and `str.replace`. They also hold a JSON value type, the rapidjson
  writer's compact text, and Python dict assignment and merging.

Networking, storage, dynamic loading and the file system are parameters:
either an outcome sequence or a function giving what the service answers.

## Model

| member | source | states |
|---|---|---|
| ApiUtils.PathJoin | python/foglamp/services/core/api/utils.py:31 | os.path.join of a directory and a file name puts exactly one "/" between them when the directory does not end in one |
| ApiUtils.PluginSubtrees | python/foglamp/services/core/api/utils.py:48-51 | a path is searched exactly when it is <dir>/<direction> for a walked directory whose name contains "plugins" |
| ApiUtils.FileLibs | python/foglamp/services/core/api/utils.py:53-57 | the names of one directory's files: one per ".so" file, in file order; a split file list gives the names of each part, concatenated |
| ApiUtils.LibsIn | python/foglamp/services/core/api/utils.py:52-57 | a name is collected exactly when it is derived from some walked file ending in ".so"; a split walk gives the names of each part, in walk order, duplicates kept |
| ApiUtils.FindCPluginLibs | python/foglamp/services/core/api/utils.py:44-58 | find_c_plugin_libs returns exactly the names derived from the ".so" files of the searched subtrees, subtree after subtree in walk order |
| ApiUtils.LibsUnder | python/foglamp/services/core/api/utils.py:48-57 | the names found under a list of subtrees: those of each subtree's walk, concatenated in subtree order |
| ApiUtils.FindCPluginLibsDuplicates | python/foglamp/services/core/api/utils.py:44-58 | a library name found in two different searched subtrees is listed at least twice, the duplicate the FIXME reports |
| ApiUtils.FindFile | python/foglamp/services/core/api/utils.py:27-32 | the walk stops at the first file, in walk order, whose name matches, and returns its joined path; None exactly when no file matches |
| ApiUtils.FindCLib | python/foglamp/services/core/api/utils.py:26-32 | _find_c_lib finds a path exactly when some walked file name ends with name + ".so" |
| ApiUtils.FindCUtil | python/foglamp/services/core/api/utils.py:35-41 | _find_c_util finds a path exactly when some walked file is named exactly name |
| ApiUtils.LibName | python/foglamp/services/core/api/utils.py:57 | the derived plugin name is never longer than the file name; its value for lib<stem>.so is stated by ApiUtils.LibNameOfLibrary |
| ApiUtils.GetPluginInfo | python/foglamp/services/core/api/utils.py:10-23 | {} when the utility or the library is not found, the run fails or its output does not parse; otherwise exactly the parse of the utility's output for the found utility and library |
| ApiUtils.LibNameOfLibrary | python/foglamp/services/core/api/utils.py:57 | a library file lib<stem>.so gives back stem (libdummy.so gives dummy) |
| GetPluginInfo.Execute | C/plugins/utils/get_plugin_info.cpp:32-102 | fewer than two arguments: usage and exit 1, checked first; an unreadable library: exit 2 before loading; a failed dlopen: a diagnostic and exit 0; a missing symbol: exit 3 and nothing on stdout; a clean exit 0 prints exactly one line |
| GetPluginInfo.ExitStatusZero | C/plugins/utils/get_plugin_info.cpp:36-101 | the exit status is 0 exactly when there are enough arguments, the library is readable, and the symbol is found or dlopen fails |
| GetPluginInfo.FoundSymbolOutput | C/plugins/utils/get_plugin_info.cpp:64-94 | a found symbol writes nothing on stderr and one line on stdout: the information block for plugin_info, the categories line for plugin_extra_config, a diagnostic line for any other name |
| GetPluginInfo.Categories | C/plugins/utils/get_plugin_info.cpp:80-85 | the categories document is never empty and is the plugin's own document whenever that is non-empty |
| GetPluginInfo.EmptyExtraConfig | C/plugins/utils/get_plugin_info.cpp:80-89 | a NULL or empty extra configuration prints the same line as the document "{}" |
| PluginDiscovery.Path | python/foglamp/common/plugin_discovery.py:98-101 | a chain of subscripts: the value itself for no keys, and a failure (the KeyError or TypeError Python raises) when a non-dict is subscripted |
| PluginDiscovery.FolderNames | python/foglamp/common/plugin_discovery.py:58-59 | a name is kept exactly when its entry is a directory not starting with "__" and neither "empty" nor "common" |
| PluginDiscovery.FolderNamesAppend | python/foglamp/common/plugin_discovery.py:58-59 | the filter keeps listing order: the folders of a split listing are the folders of each part, in order |
| PluginDiscovery.GetPluginFolders | python/foglamp/common/plugin_discovery.py:53-63 | as written: None exactly when listing the directory raised FileNotFoundError, otherwise the filtered folders |
| PluginDiscovery.GetPluginFoldersIntended | python/foglamp/common/plugin_discovery.py:53-63 | as intended: an empty list for a missing directory, and otherwise the same folders as the code as written |
| PluginDiscovery.ModuleName | python/foglamp/common/plugin_discovery.py:86-92 | the imported module is <package>.<dir>.<dir>, with the south package exactly for type "south" and the north package for any other type |
| PluginDiscovery.GetPluginConfig | python/foglamp/common/plugin_discovery.py:84-108 | None when the import fails; a configuration exactly when config.plugin.default, type, config.plugin.description and version are all present, and then it holds those four values |
| PluginDiscovery.FetchConfigs | python/foglamp/common/plugin_discovery.py:46-51 | a configuration is collected exactly when some folder reports it; one folder gives its configuration or nothing, and a split folder list gives the configurations of each part, in folder order |
| PluginDiscovery.FetchConfigsAppend | python/foglamp/common/plugin_discovery.py:46-51 | collecting over two folder lists one after the other is collecting over each and concatenating, in that order |
| PluginDiscovery.FetchConfigsAppendAll | python/foglamp/common/plugin_discovery.py:44-51 | the configurations of a split directory listing are those of each part's plugin folders, in listing order |
| PluginDiscovery.FetchConfigsLength | python/foglamp/common/plugin_discovery.py:46-51 | at most one configuration per folder |
| PluginDiscovery.FetchPluginsInstalledAsWritten | python/foglamp/common/plugin_discovery.py:43-51 | as written: a missing directory makes the loop iterate over None and raise TypeError; otherwise the result is that of the corrected definition |
| PluginDiscovery.FetchPluginsInstalled | python/foglamp/common/plugin_discovery.py:43-51 | corrected: none for a missing directory; a configuration is listed exactly when some plugin folder reports it; one entry gives its configuration or nothing, and a split listing gives those of each part, in listing order |
| PluginDiscovery.CPluginConfig | python/foglamp/common/plugin_discovery.py:71-80 | falsy information gives no entry; an entry exists exactly when the information is truthy and has config.plugin.description and version, and it carries the library name, the requested type and those two values |
| PluginDiscovery.FetchCPluginsInstalled | python/foglamp/common/plugin_discovery.py:65-82 | an entry is listed exactly when some library's information yields it; every entry carries the requested type and one library's name; a split library list gives the entries of each part, in library order |
| PluginDiscovery.CPluginsOfType | python/foglamp/common/plugin_discovery.py:66-82 | over the libraries find_c_plugin_libs finds and what get_plugin_info reports: every entry has the requested type and a found library's name, and every complete, truthy library is listed |
| PluginDiscovery.PythonPlugins | python/foglamp/common/plugin_discovery.py:43-51 | the Python plugins of a type, over the installation's directory listing: none for a missing directory, and exactly the configurations its plugin folders report |
| PluginDiscovery.CPlugins | python/foglamp/common/plugin_discovery.py:65-82 | the C plugins of a type, over the installation: exactly the entries that the libraries find_c_plugin_libs finds yield from what get_plugin_info reports |
| PluginDiscovery.GetPluginsInstalled | python/foglamp/common/plugin_discovery.py:26-41 | a typed list is the Python plugins followed by the C plugins; without a type it is the north list followed by the south list |
| PluginDiscovery.AllPluginsNorthThenSouth | python/foglamp/common/plugin_discovery.py:26-41 | without a type the list is the north list followed by the south list, and a typed list starts with that type's Python plugins, before its C plugins |
| PluginDiscovery.MissingDirectory | python/foglamp/common/plugin_discovery.py:45-63 | a missing plugin directory: the code as written raises TypeError, while the corrected definition lists no Python plugins, so a typed listing is the C plugins alone |
| StatisticsDb.ReadStatistics | src/python/foglamp/core/statistics_db_services.py:21-45 | the loop builds the dict in which every row's key, in turn, is set to its value |
| StatisticsDb.StatisticsResult | src/python/foglamp/core/statistics_db_services.py:38-41 | the statistics dict has exactly the keys of the rows, each with the value of the last row that has it |
| StatisticsDb.LastValuesKeys | src/python/foglamp/core/statistics_db_services.py:41 | a dict built by successive updates holds exactly the keys of its pairs |
| StatisticsDb.LastValuesValue | src/python/foglamp/core/statistics_db_services.py:41 | under successive updates a key keeps the value of the last pair that has it |
| StatisticsDb.HistoryFetch | src/python/foglamp/core/statistics_db_services.py:49-60 | the query carries " LIMIT $1" and the limit as its parameter exactly for a truthy limit, and has no LIMIT and no parameter otherwise |
| StatisticsDb.Runs | src/python/foglamp/core/statistics_db_services.py:72-81 | the groups of consecutive rows sharing history_ts: none is empty, and there are none exactly when there are no rows |
| StatisticsDb.RunsFlatten | src/python/foglamp/core/statistics_db_services.py:72-81 | together the groups are the rows, in order: no row is lost, repeated or moved |
| StatisticsDb.RunsShape | src/python/foglamp/core/statistics_db_services.py:73-77 | the rows of a group share one history_ts and neighbouring groups differ in it, so the groups are maximal |
| StatisticsDb.RunsSnoc | src/python/foglamp/core/statistics_db_services.py:73-80 | a row recorded at the time of the last row joins the last group; any other row starts a group of its own |
| StatisticsDb.ReadStatisticsHistory | src/python/foglamp/core/statistics_db_services.py:47-88 | one entry per group, each the group's time with the dict its rows build; without rows the single leftover entry {None: {}} |
| StatisticsDb.RunEntries | src/python/foglamp/core/statistics_db_services.py:72-84 | each entry is at its group's time and holds exactly the keys of the group's rows, with the value of the last row for each key; neighbouring entries differ in time |
| Scheduler.CeilDiv | src/python/foglamp/core/scheduler.py:609-610 | math.ceil of the quotient: the least whole number of divisors that reaches the dividend |
| Scheduler.Steps | src/python/foglamp/core/scheduler.py:609-655 | max(1, ceil(elapsed / repeat)): at least one interval, enough to reach the current time, and no more than needed |
| Scheduler.Advance | src/python/foglamp/core/scheduler.py:606-655 | a zero repeat advances by 0; a positive one by a whole number of intervals, at least one, that reaches the current time, and the least such |
| Scheduler.FirstStart | src/python/foglamp/core/scheduler.py:588-619 | corrected: an interval schedule starts an adjusted interval after the current time (at the current time for a zero interval, TypeError exactly for a NULL one), a startup schedule at the current time, and a manual schedule keeps its start, None included |
| Scheduler.FirstStartAsWritten | src/python/foglamp/core/scheduler.py:599-623 | as written: the same start wherever it is set, and TypeError wherever the corrected rule raises or leaves the start None, which is always the case for a manual schedule without a next start |
| Scheduler.ManualWithoutStartRaises | src/python/foglamp/core/scheduler.py:599-623 | a manual schedule with no next start: the log line's fromtimestamp(None) raises TypeError, where the corrected rule keeps None |
| Scheduler.ScheduleNext | src/python/foglamp/core/scheduler.py:625-678 | paused or without an interval: no next start and False; an exclusive schedule started by hand before its time keeps it; otherwise True, and a positive interval moves the start forward past the current time by whole intervals; TypeError exactly when the start is None and must be compared or advanced |
| Scheduler.Earlier | src/python/foglamp/core/scheduler.py:543-545 | the running minimum of the next starts, ignoring None |
| Scheduler.Scheduler.constructor | src/python/foglamp/core/scheduler.py:225-237 | an unpaused scheduler with no schedules, no executions and no active tasks |
| Scheduler.Scheduler.StartTask | src/python/foglamp/core/scheduler.py:432-481 | PausedError, ScheduleNotFoundError, TaskQueuedError and TaskRunningError in that order of checks; otherwise only the schedule's execution changes, created if absent and marked to start now |
| Scheduler.Scheduler.ScheduleFirstTask | src/python/foglamp/core/scheduler.py:588-623 | corrected: the execution exists afterwards, and only its next start changes, as the corrected first-start rule says, or it is left as it was when that raises; a manual schedule without a start therefore keeps None here instead of raising the TypeError of the log line (see Scheduler.ManualWithoutStartRaises) |
| Scheduler.Scheduler.ScheduleNextTask | src/python/foglamp/core/scheduler.py:625-678 | only the execution's next start changes, as the next-start rule says, and the result says whether one was computed |
| Scheduler.Scheduler.StartTaskProcess | src/python/foglamp/core/scheduler.py:299-355 | PausedError while paused; otherwise a fresh task id, and the active task count and the schedule's running tasks grow exactly when the process starts; a failed spawn is IOError and leaves the count as it was |
| Scheduler.Scheduler.OnTaskCompletionAsWritten | src/python/foglamp/core/scheduler.py:357-395 | as written: the active task count drops unless it is 0, then the condition raises AttributeError and the finished task stays among the running tasks |
| Scheduler.Scheduler.OnTaskCompletion | src/python/foglamp/core/scheduler.py:357-395 | corrected: the execution is removed for the last task while paused or for a non-repeating schedule with no queued start; otherwise the task leaves the running tasks and an exclusive schedule's next start moves as the next-start rule says |
| Scheduler.Scheduler.CheckOne | src/python/foglamp/core/scheduler.py:492-545 | one key of the scan: unknown or busy exclusive schedules are skipped unchanged, a None next start raises TypeError; a due or queued schedule clears its queued flag and starts a task (the task counter grows, the active count and the execution's tasks grow exactly when the spawn succeeds, a failed spawn with no tasks left drops the execution); the start kept is the old one for a queued run, the next start for a non-exclusive due run and None for an exclusive one; no other key's execution changes |
| Scheduler.Scheduler.CheckSchedules | src/python/foglamp/core/scheduler.py:483-547 | nothing happens while paused; otherwise the first TypeError of the scan, in key order, is raised, and failing that the result is the least of the starts kept over the executions as they were before the scan (None exactly when none is kept), never earlier than now when no interval is 0; keys not scanned are unchanged and busy schedules are left as they were |
| Scheduler.KeptStartsErrPrefix | src/python/foglamp/core/scheduler.py:488-547 | once a prefix of the keys raises, the scan's outcome is that error, whatever keys follow |
| SouthIngest.UpperChar | C/services/south/ingest.cpp:190 | toupper in the C locale: a lower-case ASCII letter becomes its capital, any other character is unchanged |
| SouthIngest.Upper | C/services/south/ingest.cpp:190 | the upper-casing loop changes each character in place and keeps the length |
| SouthIngest.IngestKey | C/services/south/ingest.cpp:189-190 | the asset's statistics key is "INGEST_" followed by the asset name, character by character upper-cased |
| SouthIngest.IngestKeyIgnoresCase | C/services/south/ingest.cpp:189-190 | asset names that differ only in letter case share one statistics row |
| SouthIngest.Ingest.constructor | C/services/south/ingest.cpp:265-291 | an empty queue, both counters at 0, the asset name "unknown", and the cache holding exactly this plugin's "Ingest" tuples the management service returned (empty when the call throws) |
| SouthIngest.Ingest.PopulateAssetTrackingCache | C/services/south/ingest.cpp:36-58 | the cache gains exactly the returned tuples whose plugin is this one and whose event is "Ingest"; nothing else changes, and a throwing call changes nothing |
| SouthIngest.Ingest.AddAssetTrackingTuple | C/services/south/ingest.cpp:66-99 | a cached tuple is left alone; a new one is cached exactly when the management service stored it |
| SouthIngest.Ingest.IngestReading | C/services/south/ingest.cpp:332-339 | the reading joins the end of the queue and nothing else changes; the queue is signalled exactly when it has reached the threshold |
| SouthIngest.Ingest.ProcessQueue | C/services/south/ingest.cpp:359-466 | the queue is handed over whole and left empty; the first reading names the asset; every untracked asset of the batch is offered for tracking; what the filters leave is counted as discarded when a non-empty append fails and as new (and stored) otherwise, so the two counters together grow by exactly the batch size |
| SouthIngest.Ingest.UpdateStats | C/services/south/ingest.cpp:168-251 | nothing happens with both counters at 0; a counter either keeps its value or returns to 0, and it returns to 0 exactly when its last update returned a non-negative result and no earlier update threw |
| Sending.MergedConfigText | C/tasks/north/sending_process/sending.cpp:527-536 | the category text is "{ ", then the plugin's "PLUGIN" entry and ", " only when a plugin is named, then the process defaults, then " }" |
| Sending.StreamIdOf | C/tasks/north/sending_process/sending.cpp:600-630 | the stream id is atoi of the "streamId" item, and 0 when the item is missing |
| Sending.PluginNameOf | C/tasks/north/sending_process/sending.cpp:613-622 | the plugin name is the "plugin" item, and the undefined name when the item is missing |
| Sending.UpdatedGlobal | C/tasks/north/sending_process/sending.cpp:642-646 | the global map gets the category's items under GLOBAL_CONFIGURATION and the types category's under OMF_TYPES when it was read; every other key keeps its value |
| Sending.ReadRequired | C/tasks/north/sending_process/sending.cpp:596-630 | once blockSize, duration and sleepInterval are present, the plugin name and stream id are read from the category and the data source and global map are untouched |
| Sending.Fetch | C/tasks/north/sending_process/sending.cpp:519-659 | a refused category, a refused types category or a missing required item is caught before any member is set, so nothing changes; otherwise the plugin name and stream id are read from the category |
| Sending.FetchReadsNumbers | C/tasks/north/sending_process/sending.cpp:596-629 | a fetch past the required items sets block size, sleep interval and duration with strtoul of their items |
| Sending.FetchWithoutSource | C/tasks/north/sending_process/sending.cpp:632-658 | a missing "source" item throws after the numbers are set, leaving the data source and the global map as they were |
| Sending.FetchWithSource | C/tasks/north/sending_process/sending.cpp:632-649 | with a "source" item the fetch completes: the data source is read and the global map updated, OMF_TYPES only when the types were read under the name passed in and the category's "plugin" item still names a plugin (the second start-up call passes m_plugin_name by reference, reassigned before the write) |
| Sending.FetchWithoutPluginItemKeepsTypes | C/tasks/north/sending_process/sending.cpp:614-646 | a category without a "plugin" item makes the name undefined and leaves OMF_TYPES in the global map as it was, even when the types category was created and read |
| Sending.FetchWritesTypes | C/tasks/north/sending_process/sending.cpp:583-646 | types read under a named plugin, with the category still naming one, are written under OMF_TYPES |
| Sending.OutputFor | C/tasks/north/sending_process/sending.cpp:804-822 | every filter but the last is initialised with the next filter as its output, the last with the load buffer index |
| Sending.FirstInitFailureFrom | C/tasks/north/sending_process/sending.cpp:783-829 | the first filter from a position on whose init fails: every filter before it initialised; None when all do |
| Sending.FirstInitFailure | C/tasks/north/sending_process/sending.cpp:783-829 | None exactly when every filter initialises; otherwise the first filter whose init fails, every one before it having initialised |
| Sending.SetupFiltersPipeline | C/tasks/north/sending_process/sending.cpp:778-842 | the result is true exactly when every init succeeds; filters are registered and initialised in order, each with its output, up to and including the first failing one, whose name ends the error message |
| Sending.FirstFailureSkips | C/tasks/north/sending_process/sending.cpp:783-829 | when every filter before a position initialises, the first failure overall is the first from that position |
| Sending.LoadFilters | C/tasks/north/sending_process/sending.cpp:669-688 | true exactly when loading succeeds and there are no filters or every filter's init succeeds |
| Sending.AllocatedStream | C/tasks/north/sending_process/sending.cpp:160-207 | a non-zero stream id is kept; a zero one is replaced by a newly created stream, failing when creation returns 0 or the id cannot be saved; a successful result is never 0 |
| Sending.LastSent | C/tasks/north/sending_process/sending.cpp:397-433 | the last sent id is the stream row's last_object, or 0 for a stream created now; no row and no creation fails |
| Sending.AfterLoad | C/tasks/north/sending_process/sending.cpp:155-242 | a successful start after the load has a non-zero stream id, filters that loaded, and otherwise the settings of the second fetch |
| Sending.Startup | C/tasks/north/sending_process/sending.cpp:88-243 | no plugin named by the first fetch stops the start, so does a plugin that does not load; a successful start has a loaded plugin, a non-zero stream id and working filters |
| Sending.StartupSettings | C/tasks/north/sending_process/sending.cpp:155-226 | a successful start keeps what the second fetch read, except that a zero stream id becomes the newly allocated one; the last sent id is the stream's last_object or 0 for a new stream |
| Sending.NoPluginItemStops | C/tasks/north/sending_process/sending.cpp:128-140 | a category without a "plugin" item stops the process before any plugin is loaded |
| Sending.Held | C/tasks/north/sending_process/sending.cpp:321-328 | the sets stop deletes: exactly those of the non-NULL slots, in slot order |
| Sending.SendingProcess.constructor | C/tasks/north/sending_process/sending.cpp:88-120 | a buffer of NULL slots, the running state, stream id -1, no plugin name, no plugin and counters at 0 |
| Sending.SendingProcess.FetchConfiguration | C/tasks/north/sending_process/sending.cpp:519-659 | the members move as the fetch rule says (OMF_TYPES written under the name the category holds after the fetch, since the member is passed by reference) and the global map is returned; nothing else changes |
| Sending.SendingProcess.SetLoadBufferIndex | C/tasks/north/sending_process/sending.cpp:736-739 | only the load buffer index changes |
| Sending.SendingProcess.UseFilteredData | C/tasks/north/sending_process/sending.cpp:703-709 | the filtered set is stored in the slot of the current load index and every other slot is unchanged |
| Sending.SendingProcess.Stop | C/tasks/north/sending_process/sending.cpp:311-340 | the running flag drops, every set held in the buffer is released in slot order, and the plugin is shut down once |
| Sending.Create | C/tasks/north/sending_process/sending.cpp:88-243 | the process exists exactly when the start-up rule succeeds, with its settings and last sent id, an empty buffer and an initialised plugin; otherwise the start-up error is raised |
| Sending.Start | C/tasks/north/sending_process/sending.cpp:128-242 | on a fresh process: it starts exactly when the start-up rule succeeds, and then holds that rule's settings and last sent id and a fresh, initialised plugin; otherwise the start-up error is returned |
| Sending.FinishStart | C/tasks/north/sending_process/sending.cpp:160-242 | after the second fetch the stream, the plugin's init, the last sent id and the filters succeed or fail exactly as the after-load rule says |
| SendingThreads.FetchRequest | C/tasks/north/sending_process/sending_process.cpp:148-197 | the "statistics" source queries statistics_history for ids after the last sent one, limited to the block size; any other source fetches a block of readings from the last sent id plus one, wrapping to 0 at the size_t limit |
| SendingThreads.Wrapped | C/tasks/north/sending_process/sending_process.cpp:120-123 | the slot used is always inside the buffer: the index itself, or 0 once it has reached the end |
| SendingThreads.LoadThread.constructor | C/tasks/north/sending_process/sending_process.cpp:116 | readIdx starts at 0 |
| SendingThreads.LoadThread.Step | C/tasks/north/sending_process/sending_process.cpp:114-277 | only the slot at readIdx (wrapped) may change; a full slot makes the thread wait; a non-empty fetch sets the last sent id to the set's last id and fills the slot, through the filters when there are any, and readIdx moves on; an empty or failed fetch changes nothing and sleeps TASK_FETCH_SLEEP |
| SendingThreads.SendThread.constructor | C/tasks/north/sending_process/sending_process.cpp:286-287 | sendIdx and totSent start at 0 |
| SendingThreads.SendThread.Flush | C/tasks/north/sending_process/sending_process.cpp:294-343 | with updateDb set, one counter update (stream id, last sent id, sent readings) is written, totSent takes the sent readings and both flags reset; otherwise nothing changes; every set sent stays counted exactly once |
| SendingThreads.SendThread.Step | C/tasks/north/sending_process/sending_process.cpp:284-418 | only the slot at sendIdx (wrapped) may change; an empty slot flushes the counters and waits; a held set is sent with the fixed count 500, its slot cleared, updateDb set and sendIdx moved on; the counters keep accounting for every set sent |
| NorthPluginFacade.NorthPlugin.constructor | C/tasks/north/sending_process/north_plugin.cpp:22-39 | the five entry points are those the library resolves, and no instance exists yet |
| NorthPluginFacade.NorthPlugin.Init | C/tasks/north/sending_process/north_plugin.cpp:52-56 | the instance plugin_init returns is stored, and the answer is NULL exactly when that instance is NULL |
| NorthPluginFacade.NorthPlugin.Send | C/tasks/north/sending_process/north_plugin.cpp:64-67 | plugin_send receives the stored instance and the readings, and its count is returned unchanged |
| NorthPluginFacade.NorthPlugin.Info | C/tasks/north/sending_process/north_plugin.cpp:69-72 | the information is what plugin_info returns |
| NorthPluginFacade.NorthPlugin.ExtraConfig | C/tasks/north/sending_process/north_plugin.cpp:74-88 | the plugin's extra configuration document, or the shared empty string when the entry point is missing |
| NorthPluginFacade.NorthPlugin.Shutdown | C/tasks/north/sending_process/north_plugin.cpp:93-96 | plugin_shutdown is called once more, with the stored instance |
| NorthPluginFacade.Lifecycle | C/tasks/north/sending_process/north_plugin.cpp:52-96 | init, send and shutdown hand the plugin the one instance plugin_init returned |
| OmfNorth.CheckPropertyIff | python/foglamp/plugins/north/omf1_1/omf1_1.py:247-279 | check_property accepts exactly the dicts whose keys are all allowed and whose "type", if any, is boolean, integer, string, number or additionalProperties; "array" and "object" are always rejected, because their follow-up test looks inside the type string |
| OmfNorth.CheckProperty | python/foglamp/plugins/north/omf1_1/omf1_1.py:247-279 | an accepted property is a dict whose every key is one of the allowed keys |
| OmfNorth.OmfType.constructor | python/foglamp/plugins/north/omf1_1/omf1_1.py:243-245 | a payload holding only an empty "properties" dict |
| OmfNorth.OmfType.AddId | python/foglamp/plugins/north/omf1_1/omf1_1.py:281-283 | "id" is set and the rest of the payload is kept |
| OmfNorth.OmfType.AddVersion | python/foglamp/plugins/north/omf1_1/omf1_1.py:285-289 | "version" is set to the given version, or "1.0.0.0" when none is given |
| OmfNorth.OmfType.AddType | python/foglamp/plugins/north/omf1_1/omf1_1.py:291-293 | "type" is always "object", whatever the argument |
| OmfNorth.OmfType.AddClassification | python/foglamp/plugins/north/omf1_1/omf1_1.py:295-299 | "classification" becomes "dynamic" only for "dynamic" and "static" for anything else; no other key changes |
| OmfNorth.OmfType.AddProperty | python/foglamp/plugins/north/omf1_1/omf1_1.py:301-304 | an accepted property is stored under its name in "properties"; a rejected one leaves the payload unchanged; keys other than "properties" never change |
| OmfNorth.OmfContainer.constructor | python/foglamp/plugins/north/omf1_1/omf1_1.py:316-317 | an empty payload |
| OmfNorth.OmfContainer.AddId | python/foglamp/plugins/north/omf1_1/omf1_1.py:319-321 | "id" is set and the rest of the payload is kept |
| OmfNorth.OmfContainer.AddTypeId | python/foglamp/plugins/north/omf1_1/omf1_1.py:323-325 | "typeid" is set and the rest of the payload is kept |
| OmfNorth.OmfContainer.AddTypeVersion | python/foglamp/plugins/north/omf1_1/omf1_1.py:327-329 | "typeversion" is set and the rest of the payload is kept |
| OmfNorth.OmfContainer.AddName | python/foglamp/plugins/north/omf1_1/omf1_1.py:331-333 | "name" is set and the rest of the payload is kept |
| OmfNorth.OmfContainer.AddDescription | python/foglamp/plugins/north/omf1_1/omf1_1.py:335-337 | "description" is set and the rest of the payload is kept |
| OmfNorth.OmfContainer.AddTags | python/foglamp/plugins/north/omf1_1/omf1_1.py:339-343 | "tags" is set to the list of tags |
| OmfNorth.OmfContainer.AddMetadata | python/foglamp/plugins/north/omf1_1/omf1_1.py:345-348 | a dict is stored under "metadata"; anything else leaves the payload unchanged |
| OmfNorth.OmfContainer.AddIndexes | python/foglamp/plugins/north/omf1_1/omf1_1.py:350-354 | "indexes" is set to the list of indexes |
| OmfNorth.OmfData.constructor | python/foglamp/plugins/north/omf1_1/omf1_1.py:366-368 | a payload holding only an empty "values" list |
| OmfNorth.OmfData.AddContainerId | python/foglamp/plugins/north/omf1_1/omf1_1.py:370-372 | "containerid" is set and the rest of the payload is kept |
| OmfNorth.OmfData.AddTypeId | python/foglamp/plugins/north/omf1_1/omf1_1.py:374-376 | "typeid" is set and the rest of the payload is kept |
| OmfNorth.OmfData.AddTypeVersion | python/foglamp/plugins/north/omf1_1/omf1_1.py:378-380 | "typeversion" is set and the rest of the payload is kept |
| OmfNorth.OmfData.AddValues | python/foglamp/plugins/north/omf1_1/omf1_1.py:382-384 | the value is appended to the end of "values" and nothing else changes |
| OmfNorth.ContainerId | python/foglamp/plugins/north/omf1_1/omf1_1.py:449-453 | the container id is type-id, "_", the measurement prefix and the asset code with every space removed (no space at all in the asset part) |
| OmfNorth.SpaceFree | python/foglamp/plugins/north/omf1_1/omf1_1.py:451-453 | the asset code with its spaces filtered out holds no space |
| Common.ReplaceAllCharIsFilter | python/foglamp/plugins/north/omf1_1/omf1_1.py:451-453 | str.replace of a single character by "" keeps exactly the other characters, in order |
| OmfNorth.ContainerIdOfPlainCode | python/foglamp/plugins/north/omf1_1/omf1_1.py:451-453 | an asset code without spaces appears in its container id unchanged |
| OmfNorth.ContainerIdIgnoresSpaces | python/foglamp/plugins/north/omf1_1/omf1_1.py:451-453 | asset codes that differ only in their spaces share one container |
| OmfNorth.OmfTime | python/foglamp/plugins/north/omf1_1/omf1_1.py:652 | the time ends in "Z"; for a timestamp of at least 23 characters it is the date, "T" and the time of day to the millisecond, 24 characters in all |
| OmfNorth.RowValue | python/foglamp/plugins/north/omf1_1/omf1_1.py:651-654 | a row converts exactly when user_ts is a string and the reading a dict; the value dict has "Time" first, and each key holds the reading's value, which wins over "Time" on a clash |
| OmfNorth.DataMessage | python/foglamp/plugins/north/omf1_1/omf1_1.py:363-390 | a data message has the keys "values" then "containerid", holds the container id, and its "values" list is the one value dict |
| OmfNorth.BuildDataMessage | python/foglamp/plugins/north/omf1_1/omf1_1.py:655-657 | building an OmfData with a container id and one value gives exactly that data message |
| OmfNorth.Converted | python/foglamp/plugins/north/omf1_1/omf1_1.py:642-661 | the count of rows that convert: all of them when every row converts, none when none does |
| OmfNorth.Messages | python/foglamp/plugins/north/omf1_1/omf1_1.py:637-662 | one message per row that converts, so never more messages than rows, and one per row when all convert |
| OmfNorth.LastConvertedId | python/foglamp/plugins/north/omf1_1/omf1_1.py:639-658 | the id reported is that of the last row that converts, and 0 when none does |
| OmfNorth.ConvertStep | python/foglamp/plugins/north/omf1_1/omf1_1.py:642-661 | one more row adds its message and its id exactly when it converts |
| OmfNorth.FirstSuccess | python/foglamp/plugins/north/omf1_1/omf1_1.py:604-631 | the first attempt within the retries whose status starts with '2'; every earlier attempt failed; None when all failed |
| OmfNorth.FirstSuccessAt | python/foglamp/plugins/north/omf1_1/omf1_1.py:604-631 | an attempt that succeeds after failures only is the first success |
| OmfNorth.AllFailed | python/foglamp/plugins/north/omf1_1/omf1_1.py:604-631 | when every attempt fails there is no first success |
| OmfNorth.LastFetchFailure | python/foglamp/plugins/north/omf1_1/omf1_1.py:615-620 | the last attempt whose HTTP status raised RuntimeError, after which no attempt did; None when no attempt did |
| OmfNorth.LastFetchErrorStep | python/foglamp/plugins/north/omf1_1/omf1_1.py:617-624 | a RuntimeError replaces _error; any other exception leaves it as it was |
| OmfNorth.IntendedRaised | python/foglamp/plugins/north/omf1_1/omf1_1.py:617-635 | corrected: the error raised is the last attempt's own, a URLFetchError for a bad status and an Exception for anything else, never None |
| OmfNorth.StaleErrorRaised | python/foglamp/plugins/north/omf1_1/omf1_1.py:617-635 | as written: a bad status followed by a timeout raises the stale status error, and a timeout alone raises None |
| OmfNorth.AsWrittenRaised | python/foglamp/plugins/north/omf1_1/omf1_1.py:617-635 | as written: nothing is raised exactly when no attempt failed with a fetch error; otherwise the message of the last such failure is raised |
| OmfNorth.Doublings | python/foglamp/plugins/north/omf1_1/omf1_1.py:591-629 | the sleeps of failed attempts: the first is OMFRetrySleepTime and each one is twice the one before |
| OmfNorth.DoublingsStep | python/foglamp/plugins/north/omf1_1/omf1_1.py:627-629 | a failed attempt sleeps the current time and doubles it for the next |
| OmfNorth.SendRaised | python/foglamp/plugins/north/omf1_1/omf1_1.py:604-635 | send_to_pi raises exactly when there is at least one retry and every attempt fails |
| OmfNorth.RaisedAfterRetries | python/foglamp/plugins/north/omf1_1/omf1_1.py:617-635 | when every attempt fails, what is raised is the URLFetchError held in _error, or None when no attempt set it |
| OmfNorth.OmfNorthPlugin.constructor | python/foglamp/plugins/north/omf1_1/omf1_1.py:396-402 | the configuration is kept and no types have been created yet |
| OmfNorth.OmfNorthPlugin.SendToPi | python/foglamp/plugins/north/omf1_1/omf1_1.py:589-635 | the POST is tried until the first success or OMFMaxRetry attempts, with the doubling sleeps after each failure, and it raises exactly as the raise rule says |
| OmfNorth.OmfNorthPlugin.CreateOmfData | python/foglamp/plugins/north/omf1_1/omf1_1.py:637-662 | the loop yields the messages of the rows that convert, in order, and the id of the last of them |
| OmfNorth.OmfNorthPlugin.PluginSend | python/foglamp/plugins/north/omf1_1/omf1_1.py:181-229 | (True, last id, number of messages) exactly when the set-up stages and the send succeed, the count never above the number of rows; otherwise the first error is re-raised and forced recreation is switched off |
| OmfNorth.AllAttemptsFail | python/foglamp/plugins/north/omf1_1/omf1_1.py:604-635 | when every retry fails there is no success and, with at least one retry, send_to_pi raises |
| OmfNorth.NoRetries | python/foglamp/plugins/north/omf1_1/omf1_1.py:604-635 | with OMFMaxRetry below 1, no request is made and nothing is raised |
| OcsNorth.InitCheck | python/foglamp/plugins/north/ocs1_1/ocs1_1.py:156-203 | as written: a missing producerToken or type-id raises the "must be defined" error, and an item that is a dict always passes the comparison with "" |
| OcsNorth.IntendedInitCheck | python/foglamp/plugins/north/ocs1_1/ocs1_1.py:156-203 | corrected: the checks pass exactly when both items exist and neither value is the empty string; an empty producerToken value raises the "cannot be an empty string" error |
| OcsNorth.EmptyProducerTokenAccepted | python/foglamp/plugins/north/ocs1_1/ocs1_1.py:156-162 | an item whose value is "" passes the check as written and fails the intended one |
| OcsNorth.DefaultOf | python/foglamp/plugins/north/ocs1_1/ocs1_1.py:90-134 | a default exists exactly for the declared retry, sleep, timeout and format entries |
| OcsNorth.DeclaredDefaultsWellFormed | python/foglamp/plugins/north/ocs1_1/ocs1_1.py:90-187 | every integer entry's default is a non-empty run of digits that int() accepts; the retries default to 5, the timeout to 30, the formats to float64 and int32 |
| OcsNorth.IdsOfAsset | python/foglamp/plugins/north/ocs1_1/ocs1_1.py:287-291 | the static and dynamic ids share the prefix type-id "_" typename and never coincide |
| OcsNorth.DatapointProperty | python/foglamp/plugins/north/ocs1_1/ocs1_1.py:313-319 | a datapoint's property has its evaluated type; an integer carries formatInteger, a number formatNumber, and any other type nothing else |
| OcsNorth.DatapointPropertyAccepted | python/foglamp/plugins/north/ocs1_1/ocs1_1.py:313-320 | add_property keeps a datapoint's property exactly when its type is boolean, integer, string, number or additionalProperties |
| OcsNorth.StaticProperties | python/foglamp/plugins/north/ocs1_1/ocs1_1.py:301-303 | the static type is offered "Name" as a string index first, then each static data key as a string, in order |
| OcsNorth.DynamicProperties | python/foglamp/plugins/north/ocs1_1/ocs1_1.py:311-320 | the dynamic type is offered "Time" as a date-time index first, then each datapoint with its property, in order |
| OcsNorth.Accepted | python/foglamp/plugins/north/omf1_1/omf1_1.py:301-304 | the properties add_property keeps: only accepted ones, all of them when all are accepted |
| OcsNorth.LastAccepted | python/foglamp/plugins/north/omf1_1/omf1_1.py:301-304 | an accepted property not named again later is the one the properties dict ends with |
| OcsNorth.AddPropertyStep | python/foglamp/plugins/north/omf1_1/omf1_1.py:301-304 | one more add_property grows the properties dict by that property exactly when it is accepted |
| OcsNorth.StaticTypeProperty | python/foglamp/plugins/north/ocs1_1/ocs1_1.py:302-303 | every static data key ends up as a string property of the static type |
| OcsNorth.StaticNameIndex | python/foglamp/plugins/north/ocs1_1/ocs1_1.py:301 | "Name" is the static type's string index property unless static data redefines it |
| OcsNorth.DynamicTypeProperty | python/foglamp/plugins/north/ocs1_1/ocs1_1.py:312-320 | a datapoint of an allowed type ends up with the property its type selects |
| OcsNorth.DynamicTimeIndex | python/foglamp/plugins/north/ocs1_1/ocs1_1.py:311 | "Time" is the dynamic type's date-time index property unless a datapoint redefines it |
| OcsNorth.Header | python/foglamp/plugins/north/ocs1_1/ocs1_1.py:295-300 | the header holds the id, type "object", the classification, version "1.0.0.0" and empty properties |
| OcsNorth.TypeHeader | python/foglamp/plugins/north/ocs1_1/ocs1_1.py:295-310 | the chained builder calls give a fresh type with exactly that header and no properties |
| OcsNorth.BuildType | python/foglamp/plugins/north/ocs1_1/ocs1_1.py:295-320 | the payload has the header and, as properties, exactly the accepted ones of those offered, the last of a name winning |
| OcsNorth.CreateOmfTypeAutomatic | python/foglamp/plugins/north/ocs1_1/ocs1_1.py:286-335 | builds the static and dynamic types, records one new type with its ids, stores both payloads under the asset code, and raises exactly what the "type" send raises |
| PiServer.Protocol | C/plugins/north/PI_Server/plugin.cpp:165-166 | the protocol is a prefix of the URL: the text before the first ':', or the whole URL when it has none |
| PiServer.Remainder | C/plugins/north/PI_Server/plugin.cpp:165-168 | what follows the first ':' skipping three characters; with no ':' the size_t offset npos + 3 wraps to 2 |
| PiServer.SplitHost | C/plugins/north/PI_Server/plugin.cpp:169-174 | host, port and path of the text after the scheme; substr throws out_of_range exactly when the text holds no '/' |
| PiServer.SplitUrl | C/plugins/north/PI_Server/plugin.cpp:165-174 | the whole URL split; on success the protocol is a prefix of the URL |
| PiServer.RemainderOf | C/plugins/north/PI_Server/plugin.cpp:165-168 | for scheme://rest with no ':' in the scheme, the protocol is the scheme and the remainder is rest |
| PiServer.SplitHostOf | C/plugins/north/PI_Server/plugin.cpp:169-174 | host:port/path splits back into host, port and path when the host holds no ':' or '/' and the port no '/' |
| PiServer.SplitUrlOfParts | C/plugins/north/PI_Server/plugin.cpp:165-176 | a URL of the form scheme://host:port/path, like the default https://pi-server:5460/ingress/messages, splits back into exactly its four parts |
| PiServer.SplitUrlWithoutPath | C/plugins/north/PI_Server/plugin.cpp:172-174 | a URL with no '/' after the scheme makes plugin_init throw out_of_range |
| PiServer.SplitUrlWithoutPort | C/plugins/north/PI_Server/plugin.cpp:165-174 | a URL scheme://host/path with no port: the host is "host/path" up to the first ':', that is the whole text after the scheme, the port is the host and the path starts at the '/' |
| PiServer.UnsignedInt | C/plugins/north/PI_Server/plugin.cpp:140 | the atoi result converted to unsigned int is below 2^32 and unchanged when already in range |
| PiServer.Timeout | C/plugins/north/PI_Server/plugin.cpp:140 | the timeout is below 2^32; the decimal text of any unsigned int gives that number, and a negative atoi value down to -2^32 wraps by 2^32 |
| PiServer.ReadSettings | C/plugins/north/PI_Server/plugin.cpp:139-144 | succeeds exactly when URL, OMFHttpTimeout, producerToken, formatNumber and formatInteger all exist, each setting being that item's value (the timeout through atoi); otherwise the item-not-found error |
| PiServer.Connect | C/plugins/north/PI_Server/plugin.cpp:162-211 | throws exactly when the URL split throws; gives a handle exactly for protocol http or https, HTTPS only for https, bound to host:port with both timeouts, and the OMF settings path, type-id, producer token and both formats |
| PiServer.Init | C/plugins/north/PI_Server/plugin.cpp:134-223 | a missing setting throws; a missing OMF_TYPES.type-id returns NULL; otherwise the result of splitting the URL and choosing the sender |
| PiServer.InitOfUrl | C/plugins/north/PI_Server/plugin.cpp:134-211 | a complete category whose URL is http(s)://host:port/path yields a handle bound to host:port, secure exactly for https, with the OMF object on path and the configured type-id |
| PiServer.ConnectorInfo.constructor | C/plugins/north/PI_Server/plugin.cpp:106-110 | the handle holds the chosen sender and OMF settings and is not yet released |
| PiServer.PluginInit | C/plugins/north/PI_Server/plugin.cpp:134-223 | reports the error exactly when Init throws; returns a fresh handle exactly when Init describes one, holding its sender and OMF settings, and NULL otherwise |
| PiServer.PluginShutdown | C/plugins/north/PI_Server/plugin.cpp:242-253 | the handle is released once and its settings are left as they were |
| PiServer.TypeIdMemberBuilds | C/plugins/north/PI_Server/plugin.cpp:93-101 | the type-id entry of the extra category builds into a string item declared integer with default "0001" and no value |
| PiServer.PluginExtraConfig | C/plugins/north/PI_Server/plugin.cpp:124-127 | the extra configuration is an object whose only key is OMF_TYPES |
| PiServer.ExtraConfigTypeId | C/plugins/north/PI_Server/plugin.cpp:79-101 | built as a category, OMF_TYPES holds exactly the one type-id item |
| ThingSpeakPlugin.ThingSpeak.constructor | C/plugins/north/ThingSpeak/plugin.cpp:105 | the connection object holds the URL, channel and API key it was given, with no field yet and not connected |
| ThingSpeakPlugin.ThingSpeak.Connect | C/plugins/north/ThingSpeak/plugin.cpp:106 | the object is connected and its settings and fields are unchanged |
| ThingSpeakPlugin.ThingSpeak.AddField | C/plugins/north/ThingSpeak/plugin.cpp:126 | exactly one (asset, reading) pair is appended to the fields; nothing else changes |
| ThingSpeakPlugin.ReadSettings | C/plugins/north/ThingSpeak/plugin.cpp:86-103 | the first missing item among URL, channelId and fields throws, in that order; a missing write_api_key throws item-not-found; otherwise the URL, API key and fields text are those items' values |
| ThingSpeakPlugin.ChannelFromItem | C/plugins/north/ThingSpeak/plugin.cpp:97 | a channelId item holding the decimal text of a number gives exactly that channel |
| ThingSpeakPlugin.Elements | C/plugins/north/ThingSpeak/plugin.cpp:113-133 | a badly formed document throws; an object without "elements" throws; on success the elements are that member's array; any other shape trips a rapidjson assertion |
| ThingSpeakPlugin.FieldList | C/plugins/north/ThingSpeak/plugin.cpp:123-127 | defined exactly when every element has string asset and reading members, and then one field per element, in order |
| ThingSpeakPlugin.AddFields | C/plugins/north/ThingSpeak/plugin.cpp:123-127 | succeeds exactly when FieldList is defined, and then appends exactly its fields; the settings and the connection state are unchanged |
| ThingSpeakPlugin.Init | C/plugins/north/ThingSpeak/plugin.cpp:84-142 | the first failure among the item checks and the fields document is what plugin_init reports; on success the settings and the fields added |
| ThingSpeakPlugin.InitAddsEachElement | C/plugins/north/ThingSpeak/plugin.cpp:113-127 | a fields document whose elements each name a string asset and reading makes plugin_init add exactly those pairs, in order |
| ThingSpeakPlugin.PluginInit | C/plugins/north/ThingSpeak/plugin.cpp:84-142 | throws exactly what Init reports; otherwise returns a fresh, connected object holding Init's settings and fields |
| ConfigCategory.Escape | C/common/config_category.cpp:814-826 | the loop puts a backslash before every double quote of the subject, and only there |
| ConfigCategory.EscapeQuotesAppend | C/common/config_category.cpp:814-826 | escaping works character by character: escaping a concatenation concatenates the escaped parts |
| ConfigCategory.EscapeQuotesOfQuoteless | C/common/config_category.cpp:814-826 | text holding no double quote is left unchanged by escape |
| ConfigCategory.RemoveQuoteBackslashes | C/common/config_category.cpp:862-870 | the in-place loop turns each backslash-quote pair, read left to right, into a quote |
| ConfigCategory.DropOfPlain | C/common/config_category.cpp:862-870 | a prefix holding no backslash-quote pair, and not ending in a backslash before a quote, passes through the loop unchanged |
| ConfigCategory.Unescape | C/common/config_category.cpp:860-882 | the pairs removed, then one leading and one trailing double quote erased |
| ConfigCategory.DropQuoteBackslashesOfEscape | C/common/config_category.cpp:814-870 | the unescape loop undoes escape on every text |
| ConfigCategory.UnescapeOfEscape | C/common/config_category.cpp:814-882 | unescape(escape(s)) == s for every text that neither starts nor ends with a double quote |
| ConfigCategory.OptionalString | C/common/config_category.cpp:499-533 | an absent member reads as "", a string member as its text; any other kind trips the GetString assertion |
| ConfigCategory.ReadField | C/common/config_category.cpp:535-677 | an absent value or default is stored as "" with no tag; a JSON-tagged field is an object or text that parses to one; only a JSON-typed non-object that does not parse to an object, or a non-string under type boolean, fails |
| ConfigCategory.ReadFieldKinds | C/common/config_category.cpp:535-605 | the branches in the constructor's order: object or type JSON, then bool or type boolean, then string, double, other number; null and arrays are not recognised |
| ConfigCategory.MakeItem | C/common/config_category.cpp:491-498 | a member that is not an object throws ConfigMalformed, and only then; a built item carries the member's name |
| ConfigCategory.MakeItemTag | C/common/config_category.cpp:535-677 | the type tag comes from "default" when its kind is recognised, else from "value", else none is set; value and default hold the text their branch read |
| ConfigCategory.MakeItemFields | C/common/config_category.cpp:499-533 | type, description, order and readonly are the member's strings; the item builds exactly when those four and both fields read |
| ConfigCategory.WriterEscapeOfPlain | C/common/config_category.cpp:539-546 | for text without backslashes or control characters the JSON writer escapes exactly the double quotes, as escape does |
| ConfigCategory.JsonStringRecovered | C/common/config_category.cpp:539-546 | a JSON-typed string member written by the writer and unescaped gives back its text |
| ConfigCategory.JsonTypedStringField | C/common/config_category.cpp:535-563 | an item declared JSON whose field is a string holding a JSON object keeps that text and becomes a JSON item |
| ConfigCategory.JsonTypedStringRefused | C/common/config_category.cpp:548-561 | an item declared JSON whose string field does not parse as an object throws |
| ConfigCategory.FactorValueField | tests/unit/C/common/test_default_config_category.cpp:48-52 | the factor item's string value "101" reads as the string "101" |
| ConfigCategory.FactorDefaultField | tests/unit/C/common/test_default_config_category.cpp:48-52 | the factor item's default 100 reads as the number text "100", so the item is a number item |
| ConfigCategory.BuildItems | C/common/config_category.cpp:147-167 | succeeds exactly when every member builds, and then holds one item per member, in member order |
| ConfigCategory.BuildItemsFailsAt | C/common/config_category.cpp:147-167 | the first member that fails decides the error: an exception becomes ConfigMalformed, an assertion stays an assertion |
| ConfigCategory.ReadItems | C/common/config_category.cpp:147-167 | the loop's items and error are exactly those of BuildItems |
| ConfigCategory.ParseCategory | C/common/config_category.cpp:135-145 | a document that does not parse throws ConfigMalformed; a non-object document trips an assertion; otherwise the items of its members |
| ConfigCategory.IndexOfItem | C/common/config_category.cpp:254-264 | absent exactly when no item has the name; otherwise the first item carrying it |
| ConfigCategory.FirstItemUnique | C/common/config_category.cpp:254-264 | the first item carrying a name is unique |
| ConfigCategory.Lookup | C/common/config_category.cpp:273-283 | throws ConfigItemNotFound exactly when no item has the name; otherwise answers from the first item carrying it |
| ConfigCategory.ValueOf | C/common/config_category.cpp:273-283 | getValue: item-not-found exactly when absent, else the first matching item's value |
| ConfigCategory.LookupAfterAppend | C/common/config_category.cpp:198-208 | appending items never changes the answer for a name already present; for a new name the appended items answer |
| ConfigCategory.ValuesFromDefaults | C/common/config_category.cpp:213-219 | same length, and each item with its value replaced by its default and nothing else changed |
| ConfigCategory.ValueLookupAfterDefaults | C/common/config_category.cpp:213-219 | after setItemsValueFromDefault getValue answers what getDefault answered before |
| ConfigCategory.FirstWithValue | C/common/config_category.cpp:227-236 | absent exactly when every value is empty; otherwise the first item whose value is set |
| ConfigCategory.ItemToJsonReadBack | C/common/config_category.cpp:698-720 | reading the item text back gives its name, description and type, then value and default quoted for string and boolean items, and raw for JSON, number and double items, the raw value running up to the first `, "default" : ` (so a compact JSON object text with quotes reads back); an item without a tag is left open after its type |
| ConfigCategory.ItemToJsonReadBackOfObject | C/common/config_category.cpp:698-720 | a JSON item whose value is the object text {"a":"b"}, quotes included, reads back with that raw value and its default |
| ConfigCategory.ItemDefaultToJsonReadBack | C/common/config_category.cpp:725-767 | reading the defaults-only item text back gives its name, description and type, "order" and "readonly" exactly when they are set, and the default (absent for an item without a tag) |
| ConfigCategory.DefaultTextRecoversDefault | C/common/config_category.cpp:749-765 | for JSON, number and double items, reading the escapes back from the written default gives the default itself |
| ConfigCategory.ItemsToJson | C/common/config_category.cpp:466-482 | braces around the items; "{}" for none, the one item's JSON for one |
| ConfigCategory.DefaultItemsToJson | C/common/config_category.cpp:796-812 | braces around the items' defaults; "{}" for none, the one item's defaults-only JSON for one |
| ConfigCategory.ItemsToJsonSnoc | C/common/config_category.cpp:466-482 | an appended item shows up once more at the end, after ", ", and the rendering before it is unchanged |
| ConfigCategory.DefaultItemsToJsonSnoc | C/common/config_category.cpp:796-812 | the same for the defaults-only rendering |
| ConfigCategory.MatchingItemsJsonNone | C/common/config_category.cpp:834-849 | empty when no item has the name |
| ConfigCategory.MatchingItemsJsonOnly | C/common/config_category.cpp:834-849 | the item's JSON when exactly one item has the name |
| ConfigCategory.MatchingItemsJsonAppend | C/common/config_category.cpp:834-849 | the JSON of the items with the name, over two item lists one after the other, is that of each list concatenated: every matching item contributes its JSON, in item order, duplicates included |
| ConfigCategory.MatchingItemsJsonSplit | C/common/config_category.cpp:834-849 | the same at every split point of one item list |
| ConfigCategory.Category.constructor | C/common/config_category.cpp:135-168 | a category with the given name and items and an empty description |
| ConfigCategory.Category.Copy | C/common/config_category.cpp:173-182 | name, description and items equal to the original's |
| ConfigCategory.Category.Parse | C/common/config_category.cpp:135-168 | a fresh category exactly when ParseCategory succeeds, holding its items; otherwise its error |
| ConfigCategory.Category.Assign | C/common/config_category.cpp:198-208 | name and description taken from the right-hand side, its items appended after the items already held |
| ConfigCategory.Category.ToJson | C/common/config_category.cpp:450-460 | the category text reads back as its name, its description and the items' JSON |
| ConfigCategory.Category.DefaultToJson | C/common/config_category.cpp:779-790 | the defaults-only category text reads back as its name, its description and the items' defaults-only JSON |
| ConfigCategory.Category.SetItemsValueFromDefault | C/common/config_category.cpp:213-219 | the items become ValuesFromDefaults of the old items; name and description unchanged |
| ConfigCategory.Category.CheckDefaultValuesOnly | C/common/config_category.cpp:227-236 | no error exactly when every value is empty; otherwise ConfigValueFoundWithDefault naming the first item with a value |
| ConfigCategory.Category.AddItem | C/common/config_category.cpp:241-246 | exactly one string item with empty order and readonly appended; name and description unchanged |
| ConfigCategory.Category.SetDescription | C/common/config_category.cpp:442-445 | only the description changes |
| ConfigCategory.Category.ItemExists | C/common/config_category.cpp:254-264 | true exactly when some item carries the name |
| ConfigCategory.Category.GetValue | C/common/config_category.cpp:273-283 | item-not-found exactly when absent; else the first matching item's value |
| ConfigCategory.Category.GetType | C/common/config_category.cpp:292-302 | item-not-found exactly when absent; else the first matching item's declared type |
| ConfigCategory.Category.GetDescription | C/common/config_category.cpp:311-321 | item-not-found exactly when absent; else the first matching item's description |
| ConfigCategory.Category.GetDefault | C/common/config_category.cpp:330-340 | item-not-found exactly when absent; else the first matching item's default |
| ConfigCategory.Category.IsString | C/common/config_category.cpp:349-359 | item-not-found exactly when absent; else whether the first matching item is a string item |
| ConfigCategory.Category.IsJson | C/common/config_category.cpp:368-378 | item-not-found exactly when absent; else whether the first matching item is a JSON item |
| ConfigCategory.Category.IsBool | C/common/config_category.cpp:387-397 | item-not-found exactly when absent; else whether the first matching item is a bool item |
| ConfigCategory.Category.IsNumber | C/common/config_category.cpp:406-416 | item-not-found exactly when absent; else whether the first matching item is a number item |
| ConfigCategory.Category.IsDouble | C/common/config_category.cpp:425-435 | item-not-found exactly when absent; else whether the first matching item is a double item |
| ConfigCategory.Category.ItemToJsonByName | C/common/config_category.cpp:834-849 | "{}" when no item has the name; the item's JSON in braces when exactly one has it; in general the JSON of every item with the name, in item order, in braces |
| Common.SizeT | C/plugins/north/PI_Server/plugin.cpp:168-173 | a size_t expression's value: below 2^64, unchanged when in range, a negative one wrapped by 2^64 |
| Common.Find | C/plugins/north/PI_Server/plugin.cpp:165-172 | std::string find: the first match at or after the start position, and none before it; absent exactly when there is no match from there on |
| Common.Substr | C/plugins/north/PI_Server/plugin.cpp:166-174 | std::string substr: out_of_range exactly when the position is past the end; otherwise at most len characters from the position |
| Common.AtoiOfIntToString | C/plugins/north/PI_Server/plugin.cpp:140 | atoi reads back every integer's decimal text, negative ones included |
| Common.Atoi | C/plugins/north/PI_Server/plugin.cpp:140 | atoi skips leading white space; a non-zero value has a sign exactly when the first other character is '-'; text starting with anything but white space, a digit or a sign gives 0 |
| Common.SignedValue | C/plugins/north/PI_Server/plugin.cpp:140 | the value of optionally signed digits: non-zero values are negative exactly after '-', and text not starting with a digit or sign gives 0 |
| Common.Upto | C/plugins/north/PI_Server/plugin.cpp:165-172 | the text before the first occurrence of a character: a prefix without it, followed by the character or the end |
| Common.StrToUl | C/tasks/north/sending_process/sending.cpp:627-629 | strtoul's result always fits an unsigned long |
| Common.StrToUlOfNatToString | C/tasks/north/sending_process/sending.cpp:627-629 | strtoul reads back the decimal text of every value an unsigned long holds |
| Json.Put | python/foglamp/plugins/north/omf1_1/omf1_1.py:301-304 | assigning a dict key: the key then maps to the new value, every other key is unchanged, and a new key is appended after the existing ones |
| Json.MergeAll | python/foglamp/plugins/north/omf1_1/omf1_1.py:651-654 | merging dicts: each key maps to the last value the merged members give it, else to the original one; the original keys keep their places |
| Json.Write | C/common/config_category.cpp:539-546 | the writer's compact text is never empty; an object is written in braces and a string as its quoted, escaped literal |
| Json.EscapeString | C/common/config_category.cpp:539-546 | the writer's escaping of a string: only printable characters, never shorter, and a JSON reader unescapes it back to the string |
| Json.Quote | C/common/config_category.cpp:539-546 | a string literal as the writer prints it: quoted, and its body reads back as the string |
| Common.Slice | python/foglamp/plugins/north/omf1_1/omf1_1.py:652 | Python slicing with non-negative bounds: the characters between them when in range, empty when the range is empty or starts past the end |

## Left out

- Threads, mutexes, condition variables and sleeps (`loadDataThread`, `sendDataThread`, the ingest and statistics threads, `time.sleep`, `asyncio.sleep`): each loop body is one sequential step, and sleeps are recorded as durations.
- Network I/O (aiohttp, `SimpleHttp` / `SimpleHttps`, `OMF::sendToServer`, `ThingSpeak::connect` / `send`): the transport is a sequence of outcomes, and a connection only records that it happened.
- Storage, management and SQL clients: they are functions giving the rows or success flags they answer. Query semantics, such as the ordering done by SQL, are taken as given.
- rapidjson parsing: a parser is a parameter. The writer escapes `"`, `\`, `\b`, `\f`, `\n`, `\r` and `\t` and writes other control characters as `\u00XX` with upper-case hex digits; characters above U+007F are written as they are, since the encoding to UTF-8 bytes is not modelled.
- Dynamic loading and the file system (`dlopen`, `dlsym`, `access`, `os.walk`, `os.listdir`, `__import__`, `subprocess`): their results are given as data.
- Timed schedules (`_schedule_next_timed_task`, daylight saving, week days): only interval and startup schedules are modelled. Times are integer seconds rather than float epoch values.
- `uuid.uuid4()` task ids: modelled as a counter.
- The ring buffer size `DATA_BUFFER_ELMS` is defined in sending.h, which is not part of this model: it is a constructor parameter.
- `Ingest::createStatsDbEntry` (C/services/south/ingest.cpp:107-150), which creates a missing per-asset statistics row, is not modelled: the statistics store is a function giving each update's result.
- Memory ownership (`new` / `delete`, leaked handles): the asset tracking cache is keyed by tuple value instead of by pointer. Because of this, the model's cache finds a tuple already present, where the C++ lookup by pointer identity would not.
- `NorthPlugin::init` returns the address of its stored instance: it is modelled as returning the instance.
- `get_plugin_info` with exactly two arguments reads `argv[2]`, which is NULL: it is modelled as an empty symbol name.
- `processQueue`'s requeue branch: `requeue` is always false, so the branch is dead and not modelled.
- `updateStats` ignores the result of the per-asset statistics row: the model ignores it too.
- The plugin's own `plugin_send` and the filter plugins' code (`passToOnwardFilter`, the filters' ingest): given as data.
- The statistics update of `updateDatabaseCounters`: recorded as a (stream id, last id, count) tuple rather than written.
- `_create_omf_type_automatic` of the OCS plugin never overrides the OMF plugin's `_create_omf_types_automatic`, because the names differ. It is modelled on its own, not as what `send` calls.
- JSON doubles are kept as their literal text. The writer's number formatting is not modelled, and a double's Python truthiness is judged from the digits of its literal.
- A NULL `history_ts` in statistics history rows is not modelled.
- `ThingSpeakPlugin.ReadSettings`: its contract does not state the channel number. That `atoi` of the channelId item gives the channel is stated by `ThingSpeakPlugin.ChannelFromItem`.
- `Common.Atoi`: overflow of C's `atoi` is undefined behaviour in C and is not modelled; the value is the mathematical one.
- `ConfigCategory.ItemToJsonReadBack`: a raw (JSON, number or double) value is read back when it does not itself contain `, "default" : ` and does not open with a double quote; that the writer's compact object text always meets this is not proved.
- `ConfigCategory.StripQuotes`: on text that is or becomes empty, `unescape` reads `json[npos]` in the C++; the model keeps "".
- `ConfigCategory.Category.Assign`: `operator=` applied to the category itself appends its items to themselves in the model; the C++ loop over a vector it is growing has undefined behaviour there, which is not modelled.
- `Json.Get`: a key that occurs twice in a document answers its first value; `json.loads` keeps the last one. The modelled documents come from the writers here, which never repeat a key.
- `Scheduler.Scheduler.OnTaskCompletionAsWritten`: a task id missing from the execution's tasks would raise KeyError before the AttributeError; the model takes the id as present, since only started tasks complete.
- `os.listdir` and `os.walk` orders are taken as given: the listing and walk sequences are data, and the models keep their order.

## Findings

| source | as written | input that shows it | evidently intended | confidence | as-written member | corrected member |
|---|---|---|---|---|---|---|
| python/foglamp/plugins/north/omf1_1/omf1_1.py:617-635 | a failure other than RuntimeError is stored in the misspelled `__error`, and the final raise uses the stale `_error` | a Status 500 answer followed by a timeout raises the earlier 500 error; a timeout alone raises None, which fails with TypeError | raise the last attempt's error | not executed | OmfNorth.StaleErrorRaised | OmfNorth.IntendedRaised |
| python/foglamp/plugins/north/ocs1_1/ocs1_1.py:156-203 | the configuration item (a dict) is compared with "", which is never equal | a producerToken item whose value is "" passes the check | reject an empty producerToken or type-id value | not executed | OcsNorth.EmptyProducerTokenAccepted | OcsNorth.IntendedInitCheck |
| src/python/foglamp/core/scheduler.py:383-384 | `task_processes.len()` is called on a dict, which has no `len` method | any task completion raises AttributeError before the execution is updated | `len(task_processes)` | not executed | Scheduler.Scheduler.OnTaskCompletionAsWritten | Scheduler.Scheduler.OnTaskCompletion |
| python/foglamp/common/plugin_discovery.py:45-63 | `get_plugin_folders` returns None when the plugins directory is missing, and `fetch_plugins_installed` loops over it | a missing plugins directory raises TypeError | no plugins for a missing directory | not executed | PluginDiscovery.MissingDirectory | PluginDiscovery.FetchPluginsInstalled |
| src/python/foglamp/core/scheduler.py:621-623 | the log line formats `fromtimestamp(next_start_time)` for every schedule, and a manual schedule's new execution has no next start | a manual schedule loaded with no execution: `fromtimestamp(None)` raises TypeError | log the schedule without a start time and keep None | not executed | Scheduler.ManualWithoutStartRaises | Scheduler.FirstStart |
