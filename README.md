# orin-llm-testing telemetry log, period loader and report rules in Dafny

The repository benchmarks language models on Jetson Orin boards. While a test
runs, a telemetry `Log` records:

- timestamped *markers* such as `GENERATE_START` and `GENERATE_END`;
- power and GPU-frequency samples;
- per-PID RAM and GPU-memory samples of the `pt_main_thread` process.

The log is saved as JSON. The analysis scripts then:

- split each log file name into *tags* and an *iteration* number;
- pair each `<P>_START` marker with its `<P>_END` marker to get a *period*;
- cut every series to the closed window of the period, shifting it so that the window starts at zero;
- sum the memory of several PIDs that share a time;
- group the results into `TaggedData` records, which are queried by tag-subset filters.

A validator flags logs whose markers are unpaired or whose token count is
negative. The use-case report finds phase times from the markers, parses
file paths into configuration tags, and picks the best configuration under
each pair of limits.

The model has one module per concern:

| module | file | models |
|---|---|---|
| `Wrappers` | wrappers.dfy | `Option`, `Result`, `Outcome` |
| `Text` | text.dfy | the string rules the scripts use: `endswith`, `in`, `[4:-5]`, `split('_')`, `'_'.join`, `rsplit('_', 1)[0]`, `int()`, and Python's `<` on strings and lists of strings |
| `Sorting` | sorting.dfy | Python's stable `sorted`/`list.sort`, as an insertion sort over a strict "less than" |
| `Statlog` | statlog.dfy | `LogEntry` and the `Log` recorder (tests/statlog.py), as a class whose methods update its fields |
| `LogJson` | logjson.dfy | the JSON encoder, the decoder's object hook, and `to_json`/`from_json` |
| `Periods` | periods.dfy | period names, windowing, memory summation and `LogPeriod` extraction, shared by both loaders |
| `Tagged` | tagged.dfy | `TaggedData.has_tags`/`period` and the `with_tags`/`without_tags`/`with_and_without_tags` filters |
| `Loader` | loader.dfy | `load_logs_from_folder` of analysis/log_loader.py |
| `OldLoader` | old_loader.dfy | `load_logs_from_folder` of analysis/old_view_scripts/log_loader.py |
| `Validate` | validate.dfy | the path loop of tests/validate.py |
| `UseCases` | use_cases.dfy | the helpers and the selection blocks of analysis/report_use_cases.py |

Modelling conventions:

- **Inputs passed in as values.** Readings of the clock (`perf_counter`) are method parameters. A jtop reading is a `Snapshot` value. A file on disk is a `FileEntry` or `LogFile` value that says whether it loaded.
- **Numbers.** Times and measurements are exact `real`s.
- **Dictionaries.** Dictionaries that keep insertion order (the per-PID series, JSON objects) are association lists.
- **Exceptions.** An exception that stops a script or a method is an `Err`/`Fail` result: a failed `pop` or `int()`, a `TypeError` on missing period times, a tuple assignment, and the `AttributeError` of reading one of the three attributes a loaded log may lack, `accuracy`, `tokens_generated` and `freq_gpu` (`Periods.LoadError.AbsentAttribute`, `Statlog.LogError`). The exceptions listed under "Left out" are not modelled.
- **Memory summation.** The loaders are modelled with the *corrected* memory merge, `Periods.MemoryTotals`, which adds up PIDs that share a time. The code as written raises `TypeError` there (see "Findings"), so on such logs `Loader.LoadFolder` and `OldLoader.OldLoadFolder` succeed where the scripts stop. `Periods.MergedAsWritten` models the merge as written.
- **Loops.** Each loop of the source is a `method` with a `while` loop, proved equal to a specification function. The properties are proved about that function. Two loops are exceptions: `TaggedData.has_tags` and `TaggedData.period` (analysis/log_loader.py:28-37) are early-return searches that change nothing, and they are modelled only as the functions `Tagged.HasTags` and `Tagged.FirstNamed`/`Tagged.Period`.

Where the description of the system and the code disagree, the model follows the code:

- After `from_json`, the per-PID dictionaries keep *string* keys (`"1234"`), because JSON object keys are strings and the decoder does not convert them back. `LogJson.LogRoundTrip` states this.
- The `Log started` marker is not at time 0. `begin` reads the clock once for `time_log_start` and again inside `add_timestamp`, so the marker's time is the difference of the two readings (`Statlog.Log.Begin`).
- `Log.get_timestamp` is called by both loaders but defined nowhere in tests/statlog.py. It is modelled as the time of the first marker whose label is exactly the one asked for, or `-1` when there is none (`Periods.GetTimestamp`).

## Model

| member | source | states |
|---|---|---|
| Text.EndsWith | tests/validate.py:27-32 | `s.endswith(suffix)` by definition: the last characters of `s` are `suffix` |
| Text.Contains | analysis/report_use_cases.py:32-35 | `sub in s` by definition: `sub` occurs at some position of `s`; `Text.ContainsSuffix` relates it to `endswith` |
| Text.ContainsSuffix | tests/validate.py:27-32 | a label ending in a suffix contains that suffix |
| Text.StripLogName | analysis/log_loader.py:70 | `name[4:-5]` is what is left once the first 4 and the last 5 characters are dropped; it is empty for names of 9 characters or fewer |
| Text.Split | analysis/log_loader.py:70 | `split('_')` gives at least one fragment, and no fragment contains the separator |
| Text.Join | analysis/old_view_scripts/log_loader.py:85 | `'_'.join` by definition; `Text.JoinSplit` and `Text.SplitJoin` state that it inverts `split` |
| Text.JoinSplit | analysis/old_view_scripts/log_loader.py:85 | joining the fragments of a split with the separator gives back the original string |
| Text.SplitJoin | analysis/old_view_scripts/log_loader.py:85-97 | splitting a join of separator-free fragments gives back the fragments, so a group key split on `_` recovers the name fragments |
| Text.SplitJoinHead | analysis/old_view_scripts/log_loader.py:85-97 | splitting `p + tail`, when `p` holds no separator, glues `p` to the first fragment of `tail` |
| Text.JoinInjective | analysis/old_view_scripts/log_loader.py:82-90 | two fragment lists with the same joined key are equal, so distinct names give distinct group keys |
| Text.RSplitHeadOfSuffix | tests/validate.py:27-36 | `rsplit('_', 1)[0]` of `p + '_' + t`, with `t` free of `_`, is `p` |
| Text.RSplitHead | tests/validate.py:28-33 | `rsplit(c, 1)[0]` is a prefix of the string; it is the whole string when `c` does not occur, and otherwise the part before the last `c` |
| Text.NatToDecimal | analysis/log_loader.py:82 | the decimal text of a natural number is a non-empty run of digits |
| Text.IntToDecimal | analysis/log_loader.py:82 | the decimal text of an integer is non-empty and starts with a digit or a minus sign |
| Text.DigitsOfDecimal | analysis/log_loader.py:82 | reading back the digits of a natural number gives the number |
| Text.ParseInt | analysis/log_loader.py:82 | the model's `int()` accepts exactly an optional `+`/`-` sign followed by at least one ASCII digit, and gives a negative number only after a `-` |
| Text.ParseIntToDecimal | analysis/log_loader.py:82 | `int()` of the decimal text of any integer gives that integer back |
| Text.IntToDecimalInjective | analysis/log_loader.py:82 | different integers have different decimal texts |
| Text.StrLess | analysis/log_loader.py:81 | Python's `<` on strings is irreflexive, and a proper prefix is less than the longer string |
| Text.ListLess | analysis/log_loader.py:81 | Python's `<` on lists of strings is irreflexive, and a proper prefix list is less than the longer list |
| Text.StrLessAsymmetric | analysis/log_loader.py:81 | Python's `<` on strings is asymmetric |
| Text.ListLessAsymmetric | analysis/log_loader.py:81 | Python's `<` on lists of strings (the sort key `x[0]`) is asymmetric |
| Sorting.Insert | analysis/old_view_scripts/log_loader.py:91 | inserting one element adds exactly that element to the multiset, and the result is one longer |
| Sorting.SortWith | analysis/log_loader.py:81 | sorting is a permutation of its input |
| Sorting.InsertOrdered | analysis/old_view_scripts/log_loader.py:91 | inserting into an ordered list under an asymmetric "less than" keeps it ordered |
| Sorting.SortOrdered | analysis/log_loader.py:81 | under an asymmetric "less than" the sorted list has no adjacent pair out of order |
| Sorting.FirstMin | analysis/report_use_cases.py:184-186 | the index of the first element with the least key: its key is at most every key, and strictly below the keys before it |
| Sorting.SortByKeyHead | analysis/report_use_cases.py:184-186 | the head of a list stably sorted by a real key is its first element with the least key |
| Sorting.SortByKeyOrdered | analysis/old_view_scripts/log_loader.py:168 | a list sorted by a real key has non-decreasing keys |
| Sorting.AdjacentToGlobal | analysis/old_view_scripts/log_loader.py:168 | if no adjacent pair is out of order, keys are non-decreasing between any two positions |
| Sorting.SortByKeyIdentity | analysis/old_view_scripts/log_loader.py:91 | stable sorting a list whose keys are already non-decreasing leaves it unchanged |
| Statlog.AppendAt | tests/statlog.py:88-95 | appending a sample under a PID extends exactly that PID's list by the sample; every other PID's list is unchanged |
| Statlog.AppendAtKnown | tests/statlog.py:88-89 | appending under a PID already present leaves the keys and their order unchanged |
| Statlog.AppendAtNew | tests/statlog.py:88-89 | appending under a new PID adds it as the last key |
| Statlog.AppendAtDistinct | tests/statlog.py:46-53 | appending keeps each PID a key at most once |
| Statlog.AppendAtKeys | tests/statlog.py:88-95 | the key facts of an append: unchanged keys for a known PID, one new last key otherwise, distinct keys kept |
| Statlog.DistinctKeysOfSameKeys | tests/statlog.py:88-91 | two per-PID dictionaries with the same keys in the same order are both keyed by distinct PIDs if one is |
| Statlog.TrackSeries | tests/statlog.py:84-95 | after the process loop, each PID's list is its old list followed by one reading per `pt_main_thread` process with that PID, in process order; other processes add nothing |
| Statlog.TrackKeys | tests/statlog.py:84-91 | the process loop adds exactly the PIDs of monitored processes not seen before, keeps the old keys first, and keeps keys distinct |
| Statlog.TrackLockStep | tests/statlog.py:88-91 | `memory_ram` and `memory_gpu` gain the same keys in the same order |
| Statlog.Log.constructor | tests/statlog.py:61-67 | a fresh log is Idle: both times are `-1`, the lists and dictionaries are empty, and `freq_gpu` is absent, as written |
| Statlog.Log.Initialised | tests/statlog.py:44-67 | the corrected constructor, which also creates an empty `freq_gpu` |
| Statlog.Log.AddTimestamp | tests/statlog.py:97-101 | fails while the log is Idle and changes nothing; otherwise appends exactly `(now - time_log_start, info)`, also after `end`; with a clock that does not go backwards, marker times stay non-negative and non-decreasing |
| Statlog.Log.LogAccuracy | tests/statlog.py:103-105 | the last accuracy written is the one kept |
| Statlog.Log.LogCallback | tests/statlog.py:72-95 | appends one power sample (`power/1000`) and, when `freq_gpu` exists, one frequency sample (`cur/1000`) at the same time `t`, and extends the per-PID series as `Statlog.Track` says; without `freq_gpu` it fails after the power append, with the memory untouched |
| Statlog.Log.Begin | tests/statlog.py:197-205 | fails if the log was ever started, even after `end`; otherwise starts sampling, sets `time_log_start`, and adds `Log started` as the first marker, at `clockMarker - clockStart` |
| Statlog.Log.End | tests/statlog.py:207-217 | fails on an Idle or Finalized log; otherwise appends `Log finished` as the last marker, sets `time_log_end` and stops sampling, so a second `end` always fails |
| Statlog.RunBlocking | tests/statlog.py:221-228 | `run_blocking` as written, with `Log()`: `begin`, the sampler callbacks, then `end`. It fails without a start time. Otherwise the markers are exactly `Log started` and `Log finished`, the log is Finalized iff `end` read a time, each callback logs its power sample and then fails on the missing `freq_gpu` (counted), and no memory is logged |
| Statlog.RunBlockingInitialised | tests/statlog.py:221-228 | the same run on the corrected constructor: the markers are the two recorder markers, and each callback logs its power sample and its frequency sample (`cur/1000`) at the same time |
| Statlog.CallbackWithoutFreqGpu | tests/statlog.py:61-81 | on a log built by the constructor as written, the first callback records one power sample and then fails on the missing `freq_gpu` before any memory is logged |
| LogJson.Put | tests/statlog.py:134 | assigning a key that a JSON object does not have appends it as the last entry |
| LogJson.IndexOf | tests/statlog.py:134 | the position of the first entry with a key: it has the key, and no earlier entry does |
| LogJson.PutReplaces | tests/statlog.py:134 | assigning a key that is present replaces that entry's value in place and leaves every other entry and the order unchanged |
| LogJson.Lookup | tests/statlog.py:123-124 | `o['time']` is the value of the first entry with that key |
| LogJson.DictOfDistinct | tests/statlog.py:134 | an object with distinct keys decodes to exactly its key-value pairs |
| LogJson.ObjectHook | tests/statlog.py:121-125 | the hook gives a `LogEntry` iff the object has exactly two keys, `time` and `value`; its two fields are the values stored under them; any other object stays a dictionary with the same entries in the same order |
| LogJson.Encode | tests/statlog.py:109-114 | the encoder by definition: a `LogEntry` or a `Log` becomes the object of its attributes; `LogJson.DecodeEncode` states that decoding undoes it |
| LogJson.Decode | tests/statlog.py:116-125 | `loads` with the object hook by definition; `LogJson.DecodeEncode` states that it undoes the encoder |
| LogJson.RoundTripsEncodable | tests/statlog.py:109-114 | every value of the shapes a log holds can be encoded |
| LogJson.DecodeEncode | tests/statlog.py:109-135 | decoding what the encoder wrote gives back the value, with integer dictionary keys turned into strings |
| LogJson.DecodeEncodeList | tests/statlog.py:109-135 | the round trip goes through a list when it holds for its items |
| LogJson.DecodeEncodeDict | tests/statlog.py:116-125 | the round trip goes through a dictionary, which the hook leaves a dictionary |
| LogJson.DecodeEntryObject | tests/statlog.py:121-125 | an object whose members are exactly `time` and `value` decodes to the `LogEntry` of their decoded values |
| LogJson.DecodeEncodeEntry | tests/statlog.py:109-125 | a `LogEntry` is written as the two keys `time` and `value` and the hook turns exactly that shape back into a `LogEntry` |
| LogJson.SeriesRoundTrips | tests/statlog.py:109-135 | a sample series survives `to_json` then `from_json` unchanged |
| LogJson.MarkersRoundTrip | tests/statlog.py:109-135 | the marker list survives `to_json` then `from_json` unchanged |
| LogJson.PidSeriesRoundTrips | tests/statlog.py:109-135 | a per-PID dictionary comes back with the same lists under the PIDs written as strings |
| LogJson.GoodAppend | tests/statlog.py:112 | adding an attribute with a new name keeps the attributes round-trippable |
| LogJson.BaseNamesDistinct | tests/statlog.py:37-57 | the six attribute names that every log has are distinct |
| LogJson.BaseEntriesGood | tests/statlog.py:112 | the attributes every log has all round-trip |
| LogJson.BaseEntriesStringified | tests/statlog.py:109-135 | those attributes come back as the first six entries of the reloaded dictionary |
| LogJson.ToJson | tests/statlog.py:127-129 | `to_json` by definition: it encodes the log's attribute dictionary, and fails on a jtop handle; `LogJson.LogRoundTrip` states when it succeeds |
| LogJson.FromJson | tests/statlog.py:131-135 | `from_json` by definition: the decoded object becomes the new log's attribute dictionary; `LogJson.LogRoundTrip` states what comes back |
| LogJson.LogRoundTrip | tests/statlog.py:127-135 | `to_json` succeeds exactly when the log holds no jtop handle; then `from_json` gives the log's attributes back, in order, with PID keys as strings |
| Periods.GetTimestampSpec | analysis/log_loader.py:46-47 | `log.get_timestamp(label)`: `-1` when no marker has the label, otherwise the time of the first marker that has it |
| Periods.FindLabel | analysis/log_loader.py:46-47 | the index of the first marker with exactly the wanted label, or none when no marker has it |
| Periods.PeriodNames | analysis/log_loader.py:84-87 | the period names by definition; `Periods.PeriodNameMembers` states which names they are |
| Periods.StartPrefixesMembers | analysis/log_loader.py:85 | `P` is a candidate name iff some marker is exactly `P + '_START'` |
| Periods.EndedMembers | analysis/log_loader.py:86-87 | a candidate is kept iff looking up `P + '_END'` does not give `-1` |
| Periods.PeriodNameMembers | analysis/log_loader.py:84-87 | a period `P` exists iff some marker is `P_START` and looking up `P_END` does not give `-1` |
| Periods.FindPeriodNames | analysis/log_loader.py:84-87 | the loop builds exactly the period names |
| Periods.Window | analysis/log_loader.py:103-106 | a window is no longer than its series |
| Periods.WindowAppend | analysis/log_loader.py:136-139 | windowing commutes with concatenation, so the original order is kept |
| Periods.WindowMembers | analysis/log_loader.py:103-106 | a sample is in the window iff it comes from a series sample with `start <= t <= end`, shifted to `t - start` |
| Periods.WindowInRange | analysis/log_loader.py:103-106 | every windowed time lies in `[0, end - start]` |
| Periods.CutAndShift | analysis/log_loader.py:136-139 | the loop builds exactly the window |
| Periods.FirstAt | analysis/log_loader.py:115-118 | the first accumulated entry at a given time, or none |
| Periods.TotalAtUpdate | analysis/log_loader.py:118 | changing one entry's value changes the total at its time by the difference |
| Periods.TotalAtAppend | analysis/log_loader.py:120 | appending a sample adds its value to the total at its time only |
| Periods.AddToTotalSpec | analysis/log_loader.py:113-120 | adding one sample keeps the accumulated times distinct, adds its value to the total at its time, and adds its time |
| Periods.MergedSpec | analysis/log_loader.py:108-120 | the accumulated memory series has distinct times, the same per-time totals as its input, and the same set of times |
| Periods.TotalAtDistinct | analysis/log_loader.py:108-120 | with distinct times, an entry's value is the total at its time |
| Periods.TotalAtAbsent | analysis/log_loader.py:108-120 | the total at a time no entry has is zero |
| Periods.TotalAtConcat | analysis/log_loader.py:110-111 | totals add over concatenated PID series |
| Periods.FlatWindowHasTime | analysis/log_loader.py:110-112 | a time appears in the flattened windows iff it appears in some PID's window |
| Periods.FlatWindowTotal | analysis/log_loader.py:110-112 | the total of the flattened windows at a time is the sum over PIDs of their windowed totals |
| Periods.MemoryTotals | analysis/log_loader.py:108-134 | the corrected memory series of a period by definition; `Periods.MemoryTotalsSpec` states its meaning |
| Periods.MemoryTotalsSpec | analysis/log_loader.py:108-134 | the summed memory series has distinct shifted times, a time appears iff some PID has an in-window sample at it, and each value is the sum over all PIDs of the in-window samples at that shifted time |
| Periods.AddSample | analysis/log_loader.py:113-120 | the inner flag loop adds one sample to the accumulated series |
| Periods.MergedSnoc | analysis/log_loader.py:110-120 | accumulating one more sample is one more `AddToTotal` step |
| Periods.AddProcess | analysis/log_loader.py:111-120 | the loop over one PID's entries accumulates exactly that PID's window |
| Periods.MergeMemory | analysis/log_loader.py:108-134 | the nested loops build exactly the summed memory series |
| Periods.MergedAsWritten | analysis/log_loader.py:113-120 | the merge as written by definition; `Periods.MergedAsWrittenSpec` states what it returns |
| Periods.MergedAsWrittenSpec | analysis/log_loader.py:113-120 | as written, the merge succeeds iff the shifted times are distinct, and then returns the samples unchanged; otherwise the tuple assignment raises |
| Periods.DistinctTimesSnoc | analysis/log_loader.py:115-118 | appending a sample keeps times distinct iff its time is new |
| Periods.MergedAgreesWhenDistinct | analysis/log_loader.py:108-134 | whenever the code as written succeeds, it agrees with the corrected merge |
| Periods.MergedDistinctIdentity | analysis/log_loader.py:108-134 | merging a series with distinct times leaves it unchanged |
| Periods.TwoProcessesSameInstant | analysis/log_loader.py:118 | two PIDs sampled at the same instant make the code as written raise, where the corrected merge gives their sum |
| Periods.PeriodOf | analysis/log_loader.py:93-141 | the loop body for one name fails iff the log lacks `accuracy`, `tokens_generated` or `freq_gpu`, or either marker time is `-1`; otherwise the period has the name, the iteration, the log's accuracy and token count, `length` equal to the END time minus the START time, its frequency and power series the windows of the log's series, and its memory series the corrected totals, all over `[START, END]` |
| Periods.PeriodsOf | analysis/log_loader.py:84-141 | a successful extraction gives one period per period name, in order, each with the iteration |
| Periods.PeriodsFor | analysis/log_loader.py:89-141 | the period loop by definition, stopping at the first error; `Periods.PeriodsForSpec` and `Periods.PeriodsForOk` state its result |
| Periods.PeriodsForOkSnoc | analysis/log_loader.py:89-141 | a successful extraction is the successful extraction of all names but the last, followed by the last name's period |
| Periods.PeriodsForSpec | analysis/log_loader.py:89-141 | one `LogPeriod` per name, in order, with that name, the iteration, and `length` equal to the END time minus the START time |
| Periods.PeriodsForOk | analysis/log_loader.py:93-106 | extraction cannot fail when the log has `accuracy`, `tokens_generated` and `freq_gpu`, marker times are non-negative and every name is a period name |
| Periods.PeriodsOfOk | analysis/log_loader.py:84-141 | with those three attributes present and non-negative marker times, extracting all the periods of a log succeeds |
| Periods.PeriodsOfAbsentAttribute | analysis/log_loader.py:97-98 | a log without periods reads no attribute and yields no periods; a log with a period but without `accuracy` (or else without `tokens_generated`) stops with `AttributeError` on that attribute |
| Periods.PeriodsOfWithoutFreqGpu | analysis/log_loader.py:103-106 | a log saved by `Log()` as written, which has no `freq_gpu`, stops the load with `AttributeError` on its first period |
| Periods.ExamplePeriod | analysis/log_loader.py:84-141 | a `GEN` period from 2 to 5 has length 3 and keeps only the samples in `[2, 5]`, shifted by 2 |
| Periods.ExtractPeriod | analysis/log_loader.py:93-141 | the loop body builds exactly the `LogPeriod` of one name |
| Periods.ExtractPeriods | analysis/log_loader.py:84-141 | the loops build exactly the period list of one log |
| Tagged.HasTags | analysis/log_loader.py:28-32 | `has_tags(T)` holds iff every element of `T` is among the tags; it is true for an empty `T` |
| Tagged.PyIndex | analysis/log_loader.py:34 | Python indexing of `_periods[iteration]`: in range iff `-n <= i < n`, and a negative index counts from the end |
| Tagged.FirstNamed | analysis/log_loader.py:34-36 | the first period with the given name, or none |
| Tagged.Period | analysis/log_loader.py:33-37 | raises iff the iteration is out of range; otherwise gives the first period of that iteration with the name (no earlier period has it), or `None` iff none has it |
| Tagged.WithTags | analysis/log_loader.py:42-43 | exactly the entries whose tags cover the query |
| Tagged.WithoutTags | analysis/old_view_scripts/log_loader.py:43-44 | exactly the entries whose tags do not cover the query |
| Tagged.WithAndWithoutTags | analysis/old_view_scripts/log_loader.py:46-47 | exactly the entries that have all of the first tags and not all of the second |
| Tagged.WithTagsSnoc | analysis/log_loader.py:42-43 | `with_tags` keeps the original order: one more entry adds at most that entry at the end |
| Tagged.WithoutTagsSnoc | analysis/old_view_scripts/log_loader.py:43-44 | `without_tags` keeps the original order in the same way |
| Tagged.FiltersPartition | analysis/old_view_scripts/log_loader.py:40-44 | `with_tags` and `without_tags` split the list: together they hold every entry exactly as often as the list does |
| Tagged.WithAndWithoutIsComposition | analysis/old_view_scripts/log_loader.py:40-47 | `with_and_without_tags(W, X)` is `with_tags(W)` applied to `without_tags(X)`, order included |
| Tagged.WithoutNoTagsIsEmpty | analysis/old_view_scripts/log_loader.py:46-47 | with an empty exclusion list the result is always empty |
| Tagged.WithNoTags | analysis/log_loader.py:42-43 | `with_tags()` with no tags returns the whole list |
| Loader.NameFragments | analysis/log_loader.py:70 | `filename[4:-5].split('_')` by definition; `Loader.NameFragmentsOfLogName` states that it recovers the fragments of a conventional name |
| Loader.NameFragmentsOfLogName | analysis/log_loader.py:70 | the name `log_<f0>_<f1>_….json` gives back the fragments `f0, f1, …` |
| Loader.Collected | analysis/log_loader.py:61-76 | at most one log is collected per file; which logs are collected is `Loader.CollectedMembers` |
| Loader.CollectedMembers | analysis/log_loader.py:61-76 | a pair is collected iff some `.json` file loaded into its log and its name splits into its fragments |
| Loader.Collect | analysis/log_loader.py:61-77 | the loop collects exactly those pairs, and `num_loaded` counts them, so skipped files are not counted |
| Loader.SortedLoadedSpec | analysis/log_loader.py:81 | `sorted(loaded, key=x[0])` is a permutation ordered by the name fragments |
| Loader.PopIteration | analysis/log_loader.py:82 | raises `IndexError` iff there is no fragment 1 and `ValueError` iff it is not an integer; otherwise the iteration is `int()` of fragment 1, and exactly fragment 1 is removed |
| Loader.PopIterationOfConvention | analysis/log_loader.py:82 | for a name written as model, iteration, extras, popping gives the iteration back and leaves model and extras |
| Loader.FirstCovering | analysis/log_loader.py:145-148 | the first existing group whose tags cover the name, or none |
| Loader.IterationsUpdate | analysis/log_loader.py:149 | updating one group changes the total number of period lists by that group's change |
| Loader.Place | analysis/log_loader.py:143-156 | the grouping step by definition; `Loader.PlaceSpec` states where the period list goes |
| Loader.PlaceSpec | analysis/log_loader.py:143-156 | each log adds exactly one period list to exactly one group: the first group whose tags include the name, or a new group at the end tagged with the name |
| Loader.SavePeriods | analysis/log_loader.py:143-156 | the flag loop places the period list as `Loader.Place` says |
| Loader.Step | analysis/log_loader.py:82-156 | one log of the grouping loop by definition: pop the iteration, extract the periods, place them; `Loader.PlaceSpec` states the placing |
| Loader.Grouped | analysis/log_loader.py:81-156 | the grouping loop by definition, stopping at the first error; `Loader.GroupedIterations` and `Loader.BadNameAborts` state its result |
| Loader.GroupedIterations | analysis/log_loader.py:81-156 | the groups hold one period list per loaded log |
| Loader.BadNameAborts | analysis/log_loader.py:82 | one loaded name without an integer fragment 1 makes the whole load raise |
| Loader.LoadFolder | analysis/log_loader.py:53-161 | the folder load by definition: collect, sort, group; `Loader.LoadFolderSpec` states its result |
| Loader.LoadFolderSpec | analysis/log_loader.py:53-161 | a successful load holds one period list per loaded file, and a bad name anywhere makes it fail |
| Loader.LoadLogsFromFolder | analysis/log_loader.py:53-161 | the function's loops compute exactly the modelled load and the count of loaded files |
| OldLoader.AddIteration | analysis/old_view_scripts/log_loader.py:87-91 | adding one `(i, log)` pair by definition; `OldLoader.AddIterationSpec` states its effect |
| OldLoader.AddIterationSpec | analysis/old_view_scripts/log_loader.py:87-91 | adding an `(i, log)` pair creates the key if needed, keeps the group's list a sorted permutation with the pair added, and leaves other groups alone |
| OldLoader.AddIterationKeys | analysis/old_view_scripts/log_loader.py:87-88 | after adding, the keys are the old keys plus the new one |
| OldLoader.GroupsFrom | analysis/old_view_scripts/log_loader.py:82-91 | the grouping of the loaded logs by definition; `OldLoader.GroupsFromKeys` and `OldLoader.GroupsFromMembers` state its keys and members |
| OldLoader.GroupsFromWellFormed | analysis/old_view_scripts/log_loader.py:82-91 | every group list is sorted by ascending iteration and every key is listed once |
| OldLoader.SomeKeyMatchSnoc | analysis/old_view_scripts/log_loader.py:83-85 | some log maps to a key in a longer list iff it does in the shorter one or the new last log does |
| OldLoader.GroupsFromKeys | analysis/old_view_scripts/log_loader.py:82-90 | the group keys are exactly the joined names of the loaded logs |
| OldLoader.GroupsFromMembers | analysis/old_view_scripts/log_loader.py:82-91 | each group holds exactly the `(i, log)` pairs of the logs whose joined name is its key |
| OldLoader.MembersAbsent | analysis/old_view_scripts/log_loader.py:82-91 | a key no log maps to has no members |
| OldLoader.TagsRecoverFragments | analysis/old_view_scripts/log_loader.py:84-97 | a group's tags, its key split on `_`, are the log's remaining fragments |
| OldLoader.PeriodLists | analysis/old_view_scripts/log_loader.py:99-165 | the period lists of a group by definition; `OldLoader.PeriodListsSpec` states them |
| OldLoader.PeriodListsSpec | analysis/old_view_scripts/log_loader.py:100-165 | one period list per iteration, each extracted by the same rule as the newer loader |
| OldLoader.SortByFirst | analysis/old_view_scripts/log_loader.py:168 | `sorted(..., key=x[0].i)` raises iff some list is empty; otherwise it permutes the lists so that their first periods' iterations are non-decreasing |
| OldLoader.SortByFirstKeepsOrder | analysis/old_view_scripts/log_loader.py:168 | when every log yields a period, sorting by the first period's iteration keeps the iteration order |
| OldLoader.TaggedOf | analysis/old_view_scripts/log_loader.py:95-169 | one group's `TaggedData` by definition; `OldLoader.TaggedOfSpec` states it |
| OldLoader.TaggedOfSpec | analysis/old_view_scripts/log_loader.py:95-169 | one group becomes a `TaggedData` whose tags are its key split on `_`, with one period list per iteration |
| OldLoader.TaggedFrom | analysis/old_view_scripts/log_loader.py:93-169 | the group loop by definition; `OldLoader.TaggedFromSpec` states its result |
| OldLoader.TaggedFromOkSnoc | analysis/old_view_scripts/log_loader.py:94-169 | a successful build is the successful build for all keys but the last, followed by the last key's `TaggedData` |
| OldLoader.TaggedFromSpec | analysis/old_view_scripts/log_loader.py:94-169 | one `TaggedData` per key, in key order, with the key's tags and one period list per grouped log |
| OldLoader.DistinctCard | analysis/old_view_scripts/log_loader.py:82-91 | a list of distinct keys has as many elements as its set |
| OldLoader.SomeKeyMatchJoined | analysis/old_view_scripts/log_loader.py:82-91 | for any reordering of the loaded files, some file maps to a key iff the key is a joined remaining name |
| OldLoader.KeysAreJoinedNames | analysis/old_view_scripts/log_loader.py:82-91 | the set of group keys is the set of joined remaining names of the loaded files |
| OldLoader.OldLoadFolder | analysis/old_view_scripts/log_loader.py:57-171 | the old folder load by definition; `OldLoader.OldLoadFolderCount` and `OldLoader.OldLoadFolderTags` state its result |
| OldLoader.OldLoadFolderCount | analysis/old_view_scripts/log_loader.py:82-169 | the number of groups is the number of distinct joined-name keys |
| OldLoader.OldLoadFolderTags | analysis/old_view_scripts/log_loader.py:84-97 | every group's tags are the remaining fragments of some loaded file |
| OldLoader.NamesHaveNoSeparator | analysis/old_view_scripts/log_loader.py:73 | no collected name fragment contains `_` |
| OldLoader.GroupIterations | analysis/old_view_scripts/log_loader.py:82-91 | the grouping loop builds exactly the modelled groups |
| OldLoader.AddToDict | analysis/old_view_scripts/log_loader.py:87-91 | the dictionary update of one pair is `AddIteration` |
| OldLoader.GroupPeriods | analysis/old_view_scripts/log_loader.py:99-165 | the iteration loop builds exactly the period lists |
| OldLoader.BuildTagged | analysis/old_view_scripts/log_loader.py:93-169 | the group loop builds exactly the tagged list |
| OldLoader.OldLoadLogsFromFolder | analysis/old_view_scripts/log_loader.py:57-171 | the function's loops compute exactly the modelled load |
| Validate.CheckMarkers | tests/validate.py:25-36 | the marker loop sets `failed` iff some label fails the pairing check |
| Validate.Partner | tests/validate.py:28-33 | `stamp.rsplit('_', 1)[0] + suffix` by definition; `Validate.PartnerOfSuffix` states the partner of `P_START` and `P_END` |
| Validate.PartnerOfSuffix | tests/validate.py:27-36 | the partner of `P_START` is `P_END`, and the other way round |
| Validate.StampFails | tests/validate.py:26-36 | the check on one label by definition; `Validate.StampFailsIff` states when it flags |
| Validate.StampFailsIff | tests/validate.py:26-36 | `P_START` flags the log iff `P_END` is absent; `P_END` flags it iff `P_START` is absent |
| Validate.OtherLabelsPass | tests/validate.py:26-36 | a label ending in neither suffix never flags the log |
| Validate.RecorderLabelsPass | tests/validate.py:26-36 | `Log started` and `Log finished` never flag the log |
| Validate.MarkersFailSetOnly | tests/validate.py:25-36 | the marker check depends only on the set of labels, not on their order, repeats or times |
| Validate.PairedPasses | tests/validate.py:25-36 | a log in which every phase is paired passes the marker check |
| Validate.CheckLog | tests/validate.py:25-41 | a log fails iff its markers fail or its token count is negative |
| Validate.NegativeTokensFail | tests/validate.py:38-41 | a negative token count fails the log whatever its markers |
| Validate.BadLogs | tests/validate.py:14-44 | `bad_logs` of the walk by definition; `Validate.BadLogsSpec` states its content |
| Validate.BadLogsSpec | tests/validate.py:14-44 | the script stops iff some file is not a JSON document; otherwise a path is in `bad_logs` iff its log fails a check, at most once per path walked |
| Validate.BadLogsDocument | tests/validate.py:43-44 | a document adds its path once iff it fails, and nothing otherwise |
| Validate.ValidateLogs | tests/validate.py:14-44 | the path loop computes exactly `bad_logs`, or the exception that stops it |
| UseCases.IsStartMarker | analysis/report_use_cases.py:31-33 | a marker sets `start` iff it contains the prefix and `START`, by definition; `UseCases.TimesOfRecordedPhase` states its use |
| UseCases.IsEndMarker | analysis/report_use_cases.py:31-35 | a marker sets `end` iff it contains the prefix and `END` but not `START`, by definition; `UseCases.EndMarkerHasNoStart` states its use |
| UseCases.LastTime | analysis/report_use_cases.py:28-35 | `-1` when no marker matches; otherwise the time of a matching marker with no match after it, that is the last match |
| UseCases.GetTimesBetweenStamps | analysis/report_use_cases.py:25-38 | the loop returns the last START time and the last END time of the prefix, and fails its assertion when either is missing |
| UseCases.EndMarkerHasNoStart | analysis/report_use_cases.py:32-35 | `P_END` does not contain `START` when `P` does not |
| UseCases.TimesOfRecordedPhase | analysis/report_use_cases.py:25-38 | a phase recorded as `P_START` then `P_END`, after markers that do not mention `P`, gives back exactly its two times |
| UseCases.TimesBetween | analysis/report_use_cases.py:25-38 | fails without a START marker; a result has non-negative times, each the time of some START marker and some END marker of the phase |
| UseCases.IsWithinTimes | analysis/report_use_cases.py:40-41 | `is_within_times` by definition: `t` lies in one of the two closed intervals; `UseCases.ValuesWithinMembers` states the filter built on it |
| UseCases.ValuesWithin | analysis/report_use_cases.py:138-139 | the filter keeps no more values than the series has |
| UseCases.ValuesWithinMembers | analysis/report_use_cases.py:138-139 | a value is kept iff some sample has it at a time in `[a, b]` or in `[c, d]` |
| UseCases.Basename | analysis/report_use_cases.py:76 | `os.path.basename` is a suffix of the path that contains no `/` |
| UseCases.BasenameOfName | analysis/report_use_cases.py:76 | the basename of `dir/name` is `name` |
| UseCases.Strs | analysis/report_use_cases.py:84-85 | the remaining fragments become string tags, one for one |
| UseCases.FileTags | analysis/report_use_cases.py:76-86 | a parsed path has at least five tags, the iteration at index 3, and the path last |
| UseCases.ParseFileTags | analysis/report_use_cases.py:76-86 | the `pop` sequence builds `[f[-2], f[-1], f[0], int(f[1])] ++ f[2..-2] ++ [path]`, raising on fewer than 4 fragments or a bad iteration |
| UseCases.ConventionFragments | analysis/report_use_cases.py:76 | the fragments of a conventional name (model, decimal iteration, extras, device, power mode) contain no `_` and no `/`, so they survive the join and split |
| UseCases.FragmentsOfPath | analysis/report_use_cases.py:76 | stripping and splitting the basename of a conventional path gives its fragments |
| UseCases.FileTagsOfConvention | analysis/report_use_cases.py:76-86 | a conventional path parses to `[device, pm, model, iteration] ++ extras ++ [path]` |
| UseCases.NoSlashInJoin | analysis/report_use_cases.py:76 | joining fragments without `/` gives a name without `/` |
| UseCases.Scan | analysis/report_use_cases.py:72-88 | the path scan by definition; `UseCases.ScanMax` states its result |
| UseCases.ScanMax | analysis/report_use_cases.py:72-88 | one tag list per path; `max_iterations` is at least every parsed iteration and is 0 or one of them |
| UseCases.ScanPaths | analysis/report_use_cases.py:72-88 | the path loop computes exactly the modelled tag lists and maximum |
| UseCases.Qualifies | analysis/report_use_cases.py:184-214 | the filters of the three use cases by definition: power and latency, energy and memory, accuracy and memory limits |
| UseCases.Rank | analysis/report_use_cases.py:185-215 | the sort keys `-acc` and `lat` by definition; `UseCases.SelectRanksBest` states that the pick ranks best |
| UseCases.Candidates | analysis/report_use_cases.py:184 | the filter keeps exactly the results that meet both limits of the use case |
| UseCases.Select | analysis/report_use_cases.py:184-188 | filter, stable sort, head, by definition; `UseCases.SelectNone`, `UseCases.SelectQualifies` and `UseCases.SelectRanksBest` state what it picks |
| UseCases.SelectNone | analysis/report_use_cases.py:186-193 | nothing is picked iff no result qualifies |
| UseCases.SelectQualifies | analysis/report_use_cases.py:184-188 | a pick is a result that meets both limits |
| UseCases.SelectRanksBest | analysis/report_use_cases.py:183-223 | the pick has accuracy at least that of every qualifying result (use case 1), or latency at most theirs (use cases 2 and 3) |
| UseCases.SelectFirstOfBest | analysis/report_use_cases.py:185-188 | because the sort is stable, among equally ranked candidates the pick is the first in result order |
| UseCases.SelectBest | analysis/report_use_cases.py:183-188 | the pick is the candidate at the first least rank |
| UseCases.Picked | analysis/report_use_cases.py:186-188 | one limit pair adds at most one configuration |
| UseCases.PickedQualifies | analysis/report_use_cases.py:183-188 | a configuration added for a limit pair belongs to a result that meets those limits |
| UseCases.GatherSpec | analysis/report_use_cases.py:181-193 | the loop over limit pairs collects at most one configuration per pair, exactly those picked for some pair |
| UseCases.Solutions | analysis/report_use_cases.py:181-193 | the solutions of a use case by definition; `UseCases.SolutionsSpec` states them |
| UseCases.SolutionsSpec | analysis/report_use_cases.py:172-223 | a use case's solutions are at most one per limit pair, and each is the pick for one of the pairs |
| UseCases.QualifiesLooser | analysis/report_use_cases.py:184-214 | a result that meets limits no looser than `(a, b)` meets `(a, b)` |
| UseCases.SolutionsWithin | analysis/report_use_cases.py:181-223 | every solution under limits no looser than `(a, b)` belongs to a result that meets `(a, b)` |
| UseCases.UseCase1Report | analysis/report_use_cases.py:173-193 | use case 1 reports at most three configurations, each drawing at most 45 W with latency at most 40 |
| UseCases.UseCase2Report | analysis/report_use_cases.py:175-208 | use case 2 reports at most three configurations, each within 240 J and 1400 MB |
| UseCases.UseCase3Report | analysis/report_use_cases.py:177-223 | use case 3 reports at most three configurations, each with accuracy at least 36 and memory at most 2000 MB |
| UseCases.SolveUseCase | analysis/report_use_cases.py:181-193 | the loop over limit pairs computes exactly the solutions |

## Left out

- The jtop service, its sampling thread, `perf_counter` and `sleep` are not modelled. Clock readings and jtop snapshots are parameters, and the concurrent sampler becomes a sequence of callback calls (`Statlog.RunBlocking`).
- File and console I/O is not modelled: `os.walk`, `os.listdir`, `open`, `json.load`, `input()` and `print`. A file is an abstract value that loaded or did not.
- The blanket `try/except` of the loaders is modelled as skipping a file whose JSON did not load. Other exceptions inside the `try` are not modelled.
- JSON text is not modelled. `to_json`/`from_json` go through a JSON value tree, not through characters, and the `indent=4` layout is not modelled.
- `Log.print` is not modelled: it only formats console output.
- `integrate`, `np.median`, `np.max` and the loop that builds `results` are not modelled: they are floating-point numerics. The use-case selection starts from a given list of result summaries. Reading `accuracy.json` is left out as I/O.
- Floating point (NaN, rounding) is not modelled. Times and values are exact reals.
- The `assert`s on the PID dictionaries in the results loop (analysis/report_use_cases.py:135-137) are not modelled.
- `existing.sort()` (analysis/report_use_cases.py:90) is not modelled. It orders mixed string and integer tag lists, and the order only feeds the numerics above.
- The `model_order`, `device_order`, `pm_order` and `device_pm_dict` tables of the report are not modelled.
- `int()` is modelled for an optional sign followed by ASCII digits. Surrounding whitespace, `_` digit separators and non-ASCII digits are not modelled.
- `Log.get_timestamp` is defined nowhere in tests/statlog.py. It is modelled as the first exact-label lookup with `-1` when absent.
- `tokens_generated` is never set by tests/statlog.py. It is an optional field of the loaded record, and a log without it stops the loaders with `AttributeError` (`Periods.PeriodsOfAbsentAttribute`).
- `TaggedData` and `LogPeriod` are values here. The loaders' in-place appends to a shared `TaggedData._periods` are modelled as replacing the group in the list, so aliasing between references is not modelled.
- The numpy arrays of the old loader are plain sequences of samples.
- tests/run_tests.py, tests/hf_models.py, tests/remaining.py, the smoke-test scripts and all plotting scripts are not part of this model. Their copies of the report helpers are covered by `UseCases`.
- Statlog.RunBlocking: whether jtop keeps calling a callback after it has raised is not visible in tests/statlog.py. The model keeps calling it and counts the failures.
- Loader.LoadFolder, OldLoader.OldLoadFolder: they use the corrected memory merge, so a log whose PIDs share a sample time loads, where the scripts raise `TypeError`.
- Validate: a missing `timestamps`, `value` or `tokens_generated` key (a `KeyError`) is not modelled. Documents are assumed to have these keys.
- Validate: `int(data['tokens_generated'])` is modelled as an integer field. A non-numeric value (`ValueError` or `TypeError`), a float truncated toward zero (`-0.5` becomes `0` and passes) and a document that is not a JSON object are not modelled.
- A loaded log is assumed to carry the base attributes `timestamps`, `power`, `memory_ram` and `memory_gpu` in the shapes the recorder writes. `from_json` replaces the whole attribute dictionary, so a file without one of them loads and then stops the loaders with an uncaught `AttributeError` (analysis/log_loader.py:85, 110, 124, 137; analysis/old_view_scripts/log_loader.py:103, 122, 129, 144, 158). That error is not modelled; only a missing `accuracy`, `tokens_generated` or `freq_gpu` is.

## Findings

| source | as written | input that shows it | evidently intended | confidence | as-written member | corrected member |
|---|---|---|---|---|---|---|
| tests/statlog.py:61-81 | `__init__` never creates `freq_gpu`, but `_log_cb` appends to it | any log created with `Log()`, `begin`, then one jtop callback: `power` gets one sample, then `self.freq_gpu.append` raises `AttributeError` and no memory sample is logged | `__init__` sets `self.freq_gpu = list()` like the other series | not executed | Statlog.CallbackWithoutFreqGpu | Statlog.Log.Initialised |
| analysis/log_loader.py:113-134 | `prev_ram[1] += entry.value` assigns into a tuple, which raises `TypeError` (the same at analysis/old_view_scripts/log_loader.py:137,152) | two PIDs each with one RAM sample at time 3.0 (100 and 50) and a period from 2.0 to 5.0 | the comment says "add up total if there are multiple pids": one entry `(1.0, 150.0)` | not executed | Periods.TwoProcessesSameInstant | Periods.MemoryTotalsSpec |
