# pmtrace, modelled in Dafny

pmtrace is webOS OSE's performance tracer. `pmctl session` starts and stops an
lttng tracing session with the events its configuration names. `pmctl
session-report` turns the babeltrace text dump of that session into a
Catapult (chrome://tracing) JSON report, with a per-thread user view, a group
view keyed by configured "catapult groups" and a CPU-usage view. A malloc
tracer preloaded into processes serves the allocations made before `dlsym`
returns from a static buffer. Three helper scripts work on the results:
`perf_log_viewer.py` finds request/response groups in performance logs,
`mem_profile.py` merges memory snapshots into perfmeta records and
`acg_migration_tracker.py` classifies services by security model.

This project models that core as Dafny specification functions. Where the
source updates objects in place, it adds classes and methods proved against
those functions. Properties the code and its design promise are proved as
contracts and lemmas.

| source | modules |
|---|---|
| src/pmctl/performance-session-report/Definition.h, Definition.cpp | `Definition` |
| src/pmctl/common/utils/Util.cpp | `Util` |
| src/pmctl/performance-session-report/ds/LttngDataNode.cpp | `DataNode` (class `TraceNode`) |
| ds/LttngUserNode.cpp, ds/LttngUserNewNode.cpp, ds/LttngKernelNode.cpp | `UserNode`, `UserNewNode`, `KernelNode` |
| src/pmctl/performance-session-report/config/Configuration.cpp | `ReportConfig` |
| src/pmctl/performance-session-report/option/OptionHandler.cpp | `ReportOptions` |
| src/pmctl/performance-session-report/LttngParser.cpp | `LttngLines`, `TraceEvents`, `MetaMap`, `OrderedMap`, `GroupView`, `CpuView`, `Conversion`, `LttngParser` (class `Parser`) |
| src/pmctl/performance-session/config/Configuration.cpp | `SessionConfig` |
| src/pmctl/performance-session/option/OptionHandler.cpp | `SessionOptions` (class `OptionHandler`) |
| src/libmemtracker/lttng-ust-mtrace-malloc.c | `MtraceMalloc` |
| files/scripts/perf_log_viewer.py | `PerfLogViewer` |
| files/scripts/mem_profile.py | `MemProfile` (class `MemoryProfiler`), with `PyPath` for the `str`/`os.path` pieces |
| files/scripts/acg_migration_tracker.py | `AcgTracker` (class `AcgMigrationTracker`) |

`Wrappers` (Option, Result) and `Json`, an abstract JSON value standing in for
the pbnjson library, are shared by all of them.

## Model

| member | source | states |
|---|---|---|
| Util.FindFrom | src/pmctl/common/utils/Util.cpp:65 | `string::find` from an offset: the result is -1 (npos) with no occurrence at or after the offset, or the first occurrence at or after it |
| Util.ContainsIff | src/pmctl/common/utils/Util.cpp:160 | `find(p) != npos` holds exactly when the pattern occurs somewhere |
| Util.FindFirstOf | src/pmctl/common/utils/Util.cpp:77 | `find_first_of`: the first delimiter at or after the start, `|s|` standing for npos, with no delimiter before it |
| Util.FindFirstNotOf | src/pmctl/common/utils/Util.cpp:76 | `find_first_not_of`: the first non-delimiter at or after the start, `|s|` standing for npos |
| Util.Tokens | src/pmctl/common/utils/Util.cpp:74-85 | the tokens `tokenize` produces are all non-empty and free of delimiters |
| Util.TokensSkip | src/pmctl/common/utils/Util.cpp:82 | a run of delimiters produces no token |
| Util.TokensRun | src/pmctl/common/utils/Util.cpp:77-83 | a maximal run of non-delimiters is exactly one token, then tokenising resumes after it |
| Util.TokensNonEmpty | src/pmctl/common/utils/Util.cpp:74-85 | a string with any non-delimiter character yields at least one token |
| Util.Tokenize | src/pmctl/common/utils/Util.cpp:74-85 | the loop appends to the token vector exactly the maximal non-delimiter runs, in order |
| Util.TokensOfJoin | src/pmctl/common/utils/Util.cpp:74-85 | tokenising a delimiter-joined list of clean tokens gives the list back |
| Util.Without | src/pmctl/common/utils/Util.cpp:29-43 | the result of deleting the target characters is no longer than the input and holds no target character |
| Util.WithoutKeeps | src/pmctl/common/utils/Util.cpp:29-43 | every character outside the target keeps its number of occurrences |
| Util.WithoutTwice | src/pmctl/common/utils/Util.cpp:34-40 | deleting the target characters one after another equals deleting them all at once |
| Util.EraseStep | src/pmctl/common/utils/Util.cpp:36-39 | each `find`/`erase` step removes one occurrence of the character and leaves the final result unchanged |
| Util.EraseDone | src/pmctl/common/utils/Util.cpp:36 | when `find` reports npos there is nothing left to delete |
| Util.DeleteChars | src/pmctl/common/utils/Util.cpp:29-43 | `deleteChars` returns the input with every character of the target removed and the rest in order |
| Util.CountChar | src/pmctl/common/utils/Util.cpp:45-57 | `countChar` returns the number of occurrences of the character |
| Util.ReplaceAllAt | src/pmctl/common/utils/Util.cpp:65-68 | replacement at the first occurrence: prefix, replacement, then the rest replaced |
| Util.ReplaceStep | src/pmctl/common/utils/Util.cpp:65-69 | one replace step followed by resuming after the inserted text keeps the overall left-to-right result |
| Util.ReplaceString | src/pmctl/common/utils/Util.cpp:59-72 | `replaceString` replaces the non-overlapping occurrences left to right, never rescanning inserted text |
| Util.ReplaceAllAbsent | src/pmctl/common/utils/Util.cpp:59-72 | a string without the pattern is returned unchanged |
| Util.ReplaceAllSingle | src/pmctl/common/utils/Util.cpp:59-72 | a single occurrence is replaced exactly once |
| Util.ReplaceAllLength | src/pmctl/common/utils/Util.cpp:59-72 | a replacement no longer than the pattern never lengthens the string |
| Util.SplitFields | src/pmctl/common/utils/Util.cpp:87-105 | `parseTabs` never produces an empty field |
| Util.FieldsOfTabsStep | src/pmctl/common/utils/Util.cpp:93-104 | the first tab field is split at white space, every later tab field is appended whole |
| Util.ParseTabs | src/pmctl/common/utils/Util.cpp:87-105 | `parseTabs` appends the white-space words of the first tab field, then the other tab fields |
| Util.SplitFieldsNoTab | src/pmctl/common/utils/Util.cpp:87-105 | a line without tabs is split at white space only |
| Util.NatToString | src/pmctl/common/utils/Util.cpp:172 | the decimal text of a count is a non-empty digit string without a leading zero |
| Util.DecimalOfNatToString | src/pmctl/common/utils/Util.cpp:172 | reading back the decimal text of `n` gives `n` |
| Util.AtoiOfDecimal | src/pmctl/common/utils/Util.cpp:172 | `atoi` reads a number's decimal text and stops at the first non-digit |
| Util.AtoiOfNegative | src/pmctl/common/utils/Util.cpp:172 | `atoi` honours a leading minus sign |
| Util.AtoiSkipsSpace | src/pmctl/common/utils/Util.cpp:172 | `atoi` skips leading white space |
| Util.CoreNumOfRange | src/pmctl/common/utils/Util.cpp:141-173 | `getCoreNum` on "0-N" gives N + 1 cores, and on a lone "0" gives one |
| DataNode.StampWith | src/pmctl/performance-session-report/ds/LttngDataNode.cpp:27-44 | the timestamp text is a non-empty digit string under either numeric reading |
| DataNode.StampOctalAtBootSecond | src/pmctl/performance-session-report/ds/LttngDataNode.cpp:30-44 | at the boot second the as-written timestamp value is 64 while the decimal reading gives 100 |
| DataNode.StampOctalWithoutBoot | src/pmctl/performance-session-report/ds/LttngDataNode.cpp:36-44 | without a usable boot time the same stamp gives the fallback text "000100", which the as-written reading takes as octal 64 and the decimal reading as 100 |
| DataNode.StampSinceBoot | src/pmctl/performance-session-report/ds/LttngDataNode.cpp:32-34 | with a valid boot time not after the event, the timestamp is the seconds since boot followed by the fraction digits |
| DataNode.StampWithoutBoot | src/pmctl/performance-session-report/ds/LttngDataNode.cpp:36-42 | without a usable boot time, the corrected (decimal) value is the fallback text with one leading '0' and the dots removed, read in base 10; the source reads that text with `stoull(…, 0)` (StampOctalWithoutBoot) |
| DataNode.Base0AgreesWithoutLeadingZero | src/pmctl/performance-session-report/ds/LttngDataNode.cpp:44 | base 0 and base 10 agree on digit strings without a leading zero |
| DataNode.StampAgreesAfterBootSecond | src/pmctl/performance-session-report/ds/LttngDataNode.cpp:30-44 | after the boot second, with seconds written without a leading zero, the as-written and decimal timestamps agree |
| DataNode.WithStamp | src/pmctl/performance-session-report/ds/LttngDataNode.cpp:19-45 | a raw stamp shorter than 16 characters changes nothing; otherwise both timestamp fields are set from the corrected decimal reading `StampDecimal`, where the source reads with base 0 (see the first two Findings rows) |
| DataNode.SettersClean | src/pmctl/performance-session-report/ds/LttngDataNode.cpp:55-74 | after the setters no removed character survives in the cpu, process-name, pid or tid fields, and the numeric cpu id is `atoi` of the text |
| DataNode.InsertFirst | src/pmctl/performance-session-report/ds/LttngDataNode.cpp:76-79 | `std::map::insert`: the key is added, an existing key keeps its value, other keys are untouched |
| DataNode.GetPayload | src/pmctl/performance-session-report/ds/LttngDataNode.cpp:81-87 | `getPayload` returns the stored value, or NODATA when the key is absent |
| DataNode.AddPayloadFirstWins | src/pmctl/performance-session-report/ds/LttngDataNode.cpp:76-87 | adding under a present key changes nothing; a new key reads back its value; other keys read as before |
| DataNode.DividePair | src/pmctl/performance-session-report/ds/LttngDataNode.cpp:89-104 | `dividePair` succeeds exactly when there are two tokens; on success it yields the spaceless left part and the right part; on failure both outputs keep their values |
| DataNode.PairOfJoined | src/pmctl/performance-session-report/ds/LttngDataNode.cpp:89-104 | a key and a value joined by the delimiter divide back into the key without spaces and the value |
| DataNode.PairNeedsOneDelimiter | src/pmctl/performance-session-report/ds/LttngDataNode.cpp:94-98 | a piece with only one token, or with three, does not divide |
| DataNode.StorePieces | src/pmctl/performance-session-report/ds/LttngUserNode.cpp:81-93 | storing the '='-pieces never changes an entry that was already present |
| DataNode.StorePiecesSnoc | src/pmctl/performance-session-report/ds/LttngUserNode.cpp:81-93 | the piece loop stores one piece at a time, in order |
| DataNode.PieceKeysIff | src/pmctl/performance-session-report/ds/LttngUserNode.cpp:85-91 | a key is carried by the pieces exactly when some piece contains '=' and divides to it (`Carries`) |
| DataNode.StorePiecesKeys | src/pmctl/performance-session-report/ds/LttngUserNode.cpp:81-93 | the loop adds exactly the keys of the '='-pieces to those already present |
| DataNode.StorePiecesFirstWins | src/pmctl/performance-session-report/ds/LttngUserNode.cpp:81-93 | a new key's value comes from the first piece that carries it |
| DataNode.PieceEntryOfPair | src/pmctl/performance-session-report/ds/LttngUserNode.cpp:85-91 | a piece "k=v" stores the key without spaces and the value without quotes and spaces |
| DataNode.TraceNode.constructor | src/pmctl/performance-session-report/ds/LttngDataNode.cpp:19-104 | a fresh node has the empty field values |
| DataNode.TraceNode.SetTimeStamp | src/pmctl/performance-session-report/ds/LttngDataNode.cpp:19-45 | `setTimeStamp` leaves the node as `WithStamp` describes, with the corrected decimal reading |
| DataNode.TraceNode.SetHostName | src/pmctl/performance-session-report/ds/LttngDataNode.cpp:47-53 | the host name is the text before the first ':' |
| DataNode.TraceNode.SetCpuId | src/pmctl/performance-session-report/ds/LttngDataNode.cpp:55-59 | the cpu id loses its spaces and its number is read with `atoi` |
| DataNode.TraceNode.SetProcessName | src/pmctl/performance-session-report/ds/LttngDataNode.cpp:61-64 | the process name loses its double quotes and commas |
| DataNode.TraceNode.SetProcessId | src/pmctl/performance-session-report/ds/LttngDataNode.cpp:66-69 | the process id loses its commas and spaces |
| DataNode.TraceNode.SetThreadId | src/pmctl/performance-session-report/ds/LttngDataNode.cpp:71-74 | the thread id loses its commas and spaces |
| DataNode.TraceNode.AddPayloadMap | src/pmctl/performance-session-report/ds/LttngDataNode.cpp:76-79 | `addPayloadMap` inserts only when the key is new |
| DataNode.TraceNode.StorePiece | src/pmctl/performance-session-report/ds/LttngUserNode.cpp:83-92 | one piece containing '=' is divided and stored; any other piece changes nothing |
| DataNode.TraceNode.StoreCommaPairs | src/pmctl/performance-session-report/ds/LttngUserNode.cpp:78-94 | the comma loop stores every piece containing '=', in order, and changes nothing else |
| UserNode.SetProviderAndEvent | src/pmctl/performance-session-report/ds/LttngUserNode.cpp:25-43 | the node is left as `setProviderAndEvent` describes: with fewer than two ':'-tokens nothing changes |
| UserNode.ProviderAndEventOfField | src/pmctl/performance-session-report/ds/LttngUserNode.cpp:25-43 | "provider:event" sets both names, and the signal becomes the event exactly when the event is one of the four signal types |
| UserNode.LastScopedStep | src/pmctl/performance-session-report/ds/LttngUserNode.cpp:131-135 | the word loop of `makeSignal` takes the current word when it contains "::" |
| UserNode.LastScopedIs | src/pmctl/performance-session-report/ds/LttngUserNode.cpp:131-135 | the loop keeps the last word that contains "::" |
| UserNode.LastScopedNone | src/pmctl/performance-session-report/ds/LttngUserNode.cpp:123-135 | with no word containing "::" the whole declaration head is kept |
| UserNode.ScopedHasHead | src/pmctl/performance-session-report/ds/LttngUserNode.cpp:125-126 | a text containing "::" always has a first '('-token, so `tokens[0]` exists |
| UserNode.MakeSignal | src/pmctl/performance-session-report/ds/LttngUserNode.cpp:121-138 | `makeSignal` computes the signal the specification function `SignalOf` defines |
| UserNode.SignalOfDeclaration | src/pmctl/performance-session-report/ds/LttngUserNode.cpp:121-138 | for "ret ns::Name(args" the signal is "ns_Name" |
| UserNode.SetPayload | src/pmctl/performance-session-report/ds/LttngUserNode.cpp:45-95 | the legacy `setPayload` leaves the node as `WithLegacyPayload` describes |
| UserNode.ScopeText | src/pmctl/performance-session-report/ds/LttngUserNode.cpp:50-55 | a scope payload has exactly one '=' and divides into the key "scope" and the quoted value |
| UserNode.ScopePayload | src/pmctl/performance-session-report/ds/LttngUserNode.cpp:57-69 | a scope payload stores the value under "scope"; the signal is the value after the '=' with its leading space, or the name made from it when it is qualified |
| UserNewNode.WithProviderAndEvent | src/pmctl/performance-session-report/ds/LttngUserNewNode.cpp:25-35 | the new-format `setProviderAndEvent` never touches the signal or the payload |
| UserNewNode.SetProviderAndEvent | src/pmctl/performance-session-report/ds/LttngUserNewNode.cpp:25-35 | the node is left as `WithProviderAndEvent` describes |
| UserNewNode.ProviderAndEventOfField | src/pmctl/performance-session-report/ds/LttngUserNewNode.cpp:25-35 | "provider:event" sets both names and nothing else |
| UserNewNode.EtcText | src/pmctl/performance-session-report/ds/LttngUserNewNode.cpp:45 | the key=value text is a prefix of the payload text |
| UserNewNode.PayloadIndexAfter | src/pmctl/performance-session-report/ds/LttngUserNewNode.cpp:44 | "payload" is found right after the ", " that follows the key=value fields |
| UserNewNode.PayloadSplit | src/pmctl/performance-session-report/ds/LttngUserNewNode.cpp:42-46 | `etc, payload = "J"` splits into the fields `etc` and the JSON text `J` |
| UserNewNode.JsonPairs | src/pmctl/performance-session-report/ds/LttngUserNewNode.cpp:70-87 | the JSON object contributes exactly its string and number members |
| UserNewNode.MergeFirst | src/pmctl/performance-session-report/ds/LttngUserNewNode.cpp:70-87 | inserting the JSON members adds their keys and never overwrites a stored key |
| UserNewNode.MergeFirstStep | src/pmctl/performance-session-report/ds/LttngUserNewNode.cpp:70-74 | one more member is one non-overwriting insertion |
| UserNewNode.AddJsonMembers | src/pmctl/performance-session-report/ds/LttngUserNewNode.cpp:70-87 | the member loop leaves the payload as `MergeFirst` of the old payload and the object's members |
| UserNewNode.AddJsonMember | src/pmctl/performance-session-report/ds/LttngUserNewNode.cpp:72-86 | one member is stored under its key unless the key is taken or its kind is skipped |
| UserNewNode.SetPayload | src/pmctl/performance-session-report/ds/LttngUserNewNode.cpp:37-89 | the new-format `setPayload` leaves the node as `WithNewPayload` describes |
| UserNewNode.NewPayloadMember | src/pmctl/performance-session-report/ds/LttngUserNewNode.cpp:48-88 | a key=value field wins over the JSON; otherwise a string member is stored as it is and a number member as its text; no other key appears |
| UserNewNode.IntegralMemberText | src/pmctl/performance-session-report/ds/LttngUserNewNode.cpp:78-79 | an integral number member is stored as its integer text |
| KernelNode.SetProvider | src/pmctl/performance-session-report/ds/LttngKernelNode.cpp:25-31 | `setProvider` leaves the node as `WithProvider` describes |
| KernelNode.ProviderOfField | src/pmctl/performance-session-report/ds/LttngKernelNode.cpp:25-31 | "name:rest" names the provider `name` |
| KernelNode.WithKernelPayload | src/pmctl/performance-session-report/ds/LttngKernelNode.cpp:33-56 | the kernel `setPayload` changes only the payload; it adds exactly the keys of the '='-pieces and keeps every stored entry |
| KernelNode.SetPayload | src/pmctl/performance-session-report/ds/LttngKernelNode.cpp:33-56 | the node is left as `WithKernelPayload` describes |
| KernelNode.KernelPieceStored | src/pmctl/performance-session-report/ds/LttngKernelNode.cpp:43-54 | a field "k=v" on a fresh key stores v without quotes and spaces under k without spaces |
| Json.Get | src/pmctl/performance-session-report/config/Configuration.cpp:91-93 | `v[k]` yields the member when the key is present and null otherwise |
| OrderedMap.Insert | src/pmctl/performance-session-report/config/Configuration.cpp:184 | `std::map::insert` adds at most one entry |
| OrderedMap.InsertSorted | src/pmctl/performance-session-report/config/Configuration.cpp:184 | insertion keeps the keys strictly ascending, the shape of a `std::map` |
| OrderedMap.LookupInsert | src/pmctl/performance-session-report/config/Configuration.cpp:184 | after an insert, a new key holds its value, an existing key keeps its first value, and other keys are untouched |
| OrderedMap.LookupAbove | src/pmctl/performance-session-report/config/Configuration.cpp:184 | a key below every key of the map is not in it |
| OrderedMap.StrLessTransitive | src/pmctl/performance-session-report/config/Configuration.cpp:184 | the `std::string` ordering of the map keys is transitive |
| OrderedMap.StrLessTotal | src/pmctl/performance-session-report/config/Configuration.cpp:184 | two different keys are always ordered one way or the other |
| ReportConfig.EnabledGroupFirst | src/pmctl/performance-session-report/config/Configuration.cpp:99-115 | when every earlier group has `enable`, the first group of that name decides: 1 if enabled, else 0 |
| ReportConfig.EnabledGroupOtherwise | src/pmctl/performance-session-report/config/Configuration.cpp:103-117 | no group of that name gives 0; a group without `enable` reached first gives -1 |
| ReportConfig.IndexOf | src/pmctl/performance-session-report/config/Configuration.cpp:184 | the first position of a name in the enabled-name list |
| ReportConfig.GroupsInfoOk | src/pmctl/performance-session-report/config/Configuration.cpp:165-189 | the group scan succeeds exactly when every group has `enable`, and `name` when enabled |
| ReportConfig.GroupsInfoIds | src/pmctl/performance-session-report/config/Configuration.cpp:177-185 | on success the i-th enabled name gets id gid - i, a repeated name keeps the id of its first occurrence, existing entries keep theirs, and the id drops by the number of enabled groups |
| ReportConfig.GroupEvents | src/pmctl/performance-session-report/config/Configuration.cpp:217-229 | a group contributes one event per configured event, with its group name and consecutive track ids |
| ReportConfig.EventsInfoTids | src/pmctl/performance-session-report/config/Configuration.cpp:191-234 | the event scan only appends, with consecutive track ids from the old counter, and the counter ends one past the last id given |
| ReportConfig.EventsInfoOk | src/pmctl/performance-session-report/config/Configuration.cpp:193-215 | the event scan succeeds exactly when every group has `enable` and `name`, and `catapultEvents` when enabled |
| ReportConfig.Configuration.constructor | src/pmctl/performance-session-report/config/Configuration.cpp:19-30 | all views off, an empty configuration object, track ids from 0 |
| ReportConfig.Configuration.Initialize | src/pmctl/performance-session-report/config/Configuration.cpp:32-95 | `initialize` succeeds exactly when the file is readable and has every required key; on success the three view flags are the configured `enable` values; on failure they are unchanged |
| ReportConfig.Configuration.SetUserView | src/pmctl/performance-session-report/config/Configuration.h:48 | sets the user-view flag and nothing else |
| ReportConfig.Configuration.SetGroupView | src/pmctl/performance-session-report/config/Configuration.h:49 | sets the group-view flag and nothing else |
| ReportConfig.Configuration.SetCpuView | src/pmctl/performance-session-report/config/Configuration.h:50 | sets the cpu-view flag and nothing else |
| ReportConfig.Configuration.IsEnabledGroup | src/pmctl/performance-session-report/config/Configuration.cpp:97-118 | `isEnabledGroup` returns the answer `EnabledGroupAnswer` defines, always one of RETURN_TRUE, RETURN_FALSE and RETURN_ERROR |
| ReportConfig.Configuration.IsValidEvent | src/pmctl/performance-session-report/config/Configuration.cpp:120-163 | `isValidEvent` is false exactly when some ignore rule matches the process and/or provider it names |
| ReportConfig.Configuration.GetCatapultGroupsInfo | src/pmctl/performance-session-report/config/Configuration.cpp:165-189 | `getCatapultGroupsInfo` returns what the group scan `GroupsInfo` defines, including the partial update on failure |
| ReportConfig.Configuration.GetCatapultEventsInfo | src/pmctl/performance-session-report/config/Configuration.cpp:191-234 | `getCatapultEventsInfo` returns and advances what the event scan `EventsInfo` defines, and changes nothing else |
| ReportOptions.ApplyView | src/pmctl/performance-session-report/option/OptionHandler.cpp:226-250 | `setView` keeps the help flag, and succeeds exactly when an argument is given and names at least one of user, group and cpu |
| ReportOptions.ApplyMeasure | src/pmctl/performance-session-report/option/OptionHandler.cpp:268-290 | `setMeasure` keeps the help flag, and succeeds exactly when an argument is given whose `atol` value is in range |
| ReportOptions.ApplyVerdict | src/pmctl/performance-session-report/option/OptionHandler.cpp:168-290 | a setter's verdict depends on its option alone: it fails exactly on a NULL or rejected argument |
| ReportOptions.HelpUntouched | src/pmctl/performance-session-report/option/OptionHandler.cpp:168-290 | only `-h` sets the help flag |
| ReportOptions.FirstStop | src/pmctl/performance-session-report/option/OptionHandler.cpp:85-154 | the first option that ends the getopt loop is help or a failing setter, and none before it is |
| ReportOptions.HandleOutcome | src/pmctl/performance-session-report/option/OptionHandler.cpp:69-156 | `handleOptions` succeeds exactly when it reaches help, or runs out of options, before any setter fails; the help flag is set exactly when help is reached |
| ReportOptions.HelpFirst | src/pmctl/performance-session-report/option/OptionHandler.cpp:91-93 | `-h` first is accepted whatever follows, and sets only the help flag |
| ReportOptions.MeasureRule | src/pmctl/performance-session-report/option/OptionHandler.cpp:268-290 | `setMeasure` accepts exactly the values 1 to 1000, stores the value and its flag, and changes nothing when it rejects |
| ReportOptions.ViewRule | src/pmctl/performance-session-report/option/OptionHandler.cpp:226-250 | `setView` records the argument and the three view flags, by substring, even when it then fails |
| ReportOptions.NullArgumentFails | src/pmctl/performance-session-report/option/OptionHandler.cpp:168-274 | a NULL argument fails every setter that takes one and changes nothing |
| ReportOptions.DebugContinues | src/pmctl/performance-session-report/option/OptionHandler.cpp:118-120 | `-d` and unrecognised options change nothing and do not stop the loop |
| ReportOptions.OptionHandler.constructor | src/pmctl/performance-session-report/option/OptionHandler.cpp:19-48 | copies the arguments; every flag is off except debug, which is set when `-d` or `--debug` is among them |
| ReportOptions.OptionHandler.CheckDebug | src/pmctl/performance-session-report/option/OptionHandler.cpp:57-67 | `checkDebug` sets the debug flag when some argument is `-d` or `--debug` |
| ReportOptions.OptionHandler.SetConfig | src/pmctl/performance-session-report/option/OptionHandler.cpp:168-182 | `setConfig` fails on a NULL or unreadable path; otherwise it stores the path and sets the flag |
| ReportOptions.OptionHandler.SetInput | src/pmctl/performance-session-report/option/OptionHandler.cpp:184-198 | `setInput` fails on a NULL or unreadable path; otherwise it stores the path and sets the flag |
| ReportOptions.OptionHandler.SetOutput | src/pmctl/performance-session-report/option/OptionHandler.cpp:200-224 | `setOutput` fails on a NULL or unwritable path; otherwise it stores the path and sets the flag |
| ReportOptions.OptionHandler.SetView | src/pmctl/performance-session-report/option/OptionHandler.cpp:226-250 | `setView` leaves the fields as `ApplyView` describes |
| ReportOptions.OptionHandler.SetProcess | src/pmctl/performance-session-report/option/OptionHandler.cpp:252-266 | `setProcess` fails on NULL; otherwise it stores the name and sets the flag |
| ReportOptions.OptionHandler.SetMeasure | src/pmctl/performance-session-report/option/OptionHandler.cpp:268-290 | `setMeasure` leaves the fields as `ApplyMeasure` describes |
| ReportOptions.OptionHandler.HandleOptions | src/pmctl/performance-session-report/option/OptionHandler.cpp:69-156 | the getopt loop ends in the fields and verdict `Handle` defines |
| SessionOptions.MentionsSnoc | src/pmctl/performance-session/option/OptionHandler.cpp:136-149 | one more argument word: a command word is mentioned when it was before or is this word, and the recorded command becomes this word when it is one |
| SessionOptions.LastCommandIsOnly | src/pmctl/performance-session/option/OptionHandler.cpp:136-162 | with exactly one of start and stop present, the command recorded is that one |
| SessionOptions.FirstStop | src/pmctl/performance-session/option/OptionHandler.cpp:54-95 | the first option that ends the getopt loop is help or a setter given NULL, and none before it is |
| SessionOptions.HandleOutcome | src/pmctl/performance-session/option/OptionHandler.cpp:41-101 | `handleOptions` succeeds exactly when it reaches help before any NULL argument, or reaches the end of the options with exactly one of start and stop among the arguments |
| SessionOptions.HelpShortCircuit | src/pmctl/performance-session/option/OptionHandler.cpp:89-91 | `-h` first is accepted whatever follows, even with no command word |
| SessionOptions.CommandDecides | src/pmctl/performance-session/option/OptionHandler.cpp:97-100 | without help the command words decide, and the recorded command is the one named |
| SessionOptions.DebugContinues | src/pmctl/performance-session/option/OptionHandler.cpp:86-88 | `-d` sets the debug flag and the loop goes on |
| SessionOptions.SetterRule | src/pmctl/performance-session/option/OptionHandler.cpp:103-129 | `-c` and `-e` fail on a NULL argument; otherwise they store it and set the flag |
| SessionOptions.OptionHandler.constructor | src/pmctl/performance-session/option/OptionHandler.cpp:19-32 | copies the arguments, with every flag off |
| SessionOptions.OptionHandler.SetConfig | src/pmctl/performance-session/option/OptionHandler.cpp:103-115 | `setConfig` leaves the fields as `SetterRule` states |
| SessionOptions.OptionHandler.SetEvent | src/pmctl/performance-session/option/OptionHandler.cpp:117-129 | `setEvent` leaves the fields as `SetterRule` states |
| SessionOptions.OptionHandler.CheckCommand | src/pmctl/performance-session/option/OptionHandler.cpp:131-163 | `checkCommand` is true exactly when one of start and stop appears; the command recorded is the last such word |
| SessionOptions.OptionHandler.HandleOptions | src/pmctl/performance-session/option/OptionHandler.cpp:41-101 | the getopt loop then the command check end in the fields and verdict `Handle` defines |
| SessionConfig.EnabledNames | src/pmctl/performance-session/config/Configuration.cpp:128-134 | the names pushed without `-e` are exactly those of the enabled entries |
| SessionConfig.InitEvent | src/pmctl/performance-session/config/Configuration.cpp:65-144 | `initEvent`: an unreadable file fails and changes nothing; otherwise the parsed file is kept; a missing key fails before any selection; with `-e` the selected events are its comma tokens and it succeeds exactly when each is configured; without `-e` the enabled names are selected |
| SessionConfig.LttngNames | src/pmctl/performance-session/config/Configuration.cpp:47-58 | one entry contributes one name per lttng event it lists |
| SessionConfig.InsertAllConcat | src/pmctl/performance-session/config/Configuration.cpp:42-60 | inserting two lists of names is inserting one after the other |
| SessionConfig.InsertAllMeaning | src/pmctl/performance-session/config/Configuration.cpp:47-58 | the map gains exactly the inserted names; a name already present keeps its value; a new one maps to `kernel` when it is sched_switch and to `user` otherwise |
| SessionConfig.Configuration.constructor | src/pmctl/performance-session/config/Configuration.cpp:19-27 | the default event file, an empty configuration object, no events, no kernel event |
| SessionConfig.Configuration.Initialize | src/pmctl/performance-session/config/Configuration.cpp:29-38 | a `-c` path replaces the default file, then the outcome is that of `initEvent` |
| SessionConfig.Configuration.CheckEntries | src/pmctl/performance-session/config/Configuration.cpp:82-101 | the key check succeeds exactly when every entry has `name`, `enable` and `lttngEvents` |
| SessionConfig.Configuration.CheckExplained | src/pmctl/performance-session/config/Configuration.cpp:109-124 | the `-e` check succeeds exactly when every selected name is carried by some entry |
| SessionConfig.Configuration.InitEventFrom | src/pmctl/performance-session/config/Configuration.cpp:65-144 | the method computes what `InitEvent` defines |
| SessionConfig.Configuration.InsertLttngNames | src/pmctl/performance-session/config/Configuration.cpp:47-58 | the inner loop inserts one entry's lttng events, and raises the kernel flag exactly when sched_switch is among them |
| SessionConfig.Configuration.GetLttngEventsInfo | src/pmctl/performance-session/config/Configuration.cpp:40-63 | `getLttngEventsInfo` always succeeds, inserts every lttng event of every selected entry, and raises the kernel flag on sched_switch |
| SessionConfig.EventsInfoMeaning | src/pmctl/performance-session/config/Configuration.cpp:40-63 | a name not in the caller's map is in the result exactly when some selected entry lists it, and then maps to its kind |
| SessionConfig.SelectedNamesMembers | src/pmctl/performance-session/config/Configuration.cpp:42-58 | the names gathered are exactly the lttng events of the selected entries |
| MtraceMalloc.AlignUp | src/libmemtracker/lttng-ust-mtrace-malloc.c:37-38 | for a power-of-two alignment, `ALIGN` gives the least multiple of the alignment that is at least the value |
| MtraceMalloc.Alloc | src/libmemtracker/lttng-ust-mtrace-malloc.c:88-115 | the corrected allocator: an empty request gives NULL; a request that does not fit aborts; any other is placed aligned just after its size word, and the offset moves to its end |
| MtraceMalloc.AllocAsWritten | src/libmemtracker/lttng-ust-mtrace-malloc.c:92-112 | the allocator with 64-bit wrap-around of `nmemb * size` and of the end offset, as written; its offset never passes the buffer end |
| MtraceMalloc.HugeRequestWraps | src/libmemtracker/lttng-ust-mtrace-malloc.c:105-112 | `static_malloc(SIZE_MAX)` on a fresh buffer passes the bound check as written, while the exact bound aborts |
| MtraceMalloc.ProductWrapsToNull | src/libmemtracker/lttng-ust-mtrace-malloc.c:92-94 | `static_calloc(2^32, 2^32)` returns NULL as written, because `nmemb * size` wraps to 0, while the exact product aborts |
| MtraceMalloc.AllocAgreesBelowWrap | src/libmemtracker/lttng-ust-mtrace-malloc.c:88-115 | when neither `nmemb * size` nor the end offset reaches 2^64, the allocator as written and the exact `Alloc` give the same result and offset |
| MtraceMalloc.BlockInsideBuffer | src/libmemtracker/lttng-ust-mtrace-malloc.c:105-114 | (corrected, of the exact `Alloc`) every block handed out lies inside the buffer, after its size word, and is non-empty; as written, HugeRequestWraps hands out a block that does not fit |
| MtraceMalloc.SuccessiveBlocksDisjoint | src/libmemtracker/lttng-ust-mtrace-malloc.c:102-112 | two successive allocations never overlap, and the offset only grows |
| MtraceMalloc.LittleEndianRoundTrip | src/libmemtracker/lttng-ust-mtrace-malloc.c:113 | the bytes written for a value read back as that value |
| MtraceMalloc.SizeWordRoundTrip | src/libmemtracker/lttng-ust-mtrace-malloc.c:113 | a `size_t` survives being stored in the size word and read back |
| MtraceMalloc.StaticBlocksNotFreed | src/libmemtracker/lttng-ust-mtrace-malloc.c:271-272 | every static block passes `free`'s range test, so it is never handed to the real allocator |
| MtraceMalloc.StaticAllocator.constructor | src/libmemtracker/lttng-ust-mtrace-malloc.c:60-62 | a zeroed buffer of STATIC_CALLOC_LEN bytes at offset 0 |
| MtraceMalloc.StaticAllocator.WriteSizeWord | src/libmemtracker/lttng-ust-mtrace-malloc.c:113 | the eight bytes at the position hold the value, least significant first, and nothing else changes |
| MtraceMalloc.StaticAllocator.CallocAligned | src/libmemtracker/lttng-ust-mtrace-malloc.c:88-115 | (corrected arithmetic, see Alloc) `static_calloc_aligned` returns and moves the offset as `Alloc` says, writes the size word in front of the block, and leaves the block zero |
| MtraceMalloc.StaticAllocator.Calloc | src/libmemtracker/lttng-ust-mtrace-malloc.c:117-124 | (corrected arithmetic, see Alloc) `static_calloc` is the aligned allocator with byte alignment: the size word holds `size`, the block reads as zero, and every other byte, earlier blocks and their size words included, keeps its value |
| MtraceMalloc.StaticAllocator.Malloc | src/libmemtracker/lttng-ust-mtrace-malloc.c:126-133 | (corrected arithmetic, see Alloc) `static_malloc` allocates one element of the size with byte alignment: the size word holds `size`, the block reads as zero, and every other byte keeps its value |
| MtraceMalloc.StaticAllocator.Memalign | src/libmemtracker/lttng-ust-mtrace-malloc.c:170-177 | (corrected arithmetic, see Alloc) `static_memalign` allocates one element at the given alignment: the size word holds `size`, the block reads as zero, and every other byte keeps its value |
| MtraceMalloc.StaticAllocator.PosixMemalign | src/libmemtracker/lttng-ust-mtrace-malloc.c:179-194 | (corrected arithmetic, see Alloc) `static_posix_memalign` always returns 0; a bad alignment leaves `*memptr` and the buffer as they were; otherwise `*memptr` receives a block whose size word holds `size`, which reads as zero, and every other byte keeps its value |
| MtraceMalloc.StaticAllocator.Memcpy | src/libmemtracker/lttng-ust-mtrace-malloc.c:165 | the destination receives the source bytes, and nothing else changes |
| MtraceMalloc.StaticAllocator.Realloc | src/libmemtracker/lttng-ust-mtrace-malloc.c:141-168 | (corrected arithmetic, see Alloc) `static_realloc`: size 0 gives NULL; a block whose size word is large enough is reused with the word lowered to `size` and every other byte kept; anything else gets a fresh block whose size word holds `size`, which starts with a copy of the old block's bytes and is zero after them, every other byte kept |
| MtraceMalloc.StaticAllocator.Move | src/libmemtracker/lttng-ust-mtrace-malloc.c:161-165 | (corrected arithmetic, see Alloc) the growing half of `static_realloc`: a fresh block whose size word holds `size` receives the old block's recorded bytes and is zero after them, and every other byte keeps its value |
| PerfLogViewer.InOrderFromMeaning | files/scripts/perf_log_viewer.py:65-74 | the scan passes exactly when every required string's first position is at least the running bound and the positions never decrease |
| PerfLogViewer.ContainsRequiredMeaning | files/scripts/perf_log_viewer.py:57-74 | `is_contain_required_strs` holds exactly when every required string is present and their first occurrences come in list order; an empty list always passes |
| PerfLogViewer.IsWildcardIff | files/scripts/perf_log_viewer.py:439-445 | the wildcard test is equality with "*" |
| PerfLogViewer.IsMatchedMeaning | files/scripts/perf_log_viewer.py:438-451 | `is_matched` holds exactly when each of type, group and message id is the wildcard or equal to the entry's, and the required strings occur in order |
| PerfLogViewer.AnyMatchedIff | files/scripts/perf_log_viewer.py:405-417 | a list of conditions matches exactly when one of them does |
| PerfLogViewer.FirstMatched | files/scripts/perf_log_viewer.py:398-403 | `get_matched_start_cond` finds a condition exactly when some start condition matches |
| PerfLogViewer.FirstMatchedMeaning | files/scripts/perf_log_viewer.py:398-403 | the condition found is the first of the list that matches |
| PerfLogViewer.MatchingContexts | files/scripts/perf_log_viewer.py:465-472 | the matching contexts are a sub-list, and the first of them matches the entry |
| PerfLogViewer.MatchingContextsMeaning | files/scripts/perf_log_viewer.py:465-472 | exactly the contexts whose start conditions match the entry are kept |
| PerfLogViewer.BestAmong | files/scripts/perf_log_viewer.py:280-285 | `most_common(1)` picks a most frequent value, the earliest one on a tie |
| PerfLogViewer.Represent | files/scripts/perf_log_viewer.py:276-298 | an explicit name wins; otherwise a most frequent value of the entries; an empty list changes nothing |
| PerfLogViewer.Types | files/scripts/perf_log_viewer.py:280 | the list of the entries' types, one per entry |
| PerfLogViewer.Groups | files/scripts/perf_log_viewer.py:292 | the list of the entries' groups, one per entry |
| PerfLogViewer.LogList.constructor | files/scripts/perf_log_viewer.py:255-259 | the list holds the entries, with no representative type or group |
| PerfLogViewer.LogList.ClockBegin | files/scripts/perf_log_viewer.py:261-265 | `clock_begin`: None for an empty list, else the first clock, which no clock precedes in a sorted list |
| PerfLogViewer.LogList.ClockEnd | files/scripts/perf_log_viewer.py:267-271 | `clock_end`: None for an empty list, else the last clock, which no clock follows in a sorted list |
| PerfLogViewer.LogList.SetRepresentType | files/scripts/perf_log_viewer.py:276-286 | `set_represent_type` sets the type `Represent` chooses |
| PerfLogViewer.LogList.SetRepresentGroup | files/scripts/perf_log_viewer.py:288-298 | `set_represent_group` sets the group `Represent` chooses |
| PerfLogViewer.BalanceStep | files/scripts/perf_log_viewer.py:146-153 | the brace depth after a character is the depth before it plus its own effect |
| PerfLogViewer.ScanKvs | files/scripts/perf_log_viewer.py:144-157 | the brace scan fails exactly when the first brace is a '}'; otherwise it stops at the brace that closes the first object, or reports 0 when none does |
| PerfLogViewer.TrimEnd | files/scripts/perf_log_viewer.py:168 | the index past the last character that is not white space in the sense of Python 3 `str.isspace` (ASCII 9-13 and 0x1C-0x20, and the Unicode spaces such as 0x85, 0xA0, 0x2000-0x200A, 0x3000) |
| PerfLogViewer.Strip | files/scripts/perf_log_viewer.py:168 | Python 3 `str.strip()` is a slice with only `str.isspace` characters cut off both ends, and neither end of the result is one |
| PerfLogViewer.SplitRest | files/scripts/perf_log_viewer.py:141-168 | `parse` splits the rest into the JSON object up to its closing brace and the stripped free text after it, failing on an unmatched '}' |
| PerfLogViewer.Window | files/scripts/perf_log_viewer.py:523-524 | the comprehension never adds entries |
| PerfLogViewer.WindowMeaning | files/scripts/perf_log_viewer.py:523-524 | the window holds only entries of the list earlier than the limit, and begins with the first entry when that one is |
| PerfLogViewer.LastEnd | files/scripts/perf_log_viewer.py:526-529 | the reversed scan finds an index inside the window, or -1 |
| PerfLogViewer.LastEndMeaning | files/scripts/perf_log_viewer.py:526-529 | the index found matches an end condition, and no later entry of the window does |
| PerfLogViewer.LastEndIndex | files/scripts/perf_log_viewer.py:526-532 | the `for ... else` loop finds the last end entry, as `LastEnd` defines |
| PerfLogViewer.SomeMatchedByIff | files/scripts/perf_log_viewer.py:534 | `any(...)` holds exactly when some entry matches the condition |
| PerfLogViewer.Group | files/scripts/perf_log_viewer.py:523-536 | a group, when there is one, is a non-empty part of the window |
| PerfLogViewer.GroupMeaning | files/scripts/perf_log_viewer.py:523-536 | a group is the window's prefix up to its last end entry, with no later start match; there is none exactly when no end entry exists or an entry after the first matches the start condition |
| PerfLogViewer.ContextsAsWritten | files/scripts/perf_log_viewer.py:522-549 | the as-written context loop only moves the cursor forward |
| PerfLogViewer.GroupsAtAsWritten | files/scripts/perf_log_viewer.py:509-551 | the as-written step at the cursor only moves it forward |
| PerfLogViewer.SecondContextSkipsStart | files/scripts/perf_log_viewer.py:522-549 | with two copies of a context over a start and an end entry, the script as written reports [start, end] and then a second group for the same start that holds only the end entry |
| PerfLogViewer.Contexts | files/scripts/perf_log_viewer.py:522-549 | the corrected context loop, each window taken from the start entry and the cursor target kept at the furthest group end: the target never moves backwards |
| PerfLogViewer.ContextsSkip | files/scripts/perf_log_viewer.py:530-536 | a context without a group leaves the loop's state as it is |
| PerfLogViewer.ContextsTake | files/scripts/perf_log_viewer.py:538-549 | (corrected loop) a context with a group records it and extends the cursor target to the furthest group end, where the script adds `len(possible_window) - 1` per group |
| PerfLogViewer.GroupsAt | files/scripts/perf_log_viewer.py:509-551 | the corrected step at the cursor only moves it forward |
| PerfLogViewer.AnalyzeUnfold | files/scripts/perf_log_viewer.py:509-551 | (corrected) `Analyze` is the groups found at the cursor followed by those found after them |
| PerfLogViewer.GroupsAtAgreeOnOneContext | files/scripts/perf_log_viewer.py:509-551 | when one context matches the entry under the cursor, the corrected step and the script's step give the same groups and cursor |
| PerfLogViewer.ContextsAgreeOnOne | files/scripts/perf_log_viewer.py:522-549 | with a single context, the corrected context loop and the script's loop find the same group (or none) and report the same last index |
| PerfLogViewer.AnalyzeAgreesOnOneContext | files/scripts/perf_log_viewer.py:503-553 | when at most one context matches each entry, the script's `analyze` reports exactly the groups of the corrected `Analyze` |
| PerfLogViewer.PrefixInWindow | files/scripts/perf_log_viewer.py:523-529 | a group's entries lie in the response window from the start entry, and it begins with the start entry when the allowance is positive |
| PerfLogViewer.GroupFound | files/scripts/perf_log_viewer.py:522-547 | a group found for a matching context satisfies `WellFound` |
| PerfLogViewer.ContextsFound | files/scripts/perf_log_viewer.py:522-549 | (corrected loop) every group the context loop records is well found and starts at the cursor entry; as written, a second context's group can start later (SecondContextSkipsStart) |
| PerfLogViewer.GroupsAtFound | files/scripts/perf_log_viewer.py:509-551 | (corrected step) the groups found at one entry are well found and record that entry |
| PerfLogViewer.AnalyzeFound | files/scripts/perf_log_viewer.py:503-553 | (corrected, of `Analyze`) every group the corrected `analyze` reports starts at an entry its context's start conditions match, ends with an end-condition entry, lies in the response window, and holds no second start; as written, SecondContextSkipsStart reports a group holding only the end entry |
| PerfLogViewer.OrderedConcat | files/scripts/perf_log_viewer.py:509-551 | (corrected) groups at one entry, followed by groups at later entries, stay ordered by start |
| PerfLogViewer.AnalyzeOrdered | files/scripts/perf_log_viewer.py:503-553 | (corrected) the groups `Analyze` reports come in order of their start entries, all at or after the cursor |
| PerfLogViewer.GroupOf | files/scripts/perf_log_viewer.py:523-536 | the window trimming for one context computes `Group` |
| PerfLogViewer.ContextGroups | files/scripts/perf_log_viewer.py:522-549 | (corrected loop) the loop over the matching contexts, each window taken from the start entry, computes `Contexts`; it agrees with the script when one context matches (AnalyzeAgreesOnOneContext) |
| PerfLogViewer.GroupsAtCursor | files/scripts/perf_log_viewer.py:510-551 | (corrected step) one step of the cursor loop computes `GroupsAt`, which equals the script's step when one context matches (GroupsAtAgreeOnOneContext) |
| PerfLogViewer.AnalyzeLogs | files/scripts/perf_log_viewer.py:503-553 | (corrected) the cursor loop returns the groups `Analyze` defines; the script's `analyze` is `AnalyzeAsWritten`, and the two agree when at most one context matches each entry (AnalyzeAgreesOnOneContext) |
| PyPath.AfterLast | files/scripts/acg_migration_tracker.py:82 | the index just past the last occurrence of the character: at most the length, preceded by that character when positive, with no occurrence after it |
| PyPath.AfterLastAppend | files/scripts/acg_migration_tracker.py:82 | appending text free of the character does not move its last occurrence |
| PyPath.SplitOfJoin | files/scripts/mem_profile.py:123-124 | `os.path.split` of `os.path.join(a, b)` gives back `b` when it holds no slash, and `a` when it is non-empty and does not end in a slash |
| PyPath.SplitExtParts | files/scripts/acg_migration_tracker.py:82 | `os.path.splitext` cuts the path in two parts that concatenate to it; the extension is empty or a dot followed by text free of dots and slashes |
| PyPath.NoCharConcat | files/scripts/mem_profile.py:88 | two texts free of a character concatenate to one free of it |
| PyPath.LastDotOf | files/scripts/acg_migration_tracker.py:82 | the last dot of a root followed by a dot-led, dot-free extension is the extension's own dot |
| PyPath.SplitExtOf | files/scripts/acg_migration_tracker.py:82 | a dot-led extension after a slash-free root holding a non-dot character is split off exactly |
| MemProfile.FirstSuffix | files/scripts/mem_profile.py:111-114 | the index of the first extension in list order that ends the path: none before it does, and the one at it does |
| MemProfile.RemoveExtFirst | files/scripts/mem_profile.py:104-115 | only the first matching extension is cut (an empty one leaves the empty string, as `path[:-0]` does); putting a non-empty one back gives the path; with no match the path is unchanged |
| MemProfile.RemoveExtension | files/scripts/mem_profile.py:104-115 | the loop with its `break` computes exactly the first-match removal |
| MemProfile.SplitOnParts | files/scripts/mem_profile.py:126 | splitting yields one part more than there are separators |
| MemProfile.SplitOnPair | files/scripts/mem_profile.py:126 | two separator-free words joined by one separator split back into those two words |
| MemProfile.SplitOnNone | files/scripts/mem_profile.py:126 | a text without the separator splits into itself |
| MemProfile.InfoFromPathDefined | files/scripts/mem_profile.py:117-127 | parsing a snapshot path succeeds exactly when the file stem, with its snapshot extension removed, holds one underscore (otherwise the two-name unpacking raises) |
| MemProfile.CaptureRoundTrip | files/scripts/mem_profile.py:49-89 | the path `capture_snapshot` writes to, `<base>/<test case>/<ts>_<scenario>.tar.gz`, parses back to that test case, timestamp and scenario |
| MemProfile.CaptureFileName | files/scripts/mem_profile.py:87-89 | the captured file name is slash-free, loses exactly its `.tar.gz` extension and its stem splits into timestamp and scenario |
| MemProfile.Lookup | files/scripts/mem_profile.py:225 | a key's lookup in a loaded JSON object succeeds exactly when some entry has that key |
| MemProfile.Placement | files/scripts/mem_profile.py:211-242 | `APS_Unit` goes nowhere, `APS_SystemMemory` to System/Memory, and every other key to `Process/<key>/Memory` |
| MemProfile.PlacementShared | files/scripts/mem_profile.py:213-242 | two different keys share an inner map only when they are `APS_AllProcesses` and a process named `AllProcesses` |
| MemProfile.DistinctPrefix | files/scripts/mem_profile.py:226 | a prefix of an object's entries still has distinct keys |
| MemProfile.LastKeyFresh | files/scripts/mem_profile.py:226 | with distinct keys, the last key does not occur earlier |
| MemProfile.AddRowsValues | files/scripts/mem_profile.py:244-246 | merging a table appends its value under each key to that key's series and to no other |
| MemProfile.AddRowsUnit | files/scripts/mem_profile.py:245 | a series exists afterwards exactly when it existed or the table has its key; an existing series keeps its unit, a new one takes this file's unit |
| MemProfile.AddRowsLoop | files/scripts/mem_profile.py:244-246 | the inner `for k2` loop computes the table merge |
| MemProfile.PlaceEntryValues | files/scripts/mem_profile.py:226-246 | one top-level entry appends its table's value to exactly the series its placement names and leaves the scenario list alone |
| MemProfile.PlaceEntriesValues | files/scripts/mem_profile.py:226-246 | all entries of a loaded file append, in order, exactly what each contributes to each series |
| MemProfile.MemoryProfiler.PlaceAll | files/scripts/mem_profile.py:226-246 | the `for k1` loop computes the placement of all entries |
| MemProfile.MergeFileKeys | files/scripts/mem_profile.py:218-220 | the ordered test-case map keeps listing each key once, and a new test case goes last |
| MemProfile.MergeFileShape | files/scripts/mem_profile.py:218-223 | merging one element appends its scenario record (name and timestamp) to its own test case and leaves every other test case unchanged |
| MemProfile.MergeFileValues | files/scripts/mem_profile.py:218-246 | one element appends its own contribution to its own test case's series only |
| MemProfile.MergeAllValues | files/scripts/mem_profile.py:218-246 | after merging a list, every series holds what it held before followed by the values the elements of its test case placed there, in list order |
| MemProfile.SystemValuesOnly | files/scripts/mem_profile.py:213-217 | only `APS_SystemMemory` contributes to a System map other than Memory: nothing does |
| MemProfile.CollectedNone | files/scripts/mem_profile.py:213-217 | a whole list contributes nothing to a System map other than Memory |
| MemProfile.PerfmetaDataItems | files/scripts/mem_profile.py:274-298 | the report lists only test cases whose System/type/value/Values lookup succeeds, each with that lookup's number and the requested type, and lists every such test case |
| MemProfile.PerfItemOfMerge | files/scripts/mem_profile.py:200-298 | on freshly merged results, a test case's reported number is the last system value minus the first, or the only one; no report when the type is not Memory or no value was merged |
| MemProfile.ProfileNameParse | files/scripts/mem_profile.py:249 | an output file's last component is `<test case>.profile` |
| MemProfile.ProfileNamesParse | files/scripts/mem_profile.py:247-254 | one output file per test case, in key order, each named after its test case |
| MemProfile.MemoryProfiler.constructor | files/scripts/mem_profile.py:25-46 | the folder, type and value are stored, the test-case map starts empty |
| MemProfile.MemoryProfiler.MergeOne | files/scripts/mem_profile.py:218-246 | one outer iteration updates the ordered map as the merge of that element specifies |
| MemProfile.MemoryProfiler.MergeAllFiles | files/scripts/mem_profile.py:218-246 | the outer loop merges every element in list order |
| MemProfile.MemoryProfiler.MergeResults | files/scripts/mem_profile.py:200-254 | an empty list returns nothing and changes nothing; otherwise all elements are merged and the file list names one profile per test case in key order |
| MemProfile.MemoryProfiler.ProfileList | files/scripts/mem_profile.py:247-254 | the output loop names one profile per test case |
| MemProfile.MemoryProfiler.GeneratePerfmetaData | files/scripts/mem_profile.py:256-298 | the test-case loop builds exactly the report data specified per test case |
| AcgTracker.ServiceNameOf | files/scripts/acg_migration_tracker.py:81-86 | a role file `<service>.role.<ext>` and a service file `<service>.<ext>` both name `<service>` |
| AcgTracker.NamesOfSnoc | files/scripts/acg_migration_tracker.py:81-86 | one more file name adds exactly the service it names |
| AcgTracker.Classify | files/scripts/acg_migration_tracker.py:58-61 | all services are the union of both kinds; mixed are those named by both, old and ACG those named by one kind only; the three classes are disjoint and cover all |
| AcgTracker.ClassCounts | files/scripts/acg_migration_tracker.py:58-61 | the three summary counts add up to the number of services |
| AcgTracker.ListsMeans | files/scripts/acg_migration_tracker.py:121-131 | the records listed for a set are one per element, each with the given type and value, and every element is covered |
| AcgTracker.AddItems | files/scripts/acg_migration_tracker.py:69-75 | one `for` loop over a set keeps what was there and appends one record per element, in some order |
| AcgTracker.SliceOfPrefix | files/scripts/acg_migration_tracker.py:116-131 | a slice lying inside a prefix is a slice of that prefix |
| AcgTracker.PrefixTrans | files/scripts/acg_migration_tracker.py:116-131 | a prefix of a prefix is a prefix |
| AcgTracker.ListsInPrefix | files/scripts/acg_migration_tracker.py:116-131 | records already appended stay where they are as more are appended |
| AcgTracker.AcgMigrationTracker.constructor | files/scripts/acg_migration_tracker.py:36-43 | the base directory and output flag are stored and all five sets start empty |
| AcgTracker.AcgMigrationTracker.FileService | files/scripts/acg_migration_tracker.py:82-85 | the loop body drops the extension and then a trailing `.role` |
| AcgTracker.AcgMigrationTracker.ParseSingleDir | files/scripts/acg_migration_tracker.py:77-86 | a missing directory adds nothing; an existing one adds the service every file in it names |
| AcgTracker.AcgMigrationTracker.ParseAcgDirs | files/scripts/acg_migration_tracker.py:46-49 | the two `luna-service2` directories feed the ACG set |
| AcgTracker.AcgMigrationTracker.ParseOldDirs | files/scripts/acg_migration_tracker.py:50-57 | the four legacy directories feed the old set |
| AcgTracker.AcgMigrationTracker.ParseDir | files/scripts/acg_migration_tracker.py:45-61 | the four sets become the classification of what the legacy and ACG directories add to the sets as they were |
| AcgTracker.AcgMigrationTracker.JsonData | files/scripts/acg_migration_tracker.py:100-131 | the data list holds the four summary counts in order, then one migration record per old (0), mixed (1) and ACG (2) service and one check record per missing API |
| LttngLines.Normalize | src/pmctl/performance-session-report/LttngParser.cpp:177-178 | a space right after the first character is removed, leaving the rest in place; any other line is unchanged |
| LttngLines.RouteOfWords | src/pmctl/performance-session-report/LttngParser.cpp:180-213 | a line holding "bin_info", "build_id" or "debug_link" is skipped; otherwise, with the CPU view on, "sched_switch" takes the kernel path; otherwise "pmtrace", "cat" and "payload" together select the new format and anything else the legacy format |
| LttngLines.NoKernelWithoutCpuView | src/pmctl/performance-session-report/LttngParser.cpp:187-212 | with the CPU view off no line takes the kernel path, so a sched_switch line is read as a user line |
| LttngLines.JoinSpacedSnoc | src/pmctl/performance-session-report/LttngParser.cpp:284 | one more payload token appends it followed by one space |
| LttngLines.JoinSpacedCons | src/pmctl/performance-session-report/LttngParser.cpp:284 | read from the left, the payload text is the first token, a space, then the rest |
| LttngLines.JoinSpacedTokens | src/pmctl/performance-session-report/LttngParser.cpp:282-288 | non-empty, space-free payload tokens are recovered by splitting the payload text at spaces |
| LttngLines.JoinSpacedLength | src/pmctl/performance-session-report/LttngParser.cpp:282-288 | the payload text has at least one character per token and ends in a space when there are tokens |
| LttngLines.MinTokens | src/pmctl/performance-session-report/Definition.h:76-84 | a kernel line needs 17 fields and a user line 20; shorter lines are rejected |
| LttngLines.HeaderFields | src/pmctl/performance-session-report/LttngParser.cpp:249-281 | field 0 gives the timestamp, 2 the host, 3 the provider (and the event type of user events), 7 the cpu, 12 the process name, 15 the pid, and 18 the tid of user events, while a kernel event takes its tid from field 15 too; nothing else is set |
| LttngLines.ProviderFieldOf | src/pmctl/performance-session-report/LttngParser.cpp:389-412 | a kernel provider is the text before ':'; a user field without two ':'-separated names leaves the node alone; the new format does not touch the signal |
| LttngLines.NodeKeepsHeader | src/pmctl/performance-session-report/LttngParser.cpp:282-288 | only the later fields reach the payload: the header fields of the built node are the header's |
| LttngLines.SetField | src/pmctl/performance-session-report/LttngParser.cpp:253-278 | one step of the header switch turns the node for fields 0..i-1 into the node for fields 0..i |
| LttngLines.PayloadTokens | src/pmctl/performance-session-report/LttngParser.cpp:282-285 | the `else` branch gathers every field from the first payload field on, each followed by a space |
| LttngLines.BuildNode | src/pmctl/performance-session-report/LttngParser.cpp:244-288 | the field loop followed by `setPayload` builds exactly the node the line specifies |
| LttngLines.StartsWithIff | src/pmctl/performance-session-report/LttngParser.cpp:718 | `find(p) == 0` holds exactly when `p` is a prefix |
| LttngLines.SwapperTokens | src/pmctl/performance-session-report/LttngParser.cpp:530-542 | "swapper/N" splits at '/' into "swapper" and N |
| LttngLines.SwapperOfCore | src/pmctl/performance-session-report/LttngParser.cpp:530-542 | "swapper/N" is core N and is drawn on the idle-thread track -1-N |
| TraceEvents.LegacyPhase | src/pmctl/performance-session-report/LttngParser.cpp:919-950 | soinfo, touch, message and key-value events are instants (I); before, scope, function and im-function entries begin (B) and their exits end (E); start, end and unknown types draw nothing |
| TraceEvents.NewPhase | src/pmctl/performance-session-report/LttngParser.cpp:1018-1037 | a block entry begins (B) and a block exit ends (E), both named by the payload's "name"; a log is an instant (I) named by its "cat"; any other type draws nothing |
| TraceEvents.NewGroupPhase | src/pmctl/performance-session-report/LttngParser.cpp:1125-1143 | the new-format group view draws only block entries (B) and block exits (E) |
| TraceEvents.NodeFields | src/pmctl/performance-session-report/LttngParser.cpp:650-663 | each of hostname, provider, process name, pid, tid, cpu_id and signal is put exactly when the node's field is non-empty, and no other key is put |
| TraceEvents.UserDetail | src/pmctl/performance-session-report/LttngParser.cpp:648-670 | every payload entry shows, overriding a field of the same name; every other key is a non-empty node field |
| TraceEvents.UserDetailField | src/pmctl/performance-session-report/LttngParser.cpp:648-670 | a node field not shadowed by the payload shows exactly when it is non-empty, with its value |
| TraceEvents.UserNewDetail | src/pmctl/performance-session-report/LttngParser.cpp:672-681 | the arguments are the payload without "cat" and "name" |
| TraceEvents.KernelDetail | src/pmctl/performance-session-report/LttngParser.cpp:694-698 | the arguments hold the cpu id, and only when it is non-empty |
| TraceEvents.AllEventsShape | src/pmctl/performance-session-report/LttngParser.cpp:907-957 | a legacy event is drawn once exactly when its type has a phase, in category "all" and named by its signal |
| TraceEvents.MarkerEvents | src/pmctl/performance-session-report/LttngParser.cpp:964-1008 | a marker gives four events N, O, D and I, named by the payload's "name" in its "cat"; the first three carry the thread id as id, only O carries the payload as its snapshot argument, and I is global |
| TraceEvents.NewEventsShape | src/pmctl/performance-session-report/LttngParser.cpp:1010-1044 | a non-marker new-format event gives one event for a block entry, block exit or log, named by "name" (blocks) or "cat" (logs), and none for other types |
| TraceEvents.UsageEvent | src/pmctl/performance-session-report/LttngParser.cpp:1248-1264 | a usage sample is a counter (C) on the core view, on the track of its core, stamped with the window end, named "Total" exactly for the track after the last core |
| MetaMap.MetaStepCovered | src/pmctl/performance-session-report/LttngParser.cpp:713-742 | the metadata maps stay covered: every thread with a recorded process also has a recorded name |
| MetaMap.MetaLastWins | src/pmctl/performance-session-report/LttngParser.cpp:728-741 | on covered maps the last event wins in all three maps: afterwards they hold its process name, its thread name and its pid, and every other key keeps its value |
| MetaMap.MetaSwapper | src/pmctl/performance-session-report/LttngParser.cpp:718-727 | "swapper/N" names only the idle track -1-N and leaves the process maps alone |
| MetaMap.MetaNeedsCover | src/pmctl/performance-session-report/LttngParser.cpp:734-740 | the tid -> pid overwrite is guarded by the tid -> name insert, so a thread with a recorded process but no recorded name would keep its old process; such maps are never covered |
| GroupView.FirstTid | src/pmctl/performance-session-report/LttngParser.cpp:500-510 | `getGroupTid` returns the track of the first matching catapult event, or -1 when none matches |
| GroupView.GroupTidOfMatch | src/pmctl/performance-session-report/LttngParser.cpp:616-627 | with the signal looked up as `isGroupMsg` matched it (spaces deleted), a matched event is drawn on the track of a catapult event it matches |
| GroupView.RawSignalMissesTrack | src/pmctl/performance-session-report/LttngParser.cpp:1056-1061 | as written, a signal containing a space matches a group (the match deletes the spaces) yet is drawn on track -1, because the track lookup receives the raw signal |
| GroupView.MatchingGroups | src/pmctl/performance-session-report/LttngParser.cpp:1054-1056 | the group entries an event matches are exactly the map's entries whose group it belongs to, in map order |
| GroupView.MatchingGroupsSorted | src/pmctl/performance-session-report/LttngParser.cpp:1054-1056 | each group key gives at most one duplicate: the matching entries keep the map's strict key order |
| GroupView.LegacyGroupViewSnoc | src/pmctl/performance-session-report/LttngParser.cpp:1054-1105 | the legacy view over one more group entry is the view over the others followed by that entry's contribution |
| GroupView.NewGroupViewSnoc | src/pmctl/performance-session-report/LttngParser.cpp:1115-1155 | the same for the new-format view |
| GroupView.LegacyFoldStep | src/pmctl/performance-session-report/LttngParser.cpp:1054-1105 | one more entry of the map walk appends that entry's contribution |
| GroupView.NewFoldStep | src/pmctl/performance-session-report/LttngParser.cpp:1115-1155 | the same for the new-format walk |
| GroupView.LegacyGroupFoldIsView | src/pmctl/performance-session-report/LttngParser.cpp:1054-1105 | walking the group map entry by entry yields the legacy group view |
| GroupView.NewGroupFoldIsView | src/pmctl/performance-session-report/LttngParser.cpp:1115-1155 | walking the group map entry by entry yields the new-format group view |
| GroupView.LegacyGroupViewShape | src/pmctl/performance-session-report/LttngParser.cpp:1047-1106 | (corrected track lookup, see GroupTidOfMatch) a legacy event with a phase is drawn once under each group it matches, in key order, with the group id as pid, the track of the matched catapult event as tid and its legacy phase; one (process, signal) record per duplicate. The source looks the track up with the raw signal (RawSignalMissesTrack) |
| GroupView.NewGroupViewShape | src/pmctl/performance-session-report/LttngParser.cpp:1108-1156 | (corrected track lookup, see GroupTidOfMatch) a new-format block is drawn once under each group its payload "name" matches, in key order, on the track of the matched catapult event; logs, markers and other types draw nothing |
| CpuView.Find | src/pmctl/performance-session-report/LttngParser.cpp:1201-1202 | a tid is found exactly when the map holds an entry for it, and what is found is that entry |
| CpuView.FindErase | src/pmctl/performance-session-report/LttngParser.cpp:1205 | after erasing a tid it is not found, and every other tid is found as before |
| CpuView.FindAppend | src/pmctl/performance-session-report/LttngParser.cpp:1238 | appending an entry makes a tid findable with its first entry |
| CpuView.FindPut | src/pmctl/performance-session-report/LttngParser.cpp:1238 | after an insert a tid that was not running is found with the new entry; a running one keeps its entry, and no other tid changes |
| CpuView.DistinctErase | src/pmctl/performance-session-report/LttngParser.cpp:1205 | erasing keeps at most one entry per tid |
| CpuView.DistinctPut | src/pmctl/performance-session-report/LttngParser.cpp:1238 | inserting keeps at most one entry per tid |
| CpuView.SwitchOutConsistent | src/pmctl/performance-session-report/LttngParser.cpp:1200-1206 | switching out keeps every running thread on a core with a counter and started no later than now |
| CpuView.SwitchInConsistent | src/pmctl/performance-session-report/LttngParser.cpp:1237-1238 | switching in on a core with a counter keeps the aggregator consistent |
| CpuView.BusyStep | src/pmctl/performance-session-report/LttngParser.cpp:558-564 | crediting one more running thread adds its share |
| CpuView.Restart | src/pmctl/performance-session-report/LttngParser.cpp:563 | every running thread keeps its tid and core and restarts at the window end |
| CpuView.CoreValue | src/pmctl/performance-session-report/LttngParser.cpp:569-571 | a core's usage lies in [0, 100], is 100 exactly when the busy time reaches the period, and otherwise is busy * 100 / period |
| CpuView.TotalValue | src/pmctl/performance-session-report/LttngParser.cpp:574-575 | the total usage lies in [0, 100], is 100 exactly when the summed busy time reaches period * cores, and otherwise is total * 100 / (period * cores) |
| CpuView.SampleStep | src/pmctl/performance-session-report/LttngParser.cpp:566-573 | sampling one more core adds its counter to the sum and appends its sample |
| CpuView.SamplesSnoc | src/pmctl/performance-session-report/LttngParser.cpp:566-573 | the samples of k + 1 cores extend those of k cores by core k's sample |
| CpuView.RolloverSamples | src/pmctl/performance-session-report/LttngParser.cpp:550-577 | a window yields one sample per core named "Core #i" on track i with that core's credited usage, then a "Total" sample on the track after the last core; all are counters on the core view stamped with the window end |
| CpuView.RolloverState | src/pmctl/performance-session-report/LttngParser.cpp:1241-1245 | after a window closes every counter is zero, the next window ends one period after the current time, every running thread stays on its core but restarts at the old window end, and consistency is kept |
| CpuView.CreditSingle | src/pmctl/performance-session-report/LttngParser.cpp:558-564 | a thread alone in the map is credited exactly its running time on its own core, and no other core changes |
| CpuView.RolloverCountsOverlapTwice | src/pmctl/performance-session-report/LttngParser.cpp:558-564 | as written, a thread running across the window end is credited up to the current time but restarts at the old window end, so the stretch between the two is credited to both windows |
| CpuView.SwitchedInConsistent | src/pmctl/performance-session-report/LttngParser.cpp:1237-1238 | the B half on a core with a counter keeps consistency |
| CpuView.CpuStepConsistent | src/pmctl/performance-session-report/LttngParser.cpp:1158-1246 | a node at or after the latest switch whose cpu has a counter leaves the aggregator consistent at its own timestamp, and a sched_switch after the first moves the window end past the node |
| CpuView.SwitchOutCredits | src/pmctl/performance-session-report/LttngParser.cpp:1199-1206 | a non-swapper thread switched out is no longer running; if it was running, its core is credited its time since it was switched in and no other counter changes; otherwise nothing changes |
| CpuView.SwitchInRecords | src/pmctl/performance-session-report/LttngParser.cpp:1236-1238 | a non-swapper thread switched in is recorded on the node's cpu at the node's time unless it is already running; no other thread and no counter changes |
| CpuView.SwapperUntouched | src/pmctl/performance-session-report/LttngParser.cpp:1174-1239 | swapper threads on both sides touch neither the map nor the counters, and no slice is drawn for them |
| CpuView.CpuStepEvents | src/pmctl/performance-session-report/LttngParser.cpp:1158-1246 | only sched_switch nodes drive the view; the first one opens a window one period long; a drawn E slice is on the CPU process track with the switched-out thread's tid, a drawn B slice with the payload's next_tid |
| Conversion.KeptStepFields | src/pmctl/performance-session-report/LttngParser.cpp:291-300 | a kept user node is appended to the list of its format, recorded in the metadata maps, and drawn in the user view and then the group view; the CPU aggregator is untouched |
| Conversion.KernelStepFields | src/pmctl/performance-session-report/LttngParser.cpp:422-429 | a kernel node is appended to the kernel list, recorded in the metadata maps and fed to the CPU view, whose events are appended |
| Conversion.LineStep | src/pmctl/performance-session-report/LttngParser.cpp:173-216 | only kernel lines move the CPU aggregator |
| Conversion.LineStepByRoute | src/pmctl/performance-session-report/LttngParser.cpp:175-213 | debug lines change nothing; a kernel line (CPU view on) and a user line of either format fail without change when they have too few fields, and otherwise go through `makeKernelEvent`, `makeUserNewEvent` or `makeUserEvent` with the node built from their fields |
| Conversion.GroupViewInfoOk | src/pmctl/performance-session-report/LttngParser.cpp:579-585 | the group information is complete exactly when every configured group is well-formed; the event list only grows, and the new events get consecutive track ids from the current one |
| Conversion.RunOk | src/pmctl/performance-session-report/LttngParser.cpp:173-216 | the conversion succeeds exactly when no line has too few fields for its kind |
| Conversion.AllLinesOk | src/pmctl/performance-session-report/LttngParser.cpp:173-216 | every line is acceptable exactly when the first one is and every later one is |
| Conversion.LineStepOk | src/pmctl/performance-session-report/LttngParser.cpp:187-213 | a line stops the conversion exactly when it is not skipped and has too few fields for its kind, and a stopping line changes nothing |
| Conversion.RunAppends | src/pmctl/performance-session-report/LttngParser.cpp:173-216 | the conversion only appends: events, group metadata and node lists grow, and the metadata maps stay covered |
| Conversion.StepAppends | src/pmctl/performance-session-report/LttngParser.cpp:175-215 | one line only appends and keeps the metadata maps covered |
| Conversion.UserAppends | src/pmctl/performance-session-report/LttngParser.cpp:288-301 | a user node only appends |
| Conversion.KernelAppends | src/pmctl/performance-session-report/LttngParser.cpp:422-429 | a kernel node only appends |
| Conversion.UserStepFilters | src/pmctl/performance-session-report/LttngParser.cpp:291-300 | a node the ignore rules drop changes nothing; a kept one is listed and recorded; a node whose process is not on the `-p` list draws nothing; with neither the user nor the group view on no event is drawn |
| Conversion.KernelStepAlways | src/pmctl/performance-session-report/LttngParser.cpp:425-427 | kernel nodes are never filtered: each is listed, recorded and fed to the CPU view |
| Conversion.SkippedAndCpuOff | src/pmctl/performance-session-report/LttngParser.cpp:180-213 | skipped lines change nothing, and without the CPU view no line reaches the aggregator or the kernel list |
| LttngParser.Parser.constructor | src/pmctl/performance-session-report/LttngParser.cpp:19-53 | the default configuration, input and output files unless the options name others; the boot time applies only when no input file is given; every view off, no counters, the default period and group id, and every list and map empty |
| LttngParser.Parser.IsSelectedProcess | src/pmctl/performance-session-report/LttngParser.cpp:640-646 | true exactly when the process is on the `-p` list |
| LttngParser.Parser.GetGroupId | src/pmctl/performance-session-report/LttngParser.cpp:488-498 | the id of the first entry with that group name, or the error code when there is none |
| LttngParser.Parser.GetGroupTid | src/pmctl/performance-session-report/LttngParser.cpp:500-510 | the track of the first catapult event matching group, process and signal, or -1 |
| LttngParser.Parser.IsGroupMsg | src/pmctl/performance-session-report/LttngParser.cpp:616-627 | some catapult event matches once the spaces are deleted from the signal |
| LttngParser.Parser.HandleProcessOpt | src/pmctl/performance-session-report/LttngParser.cpp:629-638 | the comma-separated names join the `-p` list |
| LttngParser.Parser.MakeMetaMap | src/pmctl/performance-session-report/LttngParser.cpp:713-742 | the three metadata maps change as the metadata step specifies |
| LttngParser.Parser.RecordSwapper | src/pmctl/performance-session-report/LttngParser.cpp:718-727 | a swapper names its core's idle track |
| LttngParser.Parser.RecordProcess | src/pmctl/performance-session-report/LttngParser.cpp:728-741 | any other event names its process and thread and, under the source's guard, links the thread to the process |
| LttngParser.Parser.SetCpuUsageInfo | src/pmctl/performance-session-report/LttngParser.cpp:544-548 | the window ends one period after the time given and every counter is zeroed |
| LttngParser.Parser.CalculateCpuUsage | src/pmctl/performance-session-report/LttngParser.cpp:550-577 | every running thread is credited up to the current time and restarts at the window end; then the per-core samples and the total are written |
| LttngParser.Parser.CreditRunning | src/pmctl/performance-session-report/LttngParser.cpp:558-564 | the first loop credits every running thread and restarts it at the window end |
| LttngParser.Parser.WriteSamples | src/pmctl/performance-session-report/LttngParser.cpp:566-576 | the second loop writes one sample per core and then the total |
| LttngParser.Parser.MakeJsonCpuEvent | src/pmctl/performance-session-report/LttngParser.cpp:1158-1246 | the aggregator and the output change exactly as the CPU step specifies |
| LttngParser.Parser.OpenFirstWindow | src/pmctl/performance-session-report/LttngParser.cpp:1163-1164 | the first sched_switch opens the first window |
| LttngParser.Parser.SwitchSlices | src/pmctl/performance-session-report/LttngParser.cpp:1166-1239 | the window opening and the two slice halves, keeping the aggregator consistent |
| LttngParser.Parser.RollOver | src/pmctl/performance-session-report/LttngParser.cpp:1241-1245 | at the window end the window is sampled and the next one opened |
| LttngParser.Parser.CloseSlice | src/pmctl/performance-session-report/LttngParser.cpp:1170-1207 | the slice of the thread switched out ends and its time is credited |
| LttngParser.Parser.OpenSlice | src/pmctl/performance-session-report/LttngParser.cpp:1209-1239 | the slice of the thread switched in begins on the node's cpu |
| LttngParser.Parser.MakeJsonAllEvent | src/pmctl/performance-session-report/LttngParser.cpp:907-957 | a legacy node whose process is allowed appends its user-view event; otherwise nothing is written |
| LttngParser.Parser.MakeJsonAllNewEvent | src/pmctl/performance-session-report/LttngParser.cpp:959-1045 | a new-format node whose process is allowed appends its user-view events; otherwise nothing is written |
| LttngParser.Parser.MakeJsonGroupEvent | src/pmctl/performance-session-report/LttngParser.cpp:1047-1106 | (corrected track lookup) a legacy node whose process is allowed appends its group duplicates and their metadata records, each on the track of the catapult event it matched (GroupTidOfMatch) |
| LttngParser.Parser.DrawLegacyGroups | src/pmctl/performance-session-report/LttngParser.cpp:1054-1105 | (corrected track lookup) the loop over the group map writes the legacy group view, looking tracks up with the space-free signal |
| LttngParser.Parser.DrawGroupDuplicate | src/pmctl/performance-session-report/LttngParser.cpp:1056-1104 | (corrected track lookup) one group entry writes that entry's duplicate and record, if any, on the track found with the space-free signal where the source passes the raw one |
| LttngParser.Parser.MakeJsonGroupNewEvent | src/pmctl/performance-session-report/LttngParser.cpp:1108-1156 | (corrected track lookup) a new-format node whose process is allowed appends its group duplicates and their records, each on the track of the catapult event it matched |
| LttngParser.Parser.DrawNewGroups | src/pmctl/performance-session-report/LttngParser.cpp:1115-1155 | (corrected track lookup) the loop over the group map writes the new-format group view, looking tracks up with the space-free name |
| LttngParser.Parser.DrawGroupNewDuplicate | src/pmctl/performance-session-report/LttngParser.cpp:1117-1154 | (corrected track lookup) one group entry writes that entry's new-format duplicate and record, if any, on the track found with the space-free name where the source passes the raw one |
| LttngParser.Parser.Initialize | src/pmctl/performance-session-report/LttngParser.cpp:65-126 | an unreadable configuration or one without the required keys fails; otherwise `-v` overrides the configured views, no view at all fails, the CPU view gets one zeroed counter per core, `-p` extends the allow-list, `-m` sets the period in microseconds and the boot time is taken |
| LttngParser.Parser.SelectViews | src/pmctl/performance-session-report/LttngParser.cpp:77-92 | the views of `-v` when given, written back to the configuration; otherwise the configuration's |
| LttngParser.Parser.ApplyOptions | src/pmctl/performance-session-report/LttngParser.cpp:101-122 | the counters of the CPU view, the allow-list, the window length and the boot time |
| LttngParser.Parser.MakeGroupViewInfo | src/pmctl/performance-session-report/LttngParser.cpp:579-614 | the group map and the catapult events become what the group information specifies, and nothing the conversion writes changes |
| LttngParser.Parser.MakeUserEvent | src/pmctl/performance-session-report/LttngParser.cpp:236-302 | a legacy line with fewer than 20 fields fails and changes nothing; otherwise its node is built and kept or dropped by the user step |
| LttngParser.Parser.MakeUserNewEvent | src/pmctl/performance-session-report/LttngParser.cpp:304-370 | the same for a line of the JSON payload format |
| LttngParser.Parser.KeepUserNode | src/pmctl/performance-session-report/LttngParser.cpp:288-301 | a node the ignore rules keep is stored, recorded and drawn |
| LttngParser.Parser.StoreUserNode | src/pmctl/performance-session-report/LttngParser.cpp:291-300 | a kept node is listed, recorded and drawn in the user and group views |
| LttngParser.Parser.ListUserNode | src/pmctl/performance-session-report/LttngParser.cpp:293 | the node joins the list of its format |
| LttngParser.Parser.RecordMeta | src/pmctl/performance-session-report/LttngParser.cpp:294 | the metadata maps record the node's name, pid and tid |
| LttngParser.Parser.DrawViews | src/pmctl/performance-session-report/LttngParser.cpp:295-298 | the user view, then the group view |
| LttngParser.Parser.DrawUserView | src/pmctl/performance-session-report/LttngParser.cpp:295-296 | the user-view events of a kept node |
| LttngParser.Parser.DrawGroupView | src/pmctl/performance-session-report/LttngParser.cpp:297-298 | the group-view duplicates and records of a kept node, with the corrected track lookup |
| LttngParser.Parser.MakeKernelEvent | src/pmctl/performance-session-report/LttngParser.cpp:372-430 | a sched_switch line with fewer than 17 fields fails and changes nothing; otherwise its node always goes to the list, the metadata maps and the CPU view |
| LttngParser.Parser.KeepKernelNode | src/pmctl/performance-session-report/LttngParser.cpp:422-429 | the node is stored, recorded and fed to the CPU view |
| LttngParser.Parser.ListKernelNode | src/pmctl/performance-session-report/LttngParser.cpp:425 | the node joins the kernel list |
| LttngParser.Parser.FeedCpu | src/pmctl/performance-session-report/LttngParser.cpp:427 | the node goes through `makeJsonCpuEvent` |
| LttngParser.Parser.ConvertLines | src/pmctl/performance-session-report/LttngParser.cpp:173-216 | the loop computes the conversion of the whole dump: it stops with false at the first line with too few fields |
| LttngParser.Parser.ConvertLine | src/pmctl/performance-session-report/LttngParser.cpp:175-215 | one iteration: the line is normalised, debug lines are skipped, the rest is split at tabs and dispatched by its words |
| LttngParser.Parser.ConvertKernelLine | src/pmctl/performance-session-report/LttngParser.cpp:187-194 | a kernel line with the CPU view on goes through `makeKernelEvent` |
| LttngParser.Parser.ConvertUserLine | src/pmctl/performance-session-report/LttngParser.cpp:195-213 | a user line goes through `makeUserNewEvent` or `makeUserEvent` |
| LttngParser.Parser.ConvertData | src/pmctl/performance-session-report/LttngParser.cpp:140-234 | with the group view on, the group information is collected first (its result is ignored); then the lines are converted, with success and outputs as the conversion specifies |
| DataNode.StampAsWritten | src/pmctl/performance-session-report/ds/LttngDataNode.cpp:19-45 | `setTimeStamp` as written, with both conversions through `stoull(…, 0)`. StampOctalAtBootSecond and StampOctalWithoutBoot show where it reads octal |
| DataNode.StampDecimal | src/pmctl/performance-session-report/ds/LttngDataNode.cpp:19-45 | `setTimeStamp` with decimal conversions (corrected). StampSinceBoot and StampWithoutBoot state its value on each path |
| UserNode.WithLegacyPayload | src/pmctl/performance-session-report/ds/LttngUserNode.cpp:45-95 | `setPayload` of a legacy event on the node's value: a "scope" pair names the signal, any other payload is stored piece by piece. ScopePayload and StorePiecesKeys state the two outcomes |
| UserNewNode.WithNewPayload | src/pmctl/performance-session-report/ds/LttngUserNewNode.cpp:37-89 | `setPayload` of a new-format event: the key=value fields, then the JSON members. NewPayloadMember states which value each key ends up with |
| LttngLines.IsDebugInfo | src/pmctl/performance-session-report/LttngParser.cpp:179-182 | a line naming a binary, build id or debug link is skipped. RouteOfWords shows it routed to `Skipped` |
| LttngLines.IsKernelMsg | src/pmctl/performance-session-report/LttngParser.cpp:512-518 | `isKernelMsg`: the line mentions `sched_switch` |
| LttngLines.IsNewPmtraceMsg | src/pmctl/performance-session-report/LttngParser.cpp:520-528 | `isNewPmtraceMsg`: the line is a new-format pmtrace event |
| LttngLines.RouteOf | src/pmctl/performance-session-report/LttngParser.cpp:180-213 | the dispatch of `convertData`. RouteOfWords and NoKernelWithoutCpuView state which path each kind of line takes |
| LttngLines.SwapperTid | src/pmctl/performance-session-report/LttngParser.cpp:530-535 | `getSwapperTid`. SwapperOfCore states that core N's idle thread gets track -1-N |
| Util.ReplaceAll | src/pmctl/common/utils/Util.cpp:59-72 | the left-to-right replacement `replaceString` performs. ReplaceAllAt, ReplaceAllAbsent, ReplaceAllSingle and ReplaceAllLength state its behaviour |
| Util.Atoi | src/pmctl/common/utils/Util.cpp:172 | C's `atoi`. AtoiOfDecimal, AtoiOfNegative and AtoiSkipsSpace state what it reads |
| ReportConfig.GroupsInfo | src/pmctl/performance-session-report/config/Configuration.cpp:165-189 | `getCatapultGroupsInfo` on the group map. GroupsInfoOk and GroupsInfoIds state when it succeeds and which ids it gives |
| ReportConfig.EventsInfo | src/pmctl/performance-session-report/config/Configuration.cpp:191-234 | `getCatapultEventsInfo` on the event list. EventsInfoOk and EventsInfoTids state when it succeeds and which track ids it gives |
| ReportOptions.Apply | src/pmctl/performance-session-report/option/OptionHandler.cpp:85-154 | one case of the getopt switch: the setter's new fields and whether handling goes on. ApplyVerdict and NullArgumentFails state when it stops |
| ReportOptions.Handle | src/pmctl/performance-session-report/option/OptionHandler.cpp:69-156 | `handleOptions` over the delivered options. HandleOutcome states exactly when it succeeds |
| SessionOptions.Apply | src/pmctl/performance-session/option/OptionHandler.cpp:54-95 | one case of the getopt switch of `pmctl session`. SetterRule and DebugContinues state each case |
| SessionOptions.Handle | src/pmctl/performance-session/option/OptionHandler.cpp:41-101 | `handleOptions` of `pmctl session`. HandleOutcome and CommandDecides state exactly when it succeeds and which command it records |
| SessionConfig.EventsInfo | src/pmctl/performance-session/config/Configuration.cpp:40-63 | `getLttngEventsInfo` on the name map. EventsInfoMeaning states which names it adds and with which kind |
| CpuView.CpuStep | src/pmctl/performance-session-report/LttngParser.cpp:1158-1246 | `makeJsonCpuEvent` on the CPU state. CpuStepConsistent, CpuStepEvents, SwitchOutCredits and SwitchInRecords state what one step does |
| CpuView.Rollover | src/pmctl/performance-session-report/LttngParser.cpp:550-577 | `calculateCpuUsage` followed by `setCpuUsageInfo`. RolloverSamples and RolloverState state the samples and the new window |
| Conversion.Run | src/pmctl/performance-session-report/LttngParser.cpp:173-216 | the line loop of `convertData`. RunOk and RunAppends state when it succeeds and that it only appends |
| PerfLogViewer.IsPerfLog | files/scripts/perf_log_viewer.py:54-55 | `is_perf_log`: both the type and the group are set and non-empty |
| PerfLogViewer.ContainsRequired | files/scripts/perf_log_viewer.py:57-74 | `is_contain_required_strs`. ContainsRequiredMeaning states exactly when it holds |
| PerfLogViewer.IsMatched | files/scripts/perf_log_viewer.py:438-451 | `is_matched` of a condition. IsMatchedMeaning states exactly when it holds |
| PerfLogViewer.InConditions | files/scripts/perf_log_viewer.py:482-488 | `is_in_conditions`: some start or end condition of some context matches the entry |
| PerfLogViewer.Analyze | files/scripts/perf_log_viewer.py:503-553 | `analyze` with each context's window taken from the start entry and the cursor moved to the furthest group end (corrected). AnalyzeFound and AnalyzeOrdered state its groups |
| PerfLogViewer.AnalyzeAsWritten | files/scripts/perf_log_viewer.py:503-553 | `analyze` as written. SecondContextSkipsStart shows where it departs from `Analyze`, and AnalyzeAgreesOnOneContext that it does not when one context matches each entry |
| MemProfile.RemoveExt | files/scripts/mem_profile.py:104-115 | `remove_ext`. RemoveExtFirst states that only the first matching extension is cut |
| MemProfile.InfoFromPath | files/scripts/mem_profile.py:117-127 | `get_info_from_path`. InfoFromPathDefined and CaptureRoundTrip state when it succeeds and that it inverts the captured name |
| MemProfile.MergeAll | files/scripts/mem_profile.py:218-246 | the merge loop of `merge_results`. MergeAllValues states every resulting series |
| MemProfile.PerfmetaData | files/scripts/mem_profile.py:274-298 | the data `generate_perfmeta_json` reports. PerfmetaDataItems states which test cases appear and with which numbers |
| AcgTracker.ServiceName | files/scripts/acg_migration_tracker.py:81-86 | the service a role or service file stands for. ServiceNameOf states that both file kinds name the same service |
| AcgTracker.Summary | files/scripts/acg_migration_tracker.py:116-119 | the four summary records of `_print_json_result`: OLD, MIXED, ACG and ACG MISSING APIs with their set sizes |

## Left out

- File and console I/O: `fopen`/`fprintf` of the dump and the report, `makeJsonStart`/`makeJsonEnd`, the debug dumps, the progress counter on `cout` and the Logger. Lines come in as a sequence and events go out as records.
- `makeJsonMeta`: the end-of-run metadata writer is output formatting only. The maps it writes from are modelled (`MetaMap`).
- The `popen` helpers `getDeviceName`, `getBoottime` and `getFullPath`, and the read half of `getCoreNum`: each runs a shell command. The boot time and the core count are parameters.
- LttngController, PerfSession, PerfControl and the `main` files: they drive lttng and the shell, and are not part of this model.
- pbnjson: parsing and `stringify` are not modelled. JSON is the abstract `Json` value with pbnjson's defaults for the wrong kind of value.
- `getopt_long`: the options it would deliver are passed in order as `Opt` values.
- `access(R_OK)` and the file parse in both `Configuration::initialize`: their answers are parameters.
- Floating point: CPU usage is a `real` clamped at 100. Fixed six-digit `double` formatting is not modelled. `isInteger`'s `modf` test becomes `Json.IsIntegral`.
- `ALIGN` in lttng-ust-mtrace-malloc.c is modelled for power-of-two alignments only, which is what its bit trick assumes. `size_t` is 64 bits (LP64).
- Concurrency in the allocator: the `cmpxchg` retry loop is one atomic update of the offset. `malloc_nesting`, the `dlsym`/`backtrace` wrappers, the lttng tracepoints and the library constructor are left out.
- mem_profile.py: the shell commands of `capture_snapshot`, `_run_smem`, `_load_aps_files`, `analyze_folder`, `json.dump` and `round` of floats are I/O or floating point. Snapshot contents are parameters. The script is Python 2.
- acg_migration_tracker.py: `get_missing_apis`, the device platform query, `print_result`/`_print_text_result`, `parse_args` and `main` are I/O. The iteration order of Python sets is left unspecified: results are stated as sets or as sorted lists.
- perf_log_viewer.py: the export, print and load functions are I/O. Entry clocks, which the script keeps as float seconds, are whole milliseconds here. The window bound `clock + resp_ms / 1000` (line 524) becomes `clock + allowedResponseMs` in those units, which is what true division gives.
- Python dictionaries are taken to iterate in insertion order. `str.upper` is modelled for ASCII letters only. `str.strip` removes exactly the characters Python 3's `str.isspace` accepts.
- Conversion.CpuReady: before a kernel line, the line's cpu id must index the per-core counter array, as `std::vector::operator[]` demands without checking. The running threads must have been switched in no later than the line's timestamp (`CpuView.Consistent`), which keeps the source's unsigned subtractions from wrapping. The dump delivers lines in time order.
- LttngLines.SwapperNameOk: a thread named `swapper…` must have a second '/'-separated token, as the kernel's `swapper/N` names do. The source reads `tokens[1]` unchecked.
- LttngLines.HeaderOk: the header tokens must be readable by the setters, with a timestamp `stoull` can read and host and provider fields holding a ':'-token. An unreadable one throws or reads out of bounds in the source, and that path is not modelled.
- LttngLines.NodeOk: a new-format line's text must contain the JSON start that `substr` is given. Otherwise `substr` throws in the source.
- Util.ReplaceString: the pattern must be non-empty. The source never terminates on an empty pattern: `find("", offset)` keeps finding a match at `offset`, and each replacement grows the string by as much as it moves `offset`.
- CpuView.RolloverCountsOverlapTwice: when a sampling window closes, the source counts the time between the window end and the current event in both windows. The model keeps that behaviour and the lemma exhibits it.
- Conversion.Run: lines are taken whole. The source reads the dump with `fgets` into a buffer of `Definition::BUFF_SIZE` (1024) bytes, so a line of 1024 bytes or more arrives as several pieces, each converted as a line of its own. That splitting is not modelled.
- LttngParser.Parser.ConvertLines: takes whole lines, as `Conversion.Run` does. The 1024-byte `fgets` splitting of long lines is not modelled.
- DataNode.WithStamp: uses the corrected decimal reading on both paths. The source reads the timestamp text with `stoull(…, 0)`, so a text that still starts with '0' is read as octal (first two Findings rows).
- DataNode.StampWithoutBoot: states the corrected decimal value of the fallback text. As written, the fallback reads that text in base 0 (StampOctalWithoutBoot).
- DataNode.TraceNode.SetTimeStamp: stores the corrected decimal reading, as `WithStamp` does.
- UserNode.SetPayload: a scope payload whose value is empty once its quotes are removed, such as `{ scope="" }`, makes the source throw `std::out_of_range` at `right.substr(1, …)`. The model stores "" under "scope" and sets an empty signal instead.
- UserNewNode.IntegralMemberText: holds for integral numbers of any size. The source converts them through pbnjson's 32-bit `asNumber<int>`, whose result outside the `int` range lies in pbnjson and is not part of this model. `Json.NumberText` prints the unbounded integer.
- PerfLogViewer.Analyze: the corrected `analyze`. The script, modelled by `AnalyzeAsWritten`, takes every context's window from the advanced cursor and moves the cursor by `len(possible_window) - 1` per group. The two agree when at most one context matches each entry (AnalyzeAgreesOnOneContext).
- PerfLogViewer.AnalyzeLogs: computes the corrected `Analyze`, not the script's `AnalyzeAsWritten`.
- PerfLogViewer.ContextGroups: computes the corrected context loop `Contexts`.
- PerfLogViewer.GroupsAtCursor: computes the corrected step `GroupsAt`.
- PerfLogViewer.ContextsTake: states the corrected cursor rule, the furthest group end.
- PerfLogViewer.ContextsFound: holds of the corrected loop only. As written, a later context's group can start after the start entry.
- PerfLogViewer.GroupsAtFound: holds of the corrected step only.
- GroupView.LegacyGroupViewShape: draws each duplicate on the track of the catapult event it matched. The source looks the track up with the raw signal, so a signal with spaces lands on track -1 (RawSignalMissesTrack).
- GroupView.NewGroupViewShape: uses the same corrected lookup with the payload "name".
- LttngParser.Parser.MakeJsonGroupEvent: uses the corrected track lookup, as `GroupView` does.
- LttngParser.Parser.DrawLegacyGroups: uses the corrected track lookup with the space-free signal.
- LttngParser.Parser.DrawGroupDuplicate: passes the space-free signal to `GetGroupTid` where LttngParser.cpp:1061 passes the raw one.
- LttngParser.Parser.MakeJsonGroupNewEvent: uses the corrected track lookup with the payload "name".
- LttngParser.Parser.DrawNewGroups: uses the corrected track lookup with the space-free name.
- LttngParser.Parser.DrawGroupNewDuplicate: passes the space-free name to `GetGroupTid` where LttngParser.cpp:1122 passes the raw one.
- MtraceMalloc.StaticAllocator.CallocAligned: does not reproduce the `size_t` wrap-around of lttng-ust-mtrace-malloc.c:92-112, because it follows the exact `Alloc`. A product `nmemb * size` that wraps to 0 returns NULL in the source, such as `calloc(2^32, 2^32)` (ProductWrapsToNull), where the model aborts. An end offset that wraps passes the bound check and hands out a block, such as `malloc(SIZE_MAX)` at offset 8 (HugeRequestWraps), where the model aborts. Below the wrap the two agree (AllocAgreesBelowWrap).
- MtraceMalloc.StaticAllocator.Calloc: does not reproduce the `size_t` wrap-around of lttng-ust-mtrace-malloc.c:92-112, because it follows the exact `Alloc`. A product `nmemb * size` that wraps to 0 returns NULL in the source, such as `calloc(2^32, 2^32)` (ProductWrapsToNull), where the model aborts. An end offset that wraps passes the bound check and hands out a block, such as `malloc(SIZE_MAX)` at offset 8 (HugeRequestWraps), where the model aborts. Below the wrap the two agree (AllocAgreesBelowWrap).
- MtraceMalloc.StaticAllocator.Malloc: does not reproduce the `size_t` wrap-around of the end offset at lttng-ust-mtrace-malloc.c:105-106, because it follows the exact `Alloc`. It allocates a single element, so the product `1 * size` cannot wrap. An end offset that wraps passes the bound check and hands out a block in the source, such as `malloc(SIZE_MAX)` at offset 8 (HugeRequestWraps), where the model aborts. Below the wrap the two agree (AllocAgreesBelowWrap).
- MtraceMalloc.StaticAllocator.Memalign: does not reproduce the `size_t` wrap-around of the end offset at lttng-ust-mtrace-malloc.c:105-106, because it follows the exact `Alloc`. It allocates a single element, so the product `1 * size` cannot wrap. An end offset that wraps passes the bound check and hands out a block in the source, such as `malloc(SIZE_MAX)` at offset 8 (HugeRequestWraps), where the model aborts. Below the wrap the two agree (AllocAgreesBelowWrap).
- MtraceMalloc.StaticAllocator.PosixMemalign: does not reproduce the `size_t` wrap-around of the end offset at lttng-ust-mtrace-malloc.c:105-106, because it follows the exact `Alloc`. It allocates a single element, so the product `1 * size` cannot wrap. An end offset that wraps passes the bound check and hands out a block in the source, such as `malloc(SIZE_MAX)` at offset 8 (HugeRequestWraps), where the model aborts. Below the wrap the two agree (AllocAgreesBelowWrap).
- MtraceMalloc.StaticAllocator.Realloc: on its growing and NULL-pointer paths, does not reproduce the `size_t` wrap-around of the end offset at lttng-ust-mtrace-malloc.c:105-106, because it follows the exact `Alloc`. It allocates a single element, so the product `1 * size` cannot wrap. An end offset that wraps passes the bound check and hands out a block in the source, such as `malloc(SIZE_MAX)` at offset 8 (HugeRequestWraps), where the model aborts. Below the wrap the two agree (AllocAgreesBelowWrap).
- MtraceMalloc.StaticAllocator.Move: does not reproduce the `size_t` wrap-around of the end offset at lttng-ust-mtrace-malloc.c:105-106, because it follows the exact `Alloc`. It allocates a single element, so the product `1 * size` cannot wrap. An end offset that wraps passes the bound check and hands out a block in the source, such as `malloc(SIZE_MAX)` at offset 8 (HugeRequestWraps), where the model aborts. Below the wrap the two agree (AllocAgreesBelowWrap).
- MtraceMalloc.BlockInsideBuffer: holds of the exact `Alloc`. As written, HugeRequestWraps hands out a block of 2^64 - 1 bytes that does not fit the buffer.
- PerfLogViewer.AnalyzeFound: holds of the corrected `Analyze`. As written, SecondContextSkipsStart reports a group holding only the end entry.
- perf_log_viewer.py is read as Python 3, as its `#!/usr/bin/env python3` line says, although line 736 is the Python 2 statement `print "Cannot find a config file"`. Under Python 2 an integer `allowedResponseMS` would make `resp_ms / 1000` (line 524) a floor division, and `str.strip` would remove ASCII white space only. The model takes the exact quotient and Python 3 `str.isspace`.

## Findings

| source | as written | input that shows it | evidently intended | confidence | as-written member | corrected member |
|---|---|---|---|---|---|---|
| src/pmctl/performance-session-report/ds/LttngDataNode.cpp:30-44 | at the boot second the timestamp text is "0" followed by the fraction digits, and `stoull(..., 0)` reads it as octal | "[1000.000100999]" with boot time 1000 gives 64 | decimal fraction units since boot (100) | not executed | DataNode.StampOctalAtBootSecond | DataNode.StampSinceBoot |
| src/pmctl/performance-session-report/ds/LttngDataNode.cpp:36-44 | without a usable boot time the text is cut from fixed positions and one leading '0' is erased, yet `stoull(..., 0)` still reads a text that starts with '0' as octal | "[1000.000100999]" with no valid boot time gives the text "000100" and the value 64 | decimal fraction units (100) | not executed | DataNode.StampOctalWithoutBoot | DataNode.StampWithoutBoot |
| src/libmemtracker/lttng-ust-mtrace-malloc.c:105-112 | the end offset is computed in `size_t` and wraps before the bound check | `static_malloc(SIZE_MAX)` on a fresh buffer gets a block at offset 8 | abort when the request does not fit the 4096-byte buffer | not executed | MtraceMalloc.HugeRequestWraps | MtraceMalloc.BlockInsideBuffer |
| src/libmemtracker/lttng-ust-mtrace-malloc.c:92-94 | `nmemb * size` is computed in `size_t` and wraps before the empty-request test | `static_calloc(2^32, 2^32)` returns NULL | abort when the request does not fit the 4096-byte buffer | not executed | MtraceMalloc.ProductWrapsToNull | MtraceMalloc.Alloc |
| files/scripts/perf_log_viewer.py:522-549 | a later matching context takes its window from the cursor the earlier context advanced, and the cursor moves by `len(possible_window) - 1` for every group found | two copies of one context over a start entry then an end entry give a second group holding only the end entry | each context's group begins at the start entry, and the cursor moves to the furthest end among the groups found there | not executed | PerfLogViewer.SecondContextSkipsStart | PerfLogViewer.AnalyzeFound |
| src/pmctl/performance-session-report/LttngParser.cpp:1056-1061 | `isGroupMsg` matches on the signal without spaces, but the track is looked up with the raw signal | catapult event ("g", "app", "ab") and signal "a b" are drawn on track -1 | the track of the catapult event that matched | not executed | GroupView.RawSignalMissesTrack | GroupView.GroupTidOfMatch |
