/**
 * The converter of the session report (`LttngParser` in
 * src/pmctl/performance-session-report/LttngParser.cpp): a class whose
 * methods update the metadata maps, the running-thread map, the per-core
 * counter array, the group tables and the event output in place. Each method
 * is proved against the functions of `Conversion`, `MetaMap`, `GroupView`
 * and `CpuView`.
 *
 * The output file is the sequence `out` of trace events; the node lists of
 * the debug dumps are sequences of node values; the core count is the
 * length of the counter array.
 */
module LttngParser {
  import opened Wrappers
  import opened Util
  import opened OrderedMap
  import opened DataNode
  import opened TraceEvents
  import opened ReportConfig
  import opened LttngLines
  import opened MetaMap
  import opened GroupView
  import opened CpuView
  import opened Conversion
  import Definition
  import Json
  import ReportOptions

  class Parser {
    var conf: Configuration?
    var configFile: string
    var inputOutput: string
    var lttngFileName: string
    var isDebug: bool
    var validBoottime: bool
    var bootTime: nat

    var userView: bool
    var groupView: bool
    var cpuView: bool

    var enabledProcessOpt: bool
    var processOpt: seq<string>

    var counts: array<nat>
    var targetTs: nat
    var period: int
    var cpuUsageMap: Running

    var groupViewId: int
    var groupMap: Entries
    var groupEvents: seq<CatapultCustomEvent>
    var groupMetaInfo: seq<GroupMetaInfo>

    var pids: map<int, string>
    var tids: map<int, string>
    var tidPids: map<int, int>

    var userNodes: seq<NodeValue>
    var userNewNodes: seq<NodeValue>
    var kernelNodes: seq<NodeValue>
    var out: seq<Event>

    /** The three metadata maps. */
    function Tracker(): Meta
      reads this`pids, this`tids, this`tidPids
    {
      Meta(pids, tids, tidPids)
    }

    /** The CPU aggregator: running threads, counters, window end. */
    function Aggregator(): CpuState
      reads this`cpuUsageMap, this`counts, this`targetTs, counts
    {
      CpuState(cpuUsageMap, counts[..], targetTs)
    }

    /** Everything the conversion changes. */
    function Progress(): Outputs
      reads this`pids, this`tids, this`tidPids, this`cpuUsageMap, this`counts, this`targetTs, counts
      reads this`out, this`groupMetaInfo, this`userNodes, this`userNewNodes, this`kernelNodes
    {
      Outputs(Tracker(), Aggregator(), out, groupMetaInfo, Lists(userNodes, userNewNodes, kernelNodes))
    }

    /** Everything the conversion reads and never changes. */
    function Setting(): Setup
      requires conf != null
      reads this`conf, this`userView, this`groupView, this`cpuView, this`enabledProcessOpt, this`processOpt
      reads this`bootTime, this`validBoottime, this`period, this`groupMap, this`groupEvents, conf
    {
      Setup(ReportOptions.Views(userView, groupView, cpuView), Filter(enabledProcessOpt, processOpt),
            Clock(bootTime, validBoottime, period), conf.configObj, Groups(groupMap, groupEvents))
    }

    /**
     * The constructor: the default configuration, input and output files
     * unless the options name others; the boot time only applies to a live
     * trace (no input file given).
     */
    constructor(opt: ReportOptions.OptionHandler)
      ensures conf == null && isDebug == opt.hasDebug && validBoottime == !opt.hasInput
      ensures configFile == if opt.hasConfig then opt.config else Definition.DEFAULT_CONFIG_FILE
      ensures lttngFileName == if opt.hasInput then opt.input else Definition.DEFAULT_INPUT_FILE
      ensures inputOutput == if opt.hasOutput then opt.output else Definition.DEFAULT_OUTPUT_FILE
      ensures !userView && !groupView && !cpuView && !enabledProcessOpt && processOpt == []
      ensures counts.Length == 0 && targetTs == 0 && bootTime == 0 && period == Definition.DEFAULT_CPU_USAGE_PERIOD
      ensures cpuUsageMap == [] && groupViewId == Definition.GROUP_VIEW_ID_BASE
      ensures groupMap == [] && groupEvents == [] && groupMetaInfo == []
      ensures Tracker() == NoMeta && userNodes == [] && userNewNodes == [] && kernelNodes == [] && out == []
    {
      conf := null;
      configFile := Definition.DEFAULT_CONFIG_FILE;
      inputOutput := Definition.DEFAULT_OUTPUT_FILE;
      lttngFileName := Definition.DEFAULT_INPUT_FILE;
      enabledProcessOpt := false;
      processOpt := [];
      counts := new nat[0];
      bootTime, targetTs := 0, 0;
      period := Definition.DEFAULT_CPU_USAGE_PERIOD;
      groupViewId := Definition.GROUP_VIEW_ID_BASE;
      userView, groupView, cpuView := false, false, false;
      cpuUsageMap := [];
      groupMap, groupEvents, groupMetaInfo := [], [], [];
      pids, tids, tidPids := map[], map[], map[];
      userNodes, userNewNodes, kernelNodes, out := [], [], [], [];
      isDebug := opt.hasDebug;
      validBoottime := !opt.hasInput;
      if opt.hasConfig {
        configFile := opt.config;
      }
      if opt.hasInput {
        lttngFileName := opt.input;
      }
      if opt.hasOutput {
        inputOutput := opt.output;
      }
    }

    // -------------------------------------------------------------------
    // Lookups
    // -------------------------------------------------------------------

    /** `isSelectedProcess`: the process is on the `-p` list. */
    method IsSelectedProcess(process: string) returns (r: bool)
      ensures r <==> process in processOpt
    {
      var i := 0;
      while i < |processOpt|
        invariant 0 <= i <= |processOpt|
        invariant forall j :: 0 <= j < i ==> processOpt[j] != process
      {
        if processOpt[i] == process {
          return true;
        }
        i := i + 1;
      }
      return false;
    }

    /** `getGroupId`: the id of a configured group, or the error code. */
    method GetGroupId(name: string) returns (r: int)
      ensures (forall i :: 0 <= i < |groupMap| ==> groupMap[i].0 != name) ==> r == Definition.RETURN_ERROR
      ensures forall i :: 0 <= i < |groupMap| && groupMap[i].0 == name ==>
        (forall j :: 0 <= j < i ==> groupMap[j].0 != name) ==> r == groupMap[i].1
    {
      var i := 0;
      while i < |groupMap|
        invariant 0 <= i <= |groupMap|
        invariant forall j :: 0 <= j < i ==> groupMap[j].0 != name
      {
        if groupMap[i].0 == name {
          return groupMap[i].1;
        }
        i := i + 1;
      }
      return Definition.RETURN_ERROR;
    }

    /** `getGroupTid`: the track of the first catapult event of the group, process and signal, or -1. */
    method GetGroupTid(name: string, proc: string, physical: string) returns (r: int)
      ensures r == FirstTid(groupEvents, name, proc, physical)
    {
      var i := 0;
      while i < |groupEvents|
        invariant 0 <= i <= |groupEvents|
        invariant forall j :: 0 <= j < i ==> !Matches(groupEvents[j], name, proc, physical)
      {
        if groupEvents[i].groupName == name && groupEvents[i].process == proc && groupEvents[i].physical == physical {
          return groupEvents[i].tid;
        }
        i := i + 1;
      }
      return -1;
    }

    /** `isGroupMsg`: some catapult event matches once the spaces are deleted from the signal. */
    method IsGroupMsg(name: string, process: string, physical: string) returns (r: bool)
      ensures r == GroupView.IsGroupMsg(groupEvents, name, process, physical)
    {
      var p := DeleteChars(physical, " ");
      var i := 0;
      while i < |groupEvents|
        invariant 0 <= i <= |groupEvents|
        invariant forall j :: 0 <= j < i ==> !Matches(groupEvents[j], name, process, p)
      {
        if groupEvents[i].groupName == name && groupEvents[i].process == process && groupEvents[i].physical == p {
          return true;
        }
        i := i + 1;
      }
      return false;
    }

    /** `handleProcessOpt`: the comma-separated names of `-p` join the allow-list. */
    method HandleProcessOpt(str: string)
      modifies this`processOpt
      ensures processOpt == old(processOpt) + Tokens(str, {','})
    {
      processOpt := Tokenize(str, processOpt, {','});
    }

    // -------------------------------------------------------------------
    // Metadata
    // -------------------------------------------------------------------

    /**
     * `makeMetaMap`: an insert into each map, then an overwrite where the key
     * was present with another value; the tid -> pid overwrite tests the
     * tid -> name insert.
     */
    method MakeMetaMap(procname: string, pid: string, tid: string)
      requires SwapperNameOk(procname)
      modifies this`pids, this`tids, this`tidPids
      ensures Tracker() == MetaStep(old(Tracker()), procname, pid, tid)
    {
      if StartsWith(procname, "swapper") {
        RecordSwapper(procname);
      } else {
        RecordProcess(procname, pid, tid);
      }
    }

    /** A swapper event names its core's pseudo thread. */
    method RecordSwapper(procname: string)
      requires SwapperNameOk(procname) && StartsWith(procname, "swapper")
      modifies this`tids
      ensures tids == old(tids)[SwapperTid(procname) := procname]
    {
      var tokens := Tokenize(procname, [], {'/'});
      var v := Atoi(tokens[1]);
      var key := Definition.CPU_CORE_BASE_NUMBER - v;
      var inserted := key !in tids;
      if inserted {
        tids := tids[key := procname];
      }
      if !inserted && tids[key] != procname {
        tids := tids[key := procname];
      }
    }

    /** Any other event names its process and thread, and links the thread to the process. */
    method RecordProcess(procname: string, pid: string, tid: string)
      modifies this`pids, this`tids, this`tidPids
      ensures var p, t := Atoi(pid), Atoi(tid);
        && pids == old(pids)[p := procname] && tids == old(tids)[t := procname]
        && tidPids == if t !in old(tidPids) || t in old(tids) then old(tidPids)[t := p] else old(tidPids)
    {
      var p, t := Atoi(pid), Atoi(tid);
      var inserted := p !in pids;
      if inserted {
        pids := pids[p := procname];
      }
      if !inserted && pids[p] != procname {
        pids := pids[p := procname];
      }
      inserted := t !in tids;
      if inserted {
        tids := tids[t := procname];
      }
      if !inserted && tids[t] != procname {
        tids := tids[t := procname];
      }
      if t !in tidPids {
        tidPids := tidPids[t := p];
      }
      if !inserted && tidPids[t] != p {
        tidPids := tidPids[t := p];
      }
    }

    // -------------------------------------------------------------------
    // CPU usage
    // -------------------------------------------------------------------

    /** `setCpuUsageInfo(ts)`: the window ends one period after `ts`, and every counter is zeroed. */
    method SetCpuUsageInfo(ts: nat)
      requires period >= 0
      modifies this`targetTs, counts
      ensures Aggregator() == OpenWindow(old(Aggregator()), ts, period as nat)
    {
      targetTs := ts + period;
      forall i | 0 <= i < counts.Length {
        counts[i] := 0;
      }
    }

    /**
     * `calculateCpuUsage(current)`: every running thread is credited its time
     * up to `current` and restarts at the window end; then one sample per
     * core and the total are written.
     */
    method CalculateCpuUsage(current: nat)
      requires StartedBy(cpuUsageMap, current) && period > 0 && counts.Length > 0
      requires forall i :: 0 <= i < |cpuUsageMap| ==> 0 <= cpuUsageMap[i].1.id < counts.Length
      modifies this`cpuUsageMap, this`out, counts
      ensures counts[..] == Credit(old(Aggregator()), current)
      ensures cpuUsageMap == Restart(old(cpuUsageMap), targetTs)
      ensures out == old(out) + Samples(counts[..], period as nat, targetTs)
    {
      CreditRunning(current);
      WriteSamples();
    }

    /** The first loop of `calculateCpuUsage`: credit every running thread and restart it at the window end. */
    method CreditRunning(current: nat)
      requires StartedBy(cpuUsageMap, current)
      requires forall i :: 0 <= i < |cpuUsageMap| ==> 0 <= cpuUsageMap[i].1.id < counts.Length
      modifies this`cpuUsageMap, counts
      ensures counts[..] == Credit(old(Aggregator()), current)
      ensures cpuUsageMap == Restart(old(cpuUsageMap), targetTs)
    {
      ghost var r0 := cpuUsageMap;
      var i := 0;
      while i < |cpuUsageMap|
        invariant 0 <= i <= |cpuUsageMap| == |r0|
        invariant forall j :: i <= j < |r0| ==> cpuUsageMap[j] == r0[j]
        invariant forall j :: 0 <= j < i ==> cpuUsageMap[j] == (r0[j].0, CpuUsage(r0[j].1.id, targetTs))
        invariant forall c :: 0 <= c < counts.Length ==> counts[c] == old(counts[c]) + Busy(r0[..i], current, c)
      {
        var entry := cpuUsageMap[i];
        var cpuId, ts := entry.1.id, entry.1.ts;
        counts[cpuId] := counts[cpuId] + (current - ts);
        cpuUsageMap := cpuUsageMap[i := (entry.0, CpuUsage(cpuId, targetTs))];
        forall c | 0 <= c < counts.Length ensures counts[c] == old(counts[c]) + Busy(r0[..i + 1], current, c) {
          BusyStep(r0, i, current, c);
        }
        i := i + 1;
      }
      assert r0[..i] == r0;
      assert cpuUsageMap == Restart(r0, targetTs);
    }

    /** The second loop of `calculateCpuUsage`: one sample per core, then the total. */
    method WriteSamples()
      requires period > 0 && counts.Length > 0
      modifies this`out
      ensures out == old(out) + Samples(counts[..], period as nat, targetTs)
    {
      var temp := 0;
      var k := 0;
      while k < counts.Length
        invariant 0 <= k <= counts.Length
        invariant temp == Sum(counts[..k])
        invariant out == old(out) + CoreSamples(counts[..], k, period as nat, targetTs)
      {
        SampleStep(counts[..], k, period as nat, targetTs);
        temp := temp + counts[k];
        out := out + [UsageEvent(k, counts.Length, targetTs, CoreValue(counts[k], period as nat))];
        k := k + 1;
      }
      assert counts[..k] == counts[..];
      out := out + [UsageEvent(counts.Length, counts.Length, targetTs, TotalValue(temp, period as nat, counts.Length))];
    }

    /**
     * `makeJsonCpuEvent`: a sched_switch node opens the first window, closes
     * the slice of the thread switched out, opens the one of the thread
     * switched in and, once the window has ended, samples and reopens it.
     */
    method MakeJsonCpuEvent(n: NodeValue)
      requires Consistent(Aggregator(), n.timeStampl) && period > 0 && counts.Length > 0 && 0 <= n.cpuIdi < counts.Length
      modifies this`cpuUsageMap, this`targetTs, this`out, counts
      ensures var (s, evs) := CpuStep(old(Aggregator()), n, period as nat, enabledProcessOpt, processOpt);
        Aggregator() == s && out == old(out) + evs
    {
      if n.providerName != Definition.TRACE_KERNEL_SCHED_SWITCH {
        return;
      }
      ghost var s0 := old(Aggregator());
      SwitchSlices(n);
      ghost var s2 := SwitchedIn(SwitchedOut(Opened(s0, n, period as nat), n), n);
      ghost var evs := EndEvents(n, enabledProcessOpt, processOpt) + BeginEvents(n, enabledProcessOpt, processOpt);
      assert Aggregator() == s2 && out == old(out) + evs;
      if targetTs <= n.timeStampl {
        ghost var out3 := out;
        RollOver(n.timeStampl);
        AppendAssoc(old(out), evs, out[|out3|..]);
      }
    }

    /** The first sched_switch node opens the first window. */
    method OpenFirstWindow(n: NodeValue)
      requires Consistent(Aggregator(), n.timeStampl) && period > 0 && counts.Length > 0
      modifies this`targetTs, counts
      ensures Aggregator() == Opened(old(Aggregator()), n, period as nat)
      ensures Consistent(Aggregator(), n.timeStampl)
    {
      if targetTs == 0 {
        SetCpuUsageInfo(n.timeStampl);
      }
    }

    /** The window opening and the two slice halves of `makeJsonCpuEvent` for a sched_switch node. */
    method SwitchSlices(n: NodeValue)
      requires Consistent(Aggregator(), n.timeStampl) && period > 0 && counts.Length > 0 && 0 <= n.cpuIdi < counts.Length
      modifies this`cpuUsageMap, this`targetTs, this`out, counts
      ensures Consistent(SwitchedOut(Opened(old(Aggregator()), n, period as nat), n), n.timeStampl)
      ensures Aggregator() == SwitchedIn(SwitchedOut(Opened(old(Aggregator()), n, period as nat), n), n)
      ensures Consistent(Aggregator(), n.timeStampl)
      ensures out == old(out) + (EndEvents(n, enabledProcessOpt, processOpt) + BeginEvents(n, enabledProcessOpt, processOpt))
    {
      OpenFirstWindow(n);
      ghost var out1 := out;
      CloseSlice(n);
      ghost var s2 := Aggregator();
      OpenSlice(n);
      SwitchedInConsistent(s2, n);
      AppendAssoc(out1, EndEvents(n, enabledProcessOpt, processOpt), BeginEvents(n, enabledProcessOpt, processOpt));
    }

    /** The end of a window in `makeJsonCpuEvent`: sample the window that ended, then open the next one. */
    method RollOver(current: nat)
      requires StartedBy(cpuUsageMap, current) && period > 0 && counts.Length > 0
      requires forall i :: 0 <= i < |cpuUsageMap| ==> 0 <= cpuUsageMap[i].1.id < counts.Length
      modifies this`cpuUsageMap, this`targetTs, this`out, counts
      ensures Aggregator() == Rollover(old(Aggregator()), current, period as nat).0
      ensures out == old(out) + Rollover(old(Aggregator()), current, period as nat).1
    {
      CalculateCpuUsage(current);
      SetCpuUsageInfo(current);
    }

    /** The E half of `makeJsonCpuEvent`: the slice of the thread switched out ends, and its time is credited. */
    method CloseSlice(n: NodeValue)
      requires Consistent(Aggregator(), n.timeStampl)
      modifies this`cpuUsageMap, this`out, counts
      ensures cpuUsageMap == SwitchedOut(old(Aggregator()), n).running
      ensures counts[..] == SwitchedOut(old(Aggregator()), n).counts
      ensures out == old(out) + EndEvents(n, enabledProcessOpt, processOpt)
    {
      ghost var s := Aggregator();
      var prevName := n.processName;
      if !StartsWith(prevName, "swapper") {
        var selected := IsSelectedProcess(prevName);
        if !enabledProcessOpt || selected {
          out := out + [CpuEvent(n, "E", prevName, Atoi(n.threadId))];
        }
        var tid := Atoi(n.threadId);
        var found := Find(cpuUsageMap, tid);
        if found.Some? {
          var u := found.value;
          counts[u.id] := counts[u.id] + (n.timeStampl - u.ts);
          cpuUsageMap := Erase(cpuUsageMap, tid);
        }
      }
    }

    /** The B half of `makeJsonCpuEvent`: the slice of the thread switched in begins on the node's cpu. */
    method OpenSlice(n: NodeValue)
      modifies this`cpuUsageMap, this`out
      ensures Aggregator() == SwitchedIn(old(Aggregator()), n)
      ensures out == old(out) + BeginEvents(n, enabledProcessOpt, processOpt)
    {
      var nextName := GetPayload(n, "next_comm");
      if !StartsWith(nextName, "swapper") {
        var selected := IsSelectedProcess(nextName);
        if !enabledProcessOpt || selected {
          out := out + [CpuEvent(n, "B", nextName, Atoi(GetPayload(n, "next_tid")))];
        }
        cpuUsageMap := Put(cpuUsageMap, Atoi(GetPayload(n, "next_tid")), CpuUsage(n.cpuIdi, n.timeStampl));
      }
    }

    // -------------------------------------------------------------------
    // Views
    // -------------------------------------------------------------------

    /** `makeJsonAllEvent`: the user-view event of a legacy node whose process is allowed. */
    method MakeJsonAllEvent(n: NodeValue)
      modifies this`out
      ensures out == old(out) + if Shown(enabledProcessOpt, processOpt, n.processName) then AllEvents(n) else []
    {
      var selected := IsSelectedProcess(n.processName);
      if enabledProcessOpt && !selected {
        return;
      }
      out := out + AllEvents(n);
    }

    /** `makeJsonAllNewEvent`: the user-view events of a new-format node whose process is allowed. */
    method MakeJsonAllNewEvent(n: NodeValue)
      modifies this`out
      ensures out == old(out) + if Shown(enabledProcessOpt, processOpt, n.processName) then AllNewEvents(n) else []
    {
      var selected := IsSelectedProcess(n.processName);
      if enabledProcessOpt && !selected {
        return;
      }
      out := out + AllNewEvents(n);
    }

    /** `makeJsonGroupEvent`: a duplicate and a metadata record under each group a legacy node matches. */
    method MakeJsonGroupEvent(n: NodeValue)
      modifies this`out, this`groupMetaInfo
      ensures var (es, ms) := if Shown(enabledProcessOpt, processOpt, n.processName) then LegacyGroupView(groupMap, groupEvents, n) else ([], []);
        out == old(out) + es && groupMetaInfo == old(groupMetaInfo) + ms
    {
      var selected := IsSelectedProcess(n.processName);
      if enabledProcessOpt && !selected {
        return;
      }
      DrawLegacyGroups(n);
    }

    /** The loop of `makeJsonGroupEvent` over the group map. */
    method DrawLegacyGroups(n: NodeValue)
      modifies this`out, this`groupMetaInfo
      ensures out == old(out) + LegacyGroupView(groupMap, groupEvents, n).0
      ensures groupMetaInfo == old(groupMetaInfo) + LegacyGroupView(groupMap, groupEvents, n).1
    {
      var i := 0;
      ghost var drawn := LegacyGroupFold([], groupEvents, n);
      while i < |groupMap|
        invariant 0 <= i <= |groupMap|
        invariant drawn == LegacyGroupFold(groupMap[..i], groupEvents, n)
        invariant out == old(out) + drawn.0 && groupMetaInfo == old(groupMetaInfo) + drawn.1
      {
        ghost var e := LegacyGroupEntry(groupMap[i], groupEvents, n);
        LegacyFoldStep(groupMap, i, groupEvents, n);
        AppendAssoc(old(out), drawn.0, e.0);
        AppendAssoc(old(groupMetaInfo), drawn.1, e.1);
        DrawGroupDuplicate(groupMap[i], n);
        drawn := (drawn.0 + e.0, drawn.1 + e.1);
        i := i + 1;
      }
      assert groupMap[..i] == groupMap;
      LegacyGroupFoldIsView(groupMap, groupEvents, n);
    }

    /** The body of the loop of `makeJsonGroupEvent` for one group entry. */
    method DrawGroupDuplicate(entry: (string, int), n: NodeValue)
      modifies this`out, this`groupMetaInfo
      ensures out == old(out) + LegacyGroupEntry(entry, groupEvents, n).0
      ensures groupMetaInfo == old(groupMetaInfo) + LegacyGroupEntry(entry, groupEvents, n).1
    {
      var (key, gid) := entry;
      var matched := IsGroupMsg(key, n.processName, n.signal);
      if matched {
        var ph := LegacyPhase(n.eventType);
        if ph.Some? {
          // The track is looked up with the signal `isGroupMsg` matched.
          var physical := DeleteChars(n.signal, " ");
          var tid := GetGroupTid(key, n.processName, physical);
          out := out + [GroupEvent(n, ph.value, gid, tid)];
          groupMetaInfo := groupMetaInfo + [GroupMetaInfo(n.processName, n.signal)];
        }
      }
    }

    /** `makeJsonGroupNewEvent`: the same for a new-format node, matched and named by its payload's "name". */
    method MakeJsonGroupNewEvent(n: NodeValue)
      modifies this`out, this`groupMetaInfo
      ensures var (es, ms) := if Shown(enabledProcessOpt, processOpt, n.processName) then NewGroupView(groupMap, groupEvents, n) else ([], []);
        out == old(out) + es && groupMetaInfo == old(groupMetaInfo) + ms
    {
      var selected := IsSelectedProcess(n.processName);
      if enabledProcessOpt && !selected {
        return;
      }
      DrawNewGroups(n);
    }

    /** The loop of `makeJsonGroupNewEvent` over the group map. */
    method DrawNewGroups(n: NodeValue)
      modifies this`out, this`groupMetaInfo
      ensures out == old(out) + NewGroupView(groupMap, groupEvents, n).0
      ensures groupMetaInfo == old(groupMetaInfo) + NewGroupView(groupMap, groupEvents, n).1
    {
      var i := 0;
      ghost var drawn := NewGroupFold([], groupEvents, n);
      while i < |groupMap|
        invariant 0 <= i <= |groupMap|
        invariant drawn == NewGroupFold(groupMap[..i], groupEvents, n)
        invariant out == old(out) + drawn.0 && groupMetaInfo == old(groupMetaInfo) + drawn.1
      {
        ghost var e := NewGroupEntry(groupMap[i], groupEvents, n);
        NewFoldStep(groupMap, i, groupEvents, n);
        AppendAssoc(old(out), drawn.0, e.0);
        AppendAssoc(old(groupMetaInfo), drawn.1, e.1);
        DrawGroupNewDuplicate(groupMap[i], n);
        drawn := (drawn.0 + e.0, drawn.1 + e.1);
        i := i + 1;
      }
      assert groupMap[..i] == groupMap;
      NewGroupFoldIsView(groupMap, groupEvents, n);
    }

    /** The body of the loop of `makeJsonGroupNewEvent` for one group entry. */
    method DrawGroupNewDuplicate(entry: (string, int), n: NodeValue)
      modifies this`out, this`groupMetaInfo
      ensures out == old(out) + NewGroupEntry(entry, groupEvents, n).0
      ensures groupMetaInfo == old(groupMetaInfo) + NewGroupEntry(entry, groupEvents, n).1
    {
      var (key, gid) := entry;
      var name := GetPayload(n, "name");
      var matched := IsGroupMsg(key, n.processName, name);
      if matched {
        var ph := NewGroupPhase(n.eventType);
        if ph.Some? {
          var physical := DeleteChars(name, " ");
          var tid := GetGroupTid(key, n.processName, physical);
          out := out + [GroupNewEvent(n, ph.value, gid, tid)];
          groupMetaInfo := groupMetaInfo + [GroupMetaInfo(n.processName, name)];
        }
      }
    }
    // -------------------------------------------------------------------
    // Initialisation
    // -------------------------------------------------------------------

    /**
     * `initialize`: the configuration is loaded (`readable` and `parsed`
     * stand for reading and parsing its file); the `-v` option overrides its
     * views, and no view at all is a failure; the CPU view gets one zeroed
     * counter per core (`coreNum` stands for `getCoreNum`), `-p` fills the
     * allow-list and `-m` sets the window in microseconds; the boot time is
     * `getBoottime`'s `boot`.
     */
    method Initialize(opt: ReportOptions.OptionHandler, readable: bool, parsed: Json.Json, coreNum: nat, boot: nat)
      returns (ok: bool)
      modifies this`conf, this`userView, this`groupView, this`cpuView, this`counts, this`enabledProcessOpt,
               this`processOpt, this`period, this`bootTime
      ensures conf != null && fresh(conf) && conf.configFile == configFile
      ensures conf.configObj == if readable then parsed else Json.JObj(map[])
      ensures !readable || !ReportConfig.HasRequiredKeys(parsed) ==> !ok
      ensures readable && ReportConfig.HasRequiredKeys(parsed) ==>
        && (opt.hasView ==> userView == opt.optUserView && groupView == opt.optGroupView && cpuView == opt.optCpuView)
        && (!opt.hasView ==> userView == Json.AsBool(Json.Get(Json.Get(parsed, "catapultUserView"), "enable"))
                             && groupView == Json.AsBool(Json.Get(Json.Get(parsed, "catapultGroupView"), "enable"))
                             && cpuView == Json.AsBool(Json.Get(Json.Get(parsed, "catapultCPUView"), "enable")))
        && conf.enableUserView == userView && conf.enableGroupView == groupView && conf.enableCpuView == cpuView
        && (ok <==> userView || groupView || cpuView)
      ensures ok && cpuView ==> fresh(counts) && counts[..] == Zeros(coreNum)
      ensures ok ==> enabledProcessOpt == (old(enabledProcessOpt) || opt.hasProcess)
      ensures ok ==> processOpt == old(processOpt) + if opt.hasProcess then Tokens(opt.process, {','}) else []
      ensures ok ==> period == if opt.hasMeasure then opt.measure * 1000 else old(period)
      ensures ok ==> bootTime == boot
    {
      conf := new Configuration(configFile);
      ok := conf.Initialize(readable, parsed);
      if !ok {
        return false;
      }
      SelectViews(opt);
      if !userView && !groupView && !cpuView {
        return false;
      }
      ApplyOptions(opt, coreNum, boot);
      return true;
    }

    /** The views of `initialize`: those of `-v` when given, written back to the configuration; else the configuration's. */
    method SelectViews(opt: ReportOptions.OptionHandler)
      requires conf != null
      modifies this`userView, this`groupView, this`cpuView, conf
      ensures conf.configObj == old(conf.configObj) && conf.configFile == old(conf.configFile)
      ensures opt.hasView ==> userView == opt.optUserView && groupView == opt.optGroupView && cpuView == opt.optCpuView
      ensures !opt.hasView ==> userView == old(conf.enableUserView) && groupView == old(conf.enableGroupView)
                               && cpuView == old(conf.enableCpuView)
      ensures conf.enableUserView == userView && conf.enableGroupView == groupView && conf.enableCpuView == cpuView
    {
      if opt.hasView {
        userView, groupView, cpuView := opt.optUserView, opt.optGroupView, opt.optCpuView;
        conf.SetGroupView(groupView);
        conf.SetUserView(userView);
        conf.SetCpuView(cpuView);
      } else {
        userView, groupView, cpuView := conf.enableUserView, conf.enableGroupView, conf.enableCpuView;
      }
    }

    /** The rest of `initialize`: the counters of the CPU view, the allow-list, the window length and the boot time. */
    method ApplyOptions(opt: ReportOptions.OptionHandler, coreNum: nat, boot: nat)
      modifies this`counts, this`enabledProcessOpt, this`processOpt, this`period, this`bootTime
      ensures cpuView ==> fresh(counts) && counts[..] == Zeros(coreNum)
      ensures !cpuView ==> counts == old(counts)
      ensures enabledProcessOpt == (old(enabledProcessOpt) || opt.hasProcess)
      ensures processOpt == old(processOpt) + if opt.hasProcess then Tokens(opt.process, {','}) else []
      ensures period == if opt.hasMeasure then opt.measure * 1000 else old(period)
      ensures bootTime == boot
    {
      if cpuView {
        counts := new nat[coreNum](_ => 0);
      }
      if opt.hasProcess {
        enabledProcessOpt := true;
        HandleProcessOpt(opt.process);
      }
      if opt.hasMeasure {
        period := opt.measure * 1000;
      }
      bootTime := boot;
    }

    /**
     * `makeGroupViewInfo`: the enabled groups get ids counting down from the
     * current one, then the catapult events of the groups get track ids.
     */
    method MakeGroupViewInfo() returns (ok: bool)
      requires conf != null
      modifies this`groupMap, this`groupViewId, this`groupEvents, conf
      ensures conf.configObj == old(conf.configObj)
      ensures GroupInfo(ok, Conversion.Groups(groupMap, groupEvents), groupViewId, conf.groupTid) ==
        GroupViewInfo(conf.configObj, Conversion.Groups(old(groupMap), old(groupEvents)), old(groupViewId), old(conf.groupTid))
      ensures Progress() == old(Progress())
    {
      ok, groupMap, groupViewId := conf.GetCatapultGroupsInfo(groupMap, groupViewId);
      if ok {
        ok, groupEvents := conf.GetCatapultEventsInfo(groupEvents);
      }
    }

    // -------------------------------------------------------------------
    // The conversion
    // -------------------------------------------------------------------

    /** `makeUserEvent`: a legacy line with too few tokens fails; otherwise its node is built and kept or dropped. */
    method MakeUserEvent(tokens: seq<string>, parse: string -> Json.Json) returns (ok: bool)
      requires conf != null
      requires |tokens| >= MinTokens(Legacy) ==>
        NodeOk(Legacy, tokens) && SwapperNameOk(NodeOf(Legacy, tokens, bootTime, validBoottime, parse).processName)
      modifies this`pids, this`tids, this`tidPids, this`out, this`groupMetaInfo, this`userNodes, this`userNewNodes
      ensures ok <==> |tokens| >= MinTokens(Legacy)
      ensures !ok ==> Progress() == old(Progress())
      ensures ok ==> Progress() == UserStep(Setting(), old(Progress()), Legacy, NodeOf(Legacy, tokens, bootTime, validBoottime, parse))
      ensures Setting() == old(Setting())
    {
      if |tokens| < Definition.MSG_INDEX_MINIMUM_USER {
        return false;
      }
      var node := BuildNode(Legacy, tokens, bootTime, validBoottime, parse);
      var n := node.Value();
      KeepUserNode(Legacy, n);
      return true;
    }

    /** `makeUserNewEvent`: the same for a line of the JSON payload format. */
    method MakeUserNewEvent(tokens: seq<string>, parse: string -> Json.Json) returns (ok: bool)
      requires conf != null
      requires |tokens| >= MinTokens(NewFormat) ==>
        NodeOk(NewFormat, tokens) && SwapperNameOk(NodeOf(NewFormat, tokens, bootTime, validBoottime, parse).processName)
      modifies this`pids, this`tids, this`tidPids, this`out, this`groupMetaInfo, this`userNodes, this`userNewNodes
      ensures ok <==> |tokens| >= MinTokens(NewFormat)
      ensures !ok ==> Progress() == old(Progress())
      ensures ok ==> Progress() == UserStep(Setting(), old(Progress()), NewFormat, NodeOf(NewFormat, tokens, bootTime, validBoottime, parse))
      ensures Setting() == old(Setting())
    {
      if |tokens| < Definition.MSG_INDEX_MINIMUM_USER {
        return false;
      }
      var node := BuildNode(NewFormat, tokens, bootTime, validBoottime, parse);
      var n := node.Value();
      KeepUserNode(NewFormat, n);
      return true;
    }

    /**
     * The tail shared by `makeUserEvent` and `makeUserNewEvent`: a node the
     * ignore rules keep is stored, fed to the metadata maps and drawn in
     * the enabled views.
     */
    method KeepUserNode(d: Dialect, n: NodeValue)
      requires conf != null && d != Kernel && SwapperNameOk(n.processName)
      modifies this`pids, this`tids, this`tidPids, this`out, this`groupMetaInfo, this`userNodes, this`userNewNodes
      ensures Progress() == UserStep(Setting(), old(Progress()), d, n)
      ensures Setting() == old(Setting())
    {
      ghost var st, o0 := Setting(), Progress();
      var valid := conf.IsValidEvent(n.processName, n.providerName);
      assert valid == Kept(st.config, n);
      if valid {
        StoreUserNode(d, n);
      }
    }

    /** A kept user node: stored, recorded in the metadata maps, drawn in the user view and in the group view. */
    method StoreUserNode(d: Dialect, n: NodeValue)
      requires conf != null && d != Kernel && SwapperNameOk(n.processName)
      modifies this`pids, this`tids, this`tidPids, this`out, this`groupMetaInfo, this`userNodes, this`userNewNodes
      ensures Progress() == KeptStep(Setting(), old(Progress()), d, n)
    {
      ghost var st, o0 := Setting(), Progress();
      ListUserNode(d, n);
      RecordMeta(n);
      DrawViews(d, n);
      KeptStepFields(st, o0, d, n, Progress());
    }

    /** The node joins the list of its format. */
    method ListUserNode(d: Dialect, n: NodeValue)
      requires conf != null && d != Kernel
      modifies this`userNodes, this`userNewNodes
      ensures Progress() == old(Progress()).(lists := if d == Legacy then old(Progress()).lists.(users := old(userNodes) + [n])
                                                      else old(Progress()).lists.(userNews := old(userNewNodes) + [n]))
      ensures Setting() == old(Setting())
    {
      if d == Legacy {
        userNodes := userNodes + [n];
      } else {
        userNewNodes := userNewNodes + [n];
      }
    }

    /** `makeMetaMap` with the node's name, pid and tid. */
    method RecordMeta(n: NodeValue)
      requires conf != null && SwapperNameOk(n.processName)
      modifies this`pids, this`tids, this`tidPids
      ensures Progress() == old(Progress()).(meta := MetaStep(old(Tracker()), n.processName, n.processId, n.threadId))
      ensures Setting() == old(Setting())
    {
      MakeMetaMap(n.processName, n.processId, n.threadId);
    }

    /** The drawing of a kept user node: the user view, then the group view. */
    method DrawViews(d: Dialect, n: NodeValue)
      requires conf != null && d != Kernel
      modifies this`out, this`groupMetaInfo
      ensures out == old(out) + UserDraw(Setting(), d, n) + GroupDraw(Setting(), d, n).0
      ensures groupMetaInfo == old(groupMetaInfo) + GroupDraw(Setting(), d, n).1
      ensures Progress() == old(Progress()).(out := out, groupMeta := groupMetaInfo)
      ensures Setting() == old(Setting())
    {
      ghost var st := Setting();
      DrawUserView(d, n);
      assert Setting() == st;
      ghost var out1 := out;
      DrawGroupView(d, n);
      assert Setting() == st && out == out1 + GroupDraw(st, d, n).0;
    }

    /** The user-view half of `makeUserEvent` and `makeUserNewEvent`. */
    method DrawUserView(d: Dialect, n: NodeValue)
      requires conf != null && d != Kernel
      modifies this`out
      ensures out == old(out) + UserDraw(Setting(), d, n)
    {
      if userView {
        if d == Legacy {
          MakeJsonAllEvent(n);
        } else {
          MakeJsonAllNewEvent(n);
        }
      }
    }

    /** The group-view half of `makeUserEvent` and `makeUserNewEvent`. */
    method DrawGroupView(d: Dialect, n: NodeValue)
      requires conf != null && d != Kernel
      modifies this`out, this`groupMetaInfo
      ensures out == old(out) + GroupDraw(Setting(), d, n).0
      ensures groupMetaInfo == old(groupMetaInfo) + GroupDraw(Setting(), d, n).1
    {
      if groupView {
        if d == Legacy {
          MakeJsonGroupEvent(n);
        } else {
          MakeJsonGroupNewEvent(n);
        }
      }
    }

    /** `makeKernelEvent`: a sched_switch line with too few tokens fails; otherwise its node always goes to the maps and the CPU view. */
    method MakeKernelEvent(tokens: seq<string>, parse: string -> Json.Json) returns (ok: bool)
      requires conf != null
      requires |tokens| >= MinTokens(Kernel) ==>
        && NodeOk(Kernel, tokens)
        && var n := NodeOf(Kernel, tokens, bootTime, validBoottime, parse);
        && SwapperNameOk(n.processName) && CpuReady(Clock(bootTime, validBoottime, period), Aggregator(), n)
      modifies this`pids, this`tids, this`tidPids, this`out, this`kernelNodes, this`cpuUsageMap, this`targetTs, counts
      ensures ok <==> |tokens| >= MinTokens(Kernel)
      ensures !ok ==> Progress() == old(Progress())
      ensures ok ==> Progress() == KernelStep(Setting(), old(Progress()), NodeOf(Kernel, tokens, bootTime, validBoottime, parse))
      ensures Setting() == old(Setting())
    {
      if |tokens| < Definition.MSG_INDEX_MINIMUM_KERNEL {
        return false;
      }
      var node := BuildNode(Kernel, tokens, bootTime, validBoottime, parse);
      var n := node.Value();
      KeepKernelNode(n);
      return true;
    }

    /** The tail of `makeKernelEvent`: the node is stored, recorded in the metadata maps and fed to the CPU view. */
    method KeepKernelNode(n: NodeValue)
      requires conf != null && SwapperNameOk(n.processName) && CpuReady(Clock(bootTime, validBoottime, period), Aggregator(), n)
      modifies this`pids, this`tids, this`tidPids, this`out, this`kernelNodes, this`cpuUsageMap, this`targetTs, counts
      ensures Progress() == KernelStep(Setting(), old(Progress()), n)
      ensures Setting() == old(Setting())
    {
      ghost var st, o0 := Setting(), Progress();
      ListKernelNode(n);
      RecordMeta(n);
      FeedCpu(n);
      KernelStepFields(st, o0, n, Progress());
    }

    /** The node joins the kernel list. */
    method ListKernelNode(n: NodeValue)
      requires conf != null
      modifies this`kernelNodes
      ensures Progress() == old(Progress()).(lists := old(Progress()).lists.(kernels := old(kernelNodes) + [n]))
      ensures Setting() == old(Setting())
    {
      kernelNodes := kernelNodes + [n];
    }

    /** `makeJsonCpuEvent` on a node the aggregator is ready for. */
    method FeedCpu(n: NodeValue)
      requires conf != null && CpuReady(Clock(bootTime, validBoottime, period), Aggregator(), n)
      modifies this`cpuUsageMap, this`targetTs, this`out, counts
      ensures var (cpu, evs) := CpuStep(old(Aggregator()), n, period as nat, enabledProcessOpt, processOpt);
        Progress() == old(Progress()).(cpu := cpu, out := old(out) + evs)
      ensures Setting() == old(Setting())
    {
      MakeJsonCpuEvent(n);
    }

    /**
     * The loop of `convertData` over the lines of the dump; the first line
     * with too few tokens stops it with false.
     */
    method ConvertLines(lines: seq<string>, parse: string -> Json.Json) returns (ok: bool)
      requires conf != null
      requires Runnable(cpuView, Filter(enabledProcessOpt, processOpt), Clock(bootTime, validBoottime, period), Aggregator(), lines, parse)
      modifies this`pids, this`tids, this`tidPids, this`out, this`groupMetaInfo, this`userNodes, this`userNewNodes,
               this`kernelNodes, this`cpuUsageMap, this`targetTs, counts
      ensures (ok, Progress()) == Run(Setting(), old(Progress()), lines, parse)
      ensures Setting() == old(Setting())
    {
      ghost var st := Setting();
      var i := 0;
      while i < |lines|
        invariant 0 <= i <= |lines| && Setting() == st
        invariant Runnable(cpuView, Filter(enabledProcessOpt, processOpt), Clock(bootTime, validBoottime, period), Aggregator(), lines[i..], parse)
        invariant Run(st, old(Progress()), lines, parse) == Run(st, Progress(), lines[i..], parse)
      {
        assert lines[i..][0] == lines[i] && lines[i..][1..] == lines[i + 1..];
        ok := ConvertLine(lines[i], parse);
        if !ok {
          return false;
        }
        i := i + 1;
      }
      return true;
    }

    /**
     * One iteration of that loop: the line is normalised, debug information
     * is skipped, the rest is split at tabs and dispatched by its words.
     */
    method ConvertLine(line: string, parse: string -> Json.Json) returns (ok: bool)
      requires conf != null
      requires LineReady(cpuView, Clock(bootTime, validBoottime, period), Aggregator(), line, parse)
      modifies this`pids, this`tids, this`tidPids, this`out, this`groupMetaInfo, this`userNodes, this`userNewNodes,
               this`kernelNodes, this`cpuUsageMap, this`targetTs, counts
      ensures (ok, Progress()) == LineStep(Setting(), old(Progress()), line, parse)
      ensures Setting() == old(Setting())
    {
      ghost var st, o0 := Setting(), Progress();
      var temp := Normalize(line);
      if IsDebugInfo(temp) {
        LineStepByRoute(st, o0, line, parse, temp, SplitFields(temp));
        return true;
      }
      var tokens := ParseTabs(temp, []);
      if cpuView && IsKernelMsg(temp) {
        ok := ConvertKernelLine(line, parse, temp, tokens);
      } else {
        ok := ConvertUserLine(line, parse, temp, tokens);
      }
    }

    /** A kernel line of `convertData` with the CPU view on. */
    method ConvertKernelLine(line: string, parse: string -> Json.Json, temp: string, tokens: seq<string>) returns (ok: bool)
      requires conf != null
      requires LineReady(cpuView, Clock(bootTime, validBoottime, period), Aggregator(), line, parse)
      requires temp == Normalize(line) && tokens == SplitFields(temp) && !IsDebugInfo(temp) && cpuView && IsKernelMsg(temp)
      modifies this`pids, this`tids, this`tidPids, this`out, this`kernelNodes, this`cpuUsageMap, this`targetTs, counts
      ensures (ok, Progress()) == LineStep(Setting(), old(Progress()), line, parse)
      ensures Setting() == old(Setting())
    {
      LineStepByRoute(Setting(), Progress(), line, parse, temp, tokens);
      ok := MakeKernelEvent(tokens, parse);
    }

    /** A user line of `convertData`, in the legacy or the new format. */
    method ConvertUserLine(line: string, parse: string -> Json.Json, temp: string, tokens: seq<string>) returns (ok: bool)
      requires conf != null
      requires LineReady(cpuView, Clock(bootTime, validBoottime, period), Aggregator(), line, parse)
      requires temp == Normalize(line) && tokens == SplitFields(temp) && !IsDebugInfo(temp) && !(cpuView && IsKernelMsg(temp))
      modifies this`pids, this`tids, this`tidPids, this`out, this`groupMetaInfo, this`userNodes, this`userNewNodes
      ensures (ok, Progress()) == LineStep(Setting(), old(Progress()), line, parse)
      ensures Setting() == old(Setting())
    {
      LineStepByRoute(Setting(), Progress(), line, parse, temp, tokens);
      if IsNewPmtraceMsg(temp) {
        ok := MakeUserNewEvent(tokens, parse);
      } else {
        ok := MakeUserEvent(tokens, parse);
      }
    }

    /**
     * `convertData`: the group view first collects its group information
     * (whose answer the source ignores), then the lines are converted.
     */
    method ConvertData(lines: seq<string>, parse: string -> Json.Json) returns (ok: bool)
      requires conf != null
      requires Runnable(cpuView, Filter(enabledProcessOpt, processOpt), Clock(bootTime, validBoottime, period), Aggregator(), lines, parse)
      modifies this`pids, this`tids, this`tidPids, this`out, this`groupMetaInfo, this`userNodes, this`userNewNodes,
               this`kernelNodes, this`cpuUsageMap, this`targetTs, counts, this`groupMap, this`groupViewId, this`groupEvents, conf
      ensures conf.configObj == old(conf.configObj)
      ensures !groupView ==> groupMap == old(groupMap) && groupEvents == old(groupEvents) && groupViewId == old(groupViewId)
      ensures groupView ==> var g := GroupViewInfo(conf.configObj, Conversion.Groups(old(groupMap), old(groupEvents)), old(groupViewId), old(conf.groupTid));
        Conversion.Groups(groupMap, groupEvents) == g.groups && groupViewId == g.gid && conf.groupTid == g.tid
      ensures Setting() == old(Setting()).(groups := Conversion.Groups(groupMap, groupEvents))
      ensures (ok, Progress()) == Run(Setting(), old(Progress()), lines, parse)
    {
      ghost var o0 := Progress();
      if groupView {
        var _ := MakeGroupViewInfo();
      }
      assert Progress() == o0;
      ok := ConvertLines(lines, parse);
    }
  }
}
