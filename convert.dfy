/**
 * What `convertData` (src/pmctl/performance-session-report/LttngParser.cpp)
 * does with the dump, line by line: route the line, build its node, keep or
 * drop it, feed the metadata tracker and the CPU aggregator, and append the
 * events of the enabled views. The parser class is proved against these
 * functions.
 */
module Conversion {
  import opened Util
  import opened OrderedMap
  import opened DataNode
  import opened TraceEvents
  import opened ReportConfig
  import opened LttngLines
  import opened MetaMap
  import opened GroupView
  import opened CpuView
  import Json
  import ReportOptions

  /** The process allow-list of `-p`. */
  datatype Filter = Filter(enabled: bool, names: seq<string>)

  /** How timestamps are read and how long a CPU window lasts. */
  datatype Clock = Clock(bootTime: nat, validBoottime: bool, period: int)

  /** The group map and the catapult events `makeGroupViewInfo` collected. */
  datatype Groups = Groups(groupMap: Entries, events: seq<CatapultCustomEvent>)

  /** What the conversion reads and never changes. */
  datatype Setup = Setup(views: ReportOptions.Views, filter: Filter, clock: Clock, config: Json.Json, groups: Groups)

  /** The node lists the parser keeps for its debug dumps. */
  datatype Lists = Lists(users: seq<NodeValue>, userNews: seq<NodeValue>, kernels: seq<NodeValue>)

  /** What the conversion changes: the metadata maps, the CPU aggregator, the events written, the group metadata and the node lists. */
  datatype Outputs = Outputs(meta: Meta, cpu: CpuState, out: seq<Event>, groupMeta: seq<GroupMetaInfo>, lists: Lists)

  /** `isValidEvent(process, provider)`: no ignore rule of the configuration drops the node. */
  predicate Kept(config: Json.Json, n: NodeValue)
  {
    forall i :: 0 <= i < |IgnoreRules(config)| ==> !Ignores(IgnoreRules(config)[i], n.processName, n.providerName)
  }

  /**
   * `makeUserEvent` / `makeUserNewEvent` after the node is built: a node the
   * ignore rules drop changes nothing.
   */
  function UserStep(st: Setup, o: Outputs, d: Dialect, n: NodeValue): Outputs
    requires d != Kernel && SwapperNameOk(n.processName)
  {
    if !Kept(st.config, n) then o else KeptStep(st, o, d, n)
  }

  /**
   * A kept user node is stored, fed to the metadata tracker, and drawn in
   * the user view and then the group view.
   */
  function KeptStep(st: Setup, o: Outputs, d: Dialect, n: NodeValue): Outputs
    requires d != Kernel && SwapperNameOk(n.processName)
  {
    var lists := if d == Legacy then o.lists.(users := o.lists.users + [n]) else o.lists.(userNews := o.lists.userNews + [n]);
    Outputs(MetaStep(o.meta, n.processName, n.processId, n.threadId), o.cpu, o.out + UserDraw(st, d, n) + GroupDraw(st, d, n).0,
            o.groupMeta + GroupDraw(st, d, n).1, lists)
  }

  /** `KeptStep` field by field. */
  lemma {:induction false} KeptStepFields(st: Setup, o: Outputs, d: Dialect, n: NodeValue, r: Outputs)
    requires d != Kernel && SwapperNameOk(n.processName)
    requires r.meta == MetaStep(o.meta, n.processName, n.processId, n.threadId) && r.cpu == o.cpu
    requires r.out == o.out + UserDraw(st, d, n) + GroupDraw(st, d, n).0 && r.groupMeta == o.groupMeta + GroupDraw(st, d, n).1
    requires d == Legacy ==> r.lists == o.lists.(users := o.lists.users + [n])
    requires d == NewFormat ==> r.lists == o.lists.(userNews := o.lists.userNews + [n])
    ensures r == KeptStep(st, o, d, n)
  {
  }

  /** The user-view events of a kept user node: none when the view is off or its process is not allowed. */
  function UserDraw(st: Setup, d: Dialect, n: NodeValue): seq<Event>
    requires d != Kernel
  {
    if st.views.user && Shown(st.filter.enabled, st.filter.names, n.processName) then
      (if d == Legacy then AllEvents(n) else AllNewEvents(n))
    else []
  }

  /** The group-view duplicates and metadata of a kept user node. */
  function GroupDraw(st: Setup, d: Dialect, n: NodeValue): (seq<Event>, seq<GroupMetaInfo>)
    requires d != Kernel
  {
    if st.views.group && Shown(st.filter.enabled, st.filter.names, n.processName) then
      (if d == Legacy then LegacyGroupView(st.groups.groupMap, st.groups.events, n)
       else NewGroupView(st.groups.groupMap, st.groups.events, n))
    else ([], [])
  }

  /**
   * What the CPU aggregator needs before a kernel node: see `CpuStep`; the
   * node's cpu also indexes the counter array, which the source does unchecked.
   */
  predicate CpuReady(clock: Clock, cpu: CpuState, n: NodeValue)
  {
    Consistent(cpu, n.timeStampl) && clock.period > 0 && |cpu.counts| > 0 && 0 <= n.cpuIdi < |cpu.counts|
  }

  /** `makeKernelEvent` after the node is built: every kernel node is stored, fed to the tracker and to the aggregator. */
  function KernelStep(st: Setup, o: Outputs, n: NodeValue): Outputs
    requires SwapperNameOk(n.processName) && CpuReady(st.clock, o.cpu, n)
  {
    var (cpu, evs) := CpuStep(o.cpu, n, st.clock.period as nat, st.filter.enabled, st.filter.names);
    Outputs(MetaStep(o.meta, n.processName, n.processId, n.threadId), cpu, o.out + evs, o.groupMeta,
            o.lists.(kernels := o.lists.kernels + [n]))
  }

  /** `KernelStep` field by field. */
  lemma {:induction false} KernelStepFields(st: Setup, o: Outputs, n: NodeValue, r: Outputs)
    requires SwapperNameOk(n.processName) && CpuReady(st.clock, o.cpu, n)
    requires r.meta == MetaStep(o.meta, n.processName, n.processId, n.threadId)
    requires r.cpu == CpuStep(o.cpu, n, st.clock.period as nat, st.filter.enabled, st.filter.names).0
    requires r.out == o.out + CpuStep(o.cpu, n, st.clock.period as nat, st.filter.enabled, st.filter.names).1
    requires r.groupMeta == o.groupMeta && r.lists == o.lists.(kernels := o.lists.kernels + [n])
    ensures r == KernelStep(st, o, n)
  {
  }

  /** The node kind of a routed line. */
  function DialectOf(r: Route): Dialect
  {
    match r
    case KernelLine => Kernel
    case NewUserLine => NewFormat
    case _ => Legacy
  }

  /** A line the conversion does not fail on: skipped, or with enough tokens for its kind. */
  predicate LineOk(cpuView: bool, line: string)
  {
    var l := Normalize(line);
    var r := RouteOf(l, cpuView);
    r == Skipped || |SplitFields(l)| >= MinTokens(DialectOf(r))
  }

  /** The node a routed line with enough tokens gives. */
  function LineNode(clock: Clock, l: string, d: Dialect, parse: string -> Json.Json): NodeValue
    requires NodeOk(d, SplitFields(l))
  {
    NodeOf(d, SplitFields(l), clock.bootTime, clock.validBoottime, parse)
  }

  /**
   * What a line demands of the model before it is processed: a node the
   * setters can build, a well-formed swapper name, and for a kernel node a
   * CPU aggregator ready for its timestamp and core.
   */
  predicate LineReady(cpuView: bool, clock: Clock, cpu: CpuState, line: string, parse: string -> Json.Json)
  {
    var l := Normalize(line);
    var r := RouteOf(l, cpuView);
    var d := DialectOf(r);
    r != Skipped && |SplitFields(l)| >= MinTokens(d) ==>
      && NodeOk(d, SplitFields(l))
      && var n := LineNode(clock, l, d, parse);
      && SwapperNameOk(n.processName)
      && (d == Kernel ==> CpuReady(clock, cpu, n))
  }

  /** The CPU aggregator after a line: only kernel lines move it. */
  function NextCpu(cpuView: bool, filter: Filter, clock: Clock, cpu: CpuState, line: string, parse: string -> Json.Json): CpuState
    requires LineReady(cpuView, clock, cpu, line, parse)
  {
    var l := Normalize(line);
    var r := RouteOf(l, cpuView);
    if r == KernelLine && |SplitFields(l)| >= MinTokens(Kernel) then
      CpuStep(cpu, LineNode(clock, l, Kernel, parse), clock.period as nat, filter.enabled, filter.names).0
    else cpu
  }

  /** One iteration of the loop of `convertData`: whether it goes on, and the new outputs. */
  function LineStep(st: Setup, o: Outputs, line: string, parse: string -> Json.Json): (r: (bool, Outputs))
    requires LineReady(st.views.cpu, st.clock, o.cpu, line, parse)
    ensures r.1.cpu == NextCpu(st.views.cpu, st.filter, st.clock, o.cpu, line, parse)
  {
    var l := Normalize(line);
    var r := RouteOf(l, st.views.cpu);
    var d := DialectOf(r);
    if r == Skipped then (true, o)
    else if |SplitFields(l)| < MinTokens(d) then (false, o)
    else
      var n := LineNode(st.clock, l, d, parse);
      if d == Kernel then (true, KernelStep(st, o, n)) else (true, UserStep(st, o, d, n))
  }

  /** `LineStep` by the route of the line, with its node built from the line's fields. */
  lemma {:induction false} LineStepByRoute(st: Setup, o: Outputs, line: string, parse: string -> Json.Json, l: string, t: seq<string>)
    requires LineReady(st.views.cpu, st.clock, o.cpu, line, parse)
    requires l == Normalize(line) && t == SplitFields(l)
    ensures IsDebugInfo(l) ==> LineStep(st, o, line, parse) == (true, o)
    ensures !IsDebugInfo(l) && st.views.cpu && IsKernelMsg(l) ==>
      if |t| < MinTokens(Kernel) then LineStep(st, o, line, parse) == (false, o)
      else LineStep(st, o, line, parse) == (true, KernelStep(st, o, NodeOf(Kernel, t, st.clock.bootTime, st.clock.validBoottime, parse)))
    ensures !IsDebugInfo(l) && !(st.views.cpu && IsKernelMsg(l)) ==>
      var d := if IsNewPmtraceMsg(l) then NewFormat else Legacy;
      if |t| < MinTokens(d) then LineStep(st, o, line, parse) == (false, o)
      else LineStep(st, o, line, parse) == (true, UserStep(st, o, d, NodeOf(d, t, st.clock.bootTime, st.clock.validBoottime, parse)))
  {
  }

  /** The model's demands hold for every line, each against the aggregator the earlier lines leave. */
  predicate Runnable(cpuView: bool, filter: Filter, clock: Clock, cpu: CpuState, lines: seq<string>, parse: string -> Json.Json)
    decreases |lines|
  {
    lines == [] ||
      (&& LineReady(cpuView, clock, cpu, lines[0], parse)
       && Runnable(cpuView, filter, clock, NextCpu(cpuView, filter, clock, cpu, lines[0], parse), lines[1..], parse))
  }

  /** The loop of `convertData`: it stops with false at the first line with too few tokens. */
  function Run(st: Setup, o: Outputs, lines: seq<string>, parse: string -> Json.Json): (bool, Outputs)
    requires Runnable(st.views.cpu, st.filter, st.clock, o.cpu, lines, parse)
    decreases |lines|
  {
    if lines == [] then (true, o)
    else
      var (ok, o') := LineStep(st, o, lines[0], parse);
      if !ok then (false, o') else Run(st, o', lines[1..], parse)
  }

  /** What `makeGroupViewInfo` leaves behind: its answer, the groups, the next group id and the next track id. */
  datatype GroupInfo = GroupInfo(ok: bool, groups: Groups, gid: int, tid: int)

  /**
   * `makeGroupViewInfo`: the groups scan fills the group map; only when it
   * succeeds does the events scan run (the `||` of the source short-circuits).
   */
  function GroupViewInfo(config: Json.Json, g: Groups, gid: int, tid: int): GroupInfo
  {
    var go := GroupsInfo(ReportConfig.Groups(config), g.groupMap, gid);
    if !go.ok then GroupInfo(false, g.(groupMap := go.groupMap), go.gid, tid)
    else
      var eo := EventsInfo(ReportConfig.Groups(config), g.events, tid);
      GroupInfo(eo.ok, Groups(go.groupMap, eo.events), go.gid, eo.groupTid)
  }

  /**
   * The group information is complete exactly when every configured group
   * has `enable` and `name`, and `catapultEvents` when enabled; the event
   * list only grows, and the new events carry consecutive track ids from the
   * old counter.
   */
  lemma {:induction false} GroupViewInfoOk(config: Json.Json, g: Groups, gid: int, tid: int)
    ensures var r := GroupViewInfo(config, g, gid, tid);
      && (r.ok <==> forall i :: 0 <= i < |ReportConfig.Groups(config)| ==> WellFormedEventGroup(ReportConfig.Groups(config)[i]))
      && g.events <= r.groups.events
      && r.tid == tid + (|r.groups.events| - |g.events|)
      && ConsecutiveFrom(r.groups.events[|g.events|..], tid)
  {
    var gs := ReportConfig.Groups(config);
    GroupsInfoOk(gs, g.groupMap, gid);
    EventsInfoOk(gs, g.events, tid);
    EventsInfoTids(gs, g.events, tid);
    var r := GroupViewInfo(config, g, gid, tid);
    if !GroupsInfo(gs, g.groupMap, gid).ok {
      var i :| 0 <= i < |gs| && !WellFormedGroup(gs[i]);
      assert !WellFormedEventGroup(gs[i]);
      assert r.groups.events[|g.events|..] == [];
    }
  }

  // ---------------------------------------------------------------------
  // Properties
  // ---------------------------------------------------------------------

  /** The conversion succeeds iff no line has too few tokens for its kind. */
  lemma {:induction false} RunOk(st: Setup, o: Outputs, lines: seq<string>, parse: string -> Json.Json)
    requires Runnable(st.views.cpu, st.filter, st.clock, o.cpu, lines, parse)
    ensures Run(st, o, lines, parse).0 <==> forall i :: 0 <= i < |lines| ==> LineOk(st.views.cpu, lines[i])
    decreases |lines|
  {
    if lines != [] {
      var (ok, o') := LineStep(st, o, lines[0], parse);
      LineStepOk(st, o, lines[0], parse);
      AllLinesOk(st.views.cpu, lines);
      if ok {
        RunOk(st, o', lines[1..], parse);
      }
    }
  }

  lemma AllLinesOk(cpu: bool, lines: seq<string>)
    requires lines != []
    ensures (forall i :: 0 <= i < |lines| ==> LineOk(cpu, lines[i])) <==>
      LineOk(cpu, lines[0]) && forall i :: 0 <= i < |lines[1..]| ==> LineOk(cpu, lines[1..][i])
  {
    assert forall i :: 1 <= i < |lines| ==> lines[i] == lines[1..][i - 1];
  }

  /** A line stops the conversion exactly when it is not skipped and has too few tokens for its kind. */
  lemma {:induction false} LineStepOk(st: Setup, o: Outputs, line: string, parse: string -> Json.Json)
    requires LineReady(st.views.cpu, st.clock, o.cpu, line, parse)
    ensures LineStep(st, o, line, parse).0 == LineOk(st.views.cpu, line)
    ensures !LineStep(st, o, line, parse).0 ==> LineStep(st, o, line, parse).1 == o
  {
  }

  /** Output is only ever appended to: events, group metadata and node lists grow; the metadata maps stay covered. */
  lemma {:induction false} RunAppends(st: Setup, o: Outputs, lines: seq<string>, parse: string -> Json.Json)
    requires Runnable(st.views.cpu, st.filter, st.clock, o.cpu, lines, parse)
    ensures Extends(o, Run(st, o, lines, parse).1)
    decreases |lines|
  {
    if lines != [] {
      var (ok, o') := LineStep(st, o, lines[0], parse);
      StepAppends(st, o, lines[0], parse);
      if ok {
        RunAppends(st, o', lines[1..], parse);
      }
    }
  }

  /** Every output of `o` is a prefix of the same output of `r`, and `r`'s metadata maps are covered when `o`'s are. */
  predicate Extends(o: Outputs, r: Outputs)
  {
    && o.out <= r.out && o.groupMeta <= r.groupMeta
    && o.lists.users <= r.lists.users && o.lists.userNews <= r.lists.userNews && o.lists.kernels <= r.lists.kernels
    && (Covered(o.meta) ==> Covered(r.meta))
  }

  /** One line appends to every output and keeps the metadata maps covered. */
  lemma {:induction false} StepAppends(st: Setup, o: Outputs, line: string, parse: string -> Json.Json)
    requires LineReady(st.views.cpu, st.clock, o.cpu, line, parse)
    ensures Extends(o, LineStep(st, o, line, parse).1)
  {
    var l := Normalize(line);
    var r := RouteOf(l, st.views.cpu);
    var d := DialectOf(r);
    if r != Skipped && |SplitFields(l)| >= MinTokens(d) {
      var n := LineNode(st.clock, l, d, parse);
      if d == Kernel {
        KernelAppends(st, o, n);
      } else {
        UserAppends(st, o, d, n);
      }
    }
  }

  /** A user node only appends. */
  lemma {:induction false} UserAppends(st: Setup, o: Outputs, d: Dialect, n: NodeValue)
    requires d != Kernel && SwapperNameOk(n.processName)
    ensures Extends(o, UserStep(st, o, d, n))
  {
    if Covered(o.meta) {
      MetaStepCovered(o.meta, n.processName, n.processId, n.threadId);
    }
  }

  /** A kernel node only appends. */
  lemma {:induction false} KernelAppends(st: Setup, o: Outputs, n: NodeValue)
    requires SwapperNameOk(n.processName) && CpuReady(st.clock, o.cpu, n)
    ensures Extends(o, KernelStep(st, o, n))
  {
    if Covered(o.meta) {
      MetaStepCovered(o.meta, n.processName, n.processId, n.threadId);
    }
  }

  /**
   * The ignore rules and the allow-list: a dropped node changes nothing; a
   * kept one is stored and fed to the tracker; a node whose process is not
   * allowed draws no event, neither in the user nor in the group view.
   */
  lemma {:induction false} UserStepFilters(st: Setup, o: Outputs, d: Dialect, n: NodeValue)
    requires d != Kernel && SwapperNameOk(n.processName)
    ensures !Kept(st.config, n) ==> UserStep(st, o, d, n) == o
    ensures Kept(st.config, n) ==> var r := UserStep(st, o, d, n);
      && r.meta == MetaStep(o.meta, n.processName, n.processId, n.threadId) && r.cpu == o.cpu
      && r.lists == (if d == Legacy then o.lists.(users := o.lists.users + [n]) else o.lists.(userNews := o.lists.userNews + [n]))
    ensures !Shown(st.filter.enabled, st.filter.names, n.processName) ==>
      var r := UserStep(st, o, d, n);
      r.out == o.out && r.groupMeta == o.groupMeta
    ensures !st.views.user && !st.views.group ==> UserStep(st, o, d, n).out == o.out
  {
  }

  /** Kernel nodes are never filtered: each is stored and reaches the tracker and the aggregator. */
  lemma {:induction false} KernelStepAlways(st: Setup, o: Outputs, n: NodeValue)
    requires SwapperNameOk(n.processName) && CpuReady(st.clock, o.cpu, n)
    ensures var r := KernelStep(st, o, n);
      var (cpu, evs) := CpuStep(o.cpu, n, st.clock.period as nat, st.filter.enabled, st.filter.names);
      && r.lists.kernels == o.lists.kernels + [n] && r.lists.users == o.lists.users
      && r.meta == MetaStep(o.meta, n.processName, n.processId, n.threadId)
      && r.cpu == cpu && r.out == o.out + evs && r.groupMeta == o.groupMeta
  {
  }

  /** Skipped lines change nothing, and without the CPU view no line reaches the aggregator. */
  lemma {:induction false} SkippedAndCpuOff(st: Setup, o: Outputs, line: string, parse: string -> Json.Json)
    requires LineReady(st.views.cpu, st.clock, o.cpu, line, parse)
    ensures IsDebugInfo(Normalize(line)) ==> LineStep(st, o, line, parse) == (true, o)
    ensures !st.views.cpu ==> (LineStep(st, o, line, parse).1.cpu == o.cpu
                               && LineStep(st, o, line, parse).1.lists.kernels == o.lists.kernels)
  {
    NoKernelWithoutCpuView(Normalize(line));
  }
}
