/**
 * The Catapult trace events the session report writes
 * (src/pmctl/performance-session-report/LttngParser.cpp, the makeJson*Event
 * and make*Detail functions). An event is kept as a record rather than as
 * JSON text; the phase tables decide which event types produce events.
 */
module TraceEvents {
  import opened Wrappers
  import opened Util
  import opened DataNode
  import Json
  import Definition

  /** A "pid" or "tid" member: the node's text, or a number of a synthetic view. */
  datatype Id = IdText(text: string) | IdNum(num: int)

  /** The "args" member. */
  datatype Args =
    | NoArgs
    | Fields(fields: map<string, string>)
    | Snapshot(snapshot: map<string, string>)
    | Usage(value: real)

  /** One trace event; `id` and `scope` (the "s" member) are present only on some phases. */
  datatype Event = Event(cat: string, pid: Id, tid: Id, ts: string, ph: string, name: string,
                         id: Option<string>, scope: Option<string>, args: Args)

  // ---------------------------------------------------------------------
  // Phase tables
  // ---------------------------------------------------------------------

  /** The legacy event types of an instant event. */
  const InstantTypes: set<string> := {Definition.TRACE_TYPE_SOINFO, Definition.TRACE_TYPE_TOUCHCOORDINATE,
    Definition.TRACE_TYPE_MESSAGE, Definition.TRACE_TYPE_KEYVALUE}
  /** The legacy event types that open a slice. */
  const BeginTypes: set<string> := {Definition.TRACE_TYPE_BEFORE, Definition.TRACE_TYPE_SCOPE_ENTRY,
    Definition.TRACE_TYPE_FUNCTION_ENTRY, Definition.TRACE_TYPE_IM_FUNCTION_ENTRY}
  /** The legacy event types that close a slice. */
  const EndTypes: set<string> := {Definition.TRACE_TYPE_AFTER, Definition.TRACE_TYPE_SCOPE_EXIT,
    Definition.TRACE_TYPE_FUNCTION_EXIT, Definition.TRACE_TYPE_IM_FUNCTION_EXIT}

  /**
   * The if-chain of the legacy user and group views: the phase of an event
   * type, or nothing for start, end and unknown types.
   */
  function LegacyPhase(t: string): (r: Option<string>)
    ensures r == Some("I") <==> t in InstantTypes
    ensures r == Some("B") <==> t in BeginTypes
    ensures r == Some("E") <==> t in EndTypes
    ensures r == None <==> t !in InstantTypes + BeginTypes + EndTypes
    ensures t == Definition.TRACE_TYPE_START || t == Definition.TRACE_TYPE_END ==> r == None
  {
    if t == Definition.TRACE_TYPE_SOINFO then Some("I")
    else if t == Definition.TRACE_TYPE_START || t == Definition.TRACE_TYPE_END then None
    else if t == Definition.TRACE_TYPE_TOUCHCOORDINATE then Some("I")
    else if t == Definition.TRACE_TYPE_MESSAGE then Some("I")
    else if t == Definition.TRACE_TYPE_KEYVALUE then Some("I")
    else if t == Definition.TRACE_TYPE_BEFORE then Some("B")
    else if t == Definition.TRACE_TYPE_AFTER then Some("E")
    else if t == Definition.TRACE_TYPE_SCOPE_ENTRY then Some("B")
    else if t == Definition.TRACE_TYPE_SCOPE_EXIT then Some("E")
    else if t == Definition.TRACE_TYPE_FUNCTION_ENTRY then Some("B")
    else if t == Definition.TRACE_TYPE_FUNCTION_EXIT then Some("E")
    else if t == Definition.TRACE_TYPE_IM_FUNCTION_ENTRY then Some("B")
    else if t == Definition.TRACE_TYPE_IM_FUNCTION_EXIT then Some("E")
    else None
  }

  /**
   * The if-chain of the new-format user view for non-marker types: the
   * phase and the payload key that names the event.
   */
  function NewPhase(t: string): (r: Option<(string, string)>)
    ensures r == Some(("B", "name")) <==> t == Definition.TRACE_TYPE_BLOCK_ENTRY
    ensures r == Some(("E", "name")) <==> t == Definition.TRACE_TYPE_BLOCK_EXIT
    ensures r == Some(("I", "cat")) <==> t == Definition.TRACE_TYPE_LOG
    ensures r == None <==> t !in {Definition.TRACE_TYPE_BLOCK_ENTRY, Definition.TRACE_TYPE_BLOCK_EXIT, Definition.TRACE_TYPE_LOG}
  {
    if t == Definition.TRACE_TYPE_BLOCK_ENTRY then Some(("B", "name"))
    else if t == Definition.TRACE_TYPE_BLOCK_EXIT then Some(("E", "name"))
    else if t == Definition.TRACE_TYPE_LOG then Some(("I", "cat"))
    else None
  }

  /** The if-chain of the new-format group view: only blocks are drawn there. */
  function NewGroupPhase(t: string): (r: Option<string>)
    ensures r == Some("B") <==> t == Definition.TRACE_TYPE_BLOCK_ENTRY
    ensures r == Some("E") <==> t == Definition.TRACE_TYPE_BLOCK_EXIT
    ensures r == None <==> t != Definition.TRACE_TYPE_BLOCK_ENTRY && t != Definition.TRACE_TYPE_BLOCK_EXIT
  {
    if t == Definition.TRACE_TYPE_BLOCK_ENTRY then Some("B")
    else if t == Definition.TRACE_TYPE_BLOCK_EXIT then Some("E")
    else None
  }

  // ---------------------------------------------------------------------
  // Event arguments
  // ---------------------------------------------------------------------

  /** A member that is put only when its text is non-empty. */
  function Member(key: string, value: string): map<string, string>
  {
    if value == "" then map[] else map[key := value]
  }

  /** `m` shows `value` under `key`: present iff `value` is non-empty. */
  predicate Has(m: map<string, string>, key: string, value: string)
  {
    (key in m <==> value != "") && (key in m ==> m[key] == value)
  }

  /** The argument names `makeUserDetail` gives the node fields. */
  const FieldKeys: set<string> := {"hostname", "provider", "process name", "pid", "tid", "cpu_id", "signal"}

  /** The node field put under an argument name. */
  function FieldValue(n: NodeValue, key: string): string
  {
    if key == "hostname" then n.hostName
    else if key == "provider" then n.providerName
    else if key == "process name" then n.processName
    else if key == "pid" then n.processId
    else if key == "tid" then n.threadId
    else if key == "cpu_id" then n.cpuId
    else n.signal
  }

  /** The non-empty node fields `makeUserDetail` puts before the payload. */
  function NodeFields(n: NodeValue): (r: map<string, string>)
    ensures Has(r, "hostname", n.hostName) && Has(r, "provider", n.providerName)
    ensures Has(r, "process name", n.processName) && Has(r, "pid", n.processId)
    ensures Has(r, "tid", n.threadId) && Has(r, "cpu_id", n.cpuId) && Has(r, "signal", n.signal)
    ensures r.Keys <= FieldKeys
  {
    map k | k in FieldKeys && FieldValue(n, k) != "" :: FieldValue(n, k)
  }

  /**
   * `makeUserDetail`: the non-empty node fields, then every payload entry;
   * a payload key named like a field replaces it.
   */
  function UserDetail(n: NodeValue): (r: map<string, string>)
    ensures forall k :: k in n.payload ==> k in r && r[k] == n.payload[k]
    ensures forall k :: k in r && k !in n.payload ==> k in NodeFields(n) && r[k] == NodeFields(n)[k]
  {
    NodeFields(n) + n.payload
  }

  /** A node field shows in the arguments when it is non-empty, unless the payload holds a key of that name. */
  lemma {:induction false} UserDetailField(n: NodeValue, key: string, value: string)
    requires (key, value) in {("hostname", n.hostName), ("provider", n.providerName), ("process name", n.processName),
      ("pid", n.processId), ("tid", n.threadId), ("cpu_id", n.cpuId), ("signal", n.signal)}
    requires key !in n.payload
    ensures key in UserDetail(n) <==> value != ""
    ensures key in UserDetail(n) ==> UserDetail(n)[key] == value
  {
  }

  /** `makeUserNewDetail`: the payload without "cat" and "name". */
  function UserNewDetail(n: NodeValue): (r: map<string, string>)
    ensures r.Keys == n.payload.Keys - {"cat", "name"}
    ensures forall k :: k in r ==> r[k] == n.payload[k]
  {
    map k | k in n.payload && k != "cat" && k != "name" :: n.payload[k]
  }

  /** `makeKernelDetail`: the cpu id, when there is one. */
  function KernelDetail(n: NodeValue): (r: map<string, string>)
    ensures "cpu_id" in r <==> n.cpuId != ""
    ensures r.Keys <= {"cpu_id"} && forall k :: k in r ==> r[k] == n.cpuId
  {
    Member("cpu_id", n.cpuId)
  }

  // ---------------------------------------------------------------------
  // The user views
  // ---------------------------------------------------------------------

  /** `makeJsonAllEvent` once the process filter has passed: at most one event. */
  function AllEvents(n: NodeValue): seq<Event>
  {
    match LegacyPhase(n.eventType)
    case None => []
    case Some(ph) =>
      [Event("all", IdText(n.processId), IdText(n.threadId), n.timeStamp, ph, n.signal, None, None, Fields(UserDetail(n)))]
  }

  /** A legacy event is drawn exactly when its type has a phase; it is named by the signal. */
  lemma {:induction false} AllEventsShape(n: NodeValue)
    ensures |AllEvents(n)| == (if n.eventType in InstantTypes + BeginTypes + EndTypes then 1 else 0)
    ensures |AllEvents(n)| == 1 ==> var e := AllEvents(n)[0];
      && Some(e.ph) == LegacyPhase(n.eventType) && e.cat == "all" && e.name == n.signal
      && e.pid == IdText(n.processId) && e.tid == IdText(n.threadId) && e.ts == n.timeStamp
      && e.args == Fields(UserDetail(n))
  {
  }

  /** The fields shared by the four marker events and the other new-format events. */
  function NewEvent(n: NodeValue, ph: string, name: string, id: Option<string>, scope: Option<string>, args: Args): Event
  {
    Event(GetPayload(n, "cat"), IdText(n.processId), IdText(n.threadId), n.timeStamp, ph, name, id, scope, args)
  }

  /** `makeJsonAllNewEvent` once the process filter has passed. */
  function AllNewEvents(n: NodeValue): seq<Event>
  {
    if n.eventType == Definition.TRACE_TYPE_MARKER then
      var name := GetPayload(n, "name");
      [ NewEvent(n, "N", name, Some(n.threadId), None, NoArgs),
        NewEvent(n, "O", name, Some(n.threadId), None, Snapshot(n.payload)),
        NewEvent(n, "D", name, Some(n.threadId), None, NoArgs),
        NewEvent(n, "I", name, None, Some("g"), NoArgs) ]
    else
      match NewPhase(n.eventType)
      case None => []
      case Some((ph, key)) => [NewEvent(n, ph, GetPayload(n, key), None, None, Fields(UserNewDetail(n)))]
  }

  /**
   * A marker gives exactly four events N, O, D and I, all named by the
   * payload's "name" and in its "cat"; the first three carry the thread id as
   * their id, only O carries the payload (as a snapshot), and I is global.
   */
  lemma {:induction false} MarkerEvents(n: NodeValue)
    requires n.eventType == Definition.TRACE_TYPE_MARKER
    ensures var es := AllNewEvents(n);
      && |es| == 4
      && es[0].ph == "N" && es[1].ph == "O" && es[2].ph == "D" && es[3].ph == "I"
      && (forall i :: 0 <= i < 4 ==> es[i].name == GetPayload(n, "name") && es[i].cat == GetPayload(n, "cat"))
      && (forall i :: 0 <= i < 3 ==> es[i].id == Some(n.threadId) && es[i].scope == None)
      && es[3].id == None && es[3].scope == Some("g")
      && es[1].args == Snapshot(n.payload) && es[0].args == NoArgs && es[2].args == NoArgs && es[3].args == NoArgs
  {
  }

  /**
   * A non-marker new-format event: one event for a block or a log, named by
   * the payload's "name" (blocks) or "cat" (logs), and none for other types.
   */
  lemma {:induction false} NewEventsShape(n: NodeValue)
    requires n.eventType != Definition.TRACE_TYPE_MARKER
    ensures var es := AllNewEvents(n);
      && (n.eventType == Definition.TRACE_TYPE_BLOCK_ENTRY ==> |es| == 1 && es[0].ph == "B" && es[0].name == GetPayload(n, "name"))
      && (n.eventType == Definition.TRACE_TYPE_BLOCK_EXIT ==> |es| == 1 && es[0].ph == "E" && es[0].name == GetPayload(n, "name"))
      && (n.eventType == Definition.TRACE_TYPE_LOG ==> |es| == 1 && es[0].ph == "I" && es[0].name == GetPayload(n, "cat"))
      && (n.eventType !in {Definition.TRACE_TYPE_BLOCK_ENTRY, Definition.TRACE_TYPE_BLOCK_EXIT, Definition.TRACE_TYPE_LOG} ==> es == [])
      && (|es| == 1 ==> es[0].args == Fields(UserNewDetail(n)) && es[0].cat == GetPayload(n, "cat") && es[0].id == None)
  {
  }

  // ---------------------------------------------------------------------
  // The group views
  // ---------------------------------------------------------------------

  /** A legacy group-view duplicate: pid is the group id, tid the group track. */
  function GroupEvent(n: NodeValue, ph: string, gid: int, tid: int): Event
  {
    Event("group", IdNum(gid), IdNum(tid), n.timeStamp, ph, n.signal, None, None, Fields(UserDetail(n)))
  }

  /** A new-format group-view duplicate, named by the payload's "name". */
  function GroupNewEvent(n: NodeValue, ph: string, gid: int, tid: int): Event
  {
    Event("group", IdNum(gid), IdNum(tid), n.timeStamp, ph, GetPayload(n, "name"), None, None, Fields(UserNewDetail(n)))
  }

  // ---------------------------------------------------------------------
  // The CPU views
  // ---------------------------------------------------------------------

  /** One slice edge of the CPU process view: E for the thread switched out, B for the one switched in. */
  function CpuEvent(n: NodeValue, ph: string, name: string, tid: int): Event
  {
    Event("cpu", IdNum(Definition.CPU_PROCESS_VIEW_ID), IdNum(tid), n.timeStamp, ph, name, None, None, Fields(KernelDetail(n)))
  }

  /** `"Core #" + to_string(core)`, or "Total" for the extra track after the last core. */
  function UsageName(core: int, coreNum: int): string
  {
    if core == coreNum then "Total" else "Core #" + Json.IntToString(core)
  }

  /** `makeCpuUsageEvent`: a counter sample of the CPU core view. */
  function UsageEvent(core: int, coreNum: int, targetTs: nat, value: real): (e: Event)
    ensures e.ph == "C" && e.pid == IdNum(Definition.CPU_CORE_VIEW_ID) && e.tid == IdNum(core)
    ensures e.ts == NatToString(targetTs) && e.args == Usage(value)
    ensures e.name == "Total" <==> core == coreNum
  {
    Event("usage", IdNum(Definition.CPU_CORE_VIEW_ID), IdNum(core), NatToString(targetTs), "C",
      UsageName(core, coreNum), None, None, Usage(value))
  }
}
