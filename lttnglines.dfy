/**
 * One line of the babeltrace text dump as the session report reads it
 * (src/pmctl/performance-session-report/LttngParser.cpp): which path a line
 * takes, and the node built from its fields by their fixed positions. The
 * three `make*Event` functions share the field loop; here it is one method
 * over the three node dialects.
 */
module LttngLines {
  import opened Util
  import opened DataNode
  import Json
  import Definition
  import UserNode
  import UserNewNode
  import KernelNode

  // ---------------------------------------------------------------------
  // Routing a line
  // ---------------------------------------------------------------------

  /** `if(temp[1] == ' ') temp.erase(1,1)`: the space after the opening bracket of a short timestamp goes. */
  function Normalize(line: string): (r: string)
    ensures |line| >= 2 && line[1] == ' ' ==> |r| == |line| - 1 && r[0] == line[0] && r[1..] == line[2..]
    ensures !(|line| >= 2 && line[1] == ' ') ==> r == line
  {
    if |line| >= 2 && line[1] == ' ' then line[..1] + line[2..] else line
  }

  /** A debug-information line of the dump: such lines are skipped. */
  predicate IsDebugInfo(line: string)
  {
    Contains(line, Definition.TRACE_TYPE_BIN_INFO) || Contains(line, Definition.TRACE_TYPE_BUILD_ID)
      || Contains(line, Definition.TRACE_TYPE_DEBUG_LINK)
  }

  /** `isKernelMsg`. */
  predicate IsKernelMsg(msg: string)
  {
    Contains(msg, "sched_switch")
  }

  /** `isNewPmtraceMsg`. */
  predicate IsNewPmtraceMsg(msg: string)
  {
    Contains(msg, "pmtrace") && Contains(msg, "cat") && Contains(msg, "payload")
  }

  datatype Route = Skipped | KernelLine | NewUserLine | LegacyUserLine

  /** The dispatch of `convertData` for a normalised line. */
  function RouteOf(line: string, cpuView: bool): Route
  {
    if IsDebugInfo(line) then Skipped
    else if cpuView && IsKernelMsg(line) then KernelLine
    else if IsNewPmtraceMsg(line) then NewUserLine
    else LegacyUserLine
  }

  /**
   * The routes in terms of the words a line contains: debug information is
   * skipped; with the CPU view on, "sched_switch" selects the kernel path;
   * otherwise "pmtrace", "cat" and "payload" all present select the new
   * format, and anything else the legacy format.
   */
  lemma {:induction false} RouteOfWords(line: string, cpuView: bool)
    ensures RouteOf(line, cpuView) == Skipped <==>
      (exists i: nat :: OccursAt(line, "bin_info", i)) || (exists i: nat :: OccursAt(line, "build_id", i))
        || (exists i: nat :: OccursAt(line, "debug_link", i))
    ensures RouteOf(line, cpuView) == KernelLine <==>
      RouteOf(line, cpuView) != Skipped && cpuView && exists i: nat :: OccursAt(line, "sched_switch", i)
    ensures RouteOf(line, cpuView) == NewUserLine <==>
      && RouteOf(line, cpuView) != Skipped && !(cpuView && exists i: nat :: OccursAt(line, "sched_switch", i))
      && (exists i: nat :: OccursAt(line, "pmtrace", i)) && (exists i: nat :: OccursAt(line, "cat", i))
      && (exists i: nat :: OccursAt(line, "payload", i))
  {
    ContainsIff(line, "bin_info");
    ContainsIff(line, "build_id");
    ContainsIff(line, "debug_link");
    ContainsIff(line, "sched_switch");
    ContainsIff(line, "pmtrace");
    ContainsIff(line, "cat");
    ContainsIff(line, "payload");
  }

  /** With the CPU view off no line takes the kernel path: a sched_switch line is read as a user line. */
  lemma {:induction false} NoKernelWithoutCpuView(line: string)
    ensures RouteOf(line, false) != KernelLine
    ensures !IsDebugInfo(line) ==> RouteOf(line, false) == (if IsNewPmtraceMsg(line) then NewUserLine else LegacyUserLine)
  {
  }

  // ---------------------------------------------------------------------
  // The payload text
  // ---------------------------------------------------------------------

  /** `temp += tokens[i] + " "` over a run of tokens: each token followed by one space. */
  function JoinSpaced(ts: seq<string>): string
  {
    if ts == [] then [] else JoinSpaced(ts[..|ts| - 1]) + ts[|ts| - 1] + " "
  }

  /** One more token appends it and a space. */
  lemma {:induction false} JoinSpacedSnoc(ts: seq<string>, x: string)
    ensures JoinSpaced(ts + [x]) == JoinSpaced(ts) + x + " "
  {
    assert (ts + [x])[..|ts|] == ts;
  }

  /** Read from the left: the first token, a space, then the rest. */
  lemma {:induction false} JoinSpacedCons(t: string, ts: seq<string>)
    ensures JoinSpaced([t] + ts) == t + " " + JoinSpaced(ts)
    decreases |ts|
  {
    if ts != [] {
      var all := [t] + ts;
      assert all[..|all| - 1] == [t] + ts[..|ts| - 1];
      JoinSpacedCons(t, ts[..|ts| - 1]);
    }
  }

  /** Space-free, non-empty tokens come back from the payload text when it is split at spaces. */
  lemma {:induction false} JoinSpacedTokens(ts: seq<string>)
    requires CleanTokens(ts, {' '})
    ensures Tokens(JoinSpaced(ts), {' '}) == ts
    decreases |ts|
  {
    if ts != [] {
      var t := ts[0];
      var rest := JoinSpaced(ts[1..]);
      assert [t] + ts[1..] == ts;
      JoinSpacedCons(t, ts[1..]);
      var s := t + " " + rest;
      TokensRun(s, {' '}, 0, |t|);
      TokensSkip(s, {' '}, |t|, |t| + 1);
      assert s[0..] == s && s[0..|t|] == t && s[|t| + 1..] == rest;
      JoinSpacedTokens(ts[1..]);
    }
  }

  /** The text has one character more per token than the tokens have. */
  lemma {:induction false} JoinSpacedLength(ts: seq<string>)
    ensures |JoinSpaced(ts)| >= |ts|
    ensures ts != [] ==> JoinSpaced(ts)[|JoinSpaced(ts)| - 1] == ' '
    decreases |ts|
  {
    if ts != [] {
      JoinSpacedLength(ts[..|ts| - 1]);
    }
  }

  // ---------------------------------------------------------------------
  // Fields by position
  // ---------------------------------------------------------------------

  /** The node kinds: legacy pmtrace, new-format pmtrace and kernel events. */
  datatype Dialect = Legacy | NewFormat | Kernel

  /** The number of header tokens; shorter lines are rejected. */
  function MinTokens(d: Dialect): (r: nat)
    ensures r == if d == Kernel then 17 else 20
  {
    if d == Kernel then Definition.MSG_INDEX_MINIMUM_KERNEL else Definition.MSG_INDEX_MINIMUM_USER
  }

  /**
   * What the setters demand of the first `k` header tokens: a timestamp
   * `stoull` can read, a host field with a ':'-token, and for kernel events
   * a provider field with one.
   */
  predicate HeaderOk(d: Dialect, t: seq<string>, k: nat)
  {
    && k <= |t|
    && (k > Definition.MSG_INDEX_TIMESTAMP ==> WellFormedStamp(t[Definition.MSG_INDEX_TIMESTAMP]))
    && (k > Definition.MSG_INDEX_HOSTNAME ==> Tokens(t[Definition.MSG_INDEX_HOSTNAME], {':'}) != [])
    && (d == Kernel && k > Definition.MSG_INDEX_PROVIDER_AND_EVENT ==>
          Tokens(t[Definition.MSG_INDEX_PROVIDER_AND_EVENT], {':'}) != [])
  }

  /** The provider field as each dialect reads it. */
  function WithProviderField(d: Dialect, n: NodeValue, str: string): NodeValue
    requires d == Kernel ==> Tokens(str, {':'}) != []
  {
    match d
    case Legacy => UserNode.WithProviderAndEvent(n, str)
    case NewFormat => UserNewNode.WithProviderAndEvent(n, str)
    case Kernel => KernelNode.WithProvider(n, str)
  }

  /** Token 15 is the pid of a user event, and both tid and pid of a kernel event. */
  function WithIdField(d: Dialect, n: NodeValue, str: string): NodeValue
  {
    if d == Kernel then WithProcessId(WithThreadId(n, str), str) else WithProcessId(n, str)
  }

  /** The node after the header switch has seen tokens 0 .. k-1. */
  function Partial(d: Dialect, t: seq<string>, k: nat, boottime: nat, validBoottime: bool): NodeValue
    requires HeaderOk(d, t, k)
  {
    var n0 := if k > 0 then WithStamp(EmptyNode, t[0], boottime, validBoottime) else EmptyNode;
    var n2 := if k > 2 then WithHostName(n0, t[2]) else n0;
    var n3 := if k > 3 then WithProviderField(d, n2, t[3]) else n2;
    var n7 := if k > 7 then WithCpuId(n3, t[7]) else n3;
    var n12 := if k > 12 then WithProcessName(n7, t[12]) else n7;
    var n15 := if k > 15 then WithIdField(d, n12, t[15]) else n12;
    if k > 18 && d != Kernel then WithThreadId(n15, t[18]) else n15
  }

  /** The header fields of a line with enough tokens. */
  function Header(d: Dialect, t: seq<string>, boottime: nat, validBoottime: bool): NodeValue
    requires HeaderOk(d, t, MinTokens(d))
  {
    Partial(d, t, MinTokens(d), boottime, validBoottime)
  }

  /**
   * Which token fills which field: 0 the timestamp, 2 the host, 3 the
   * provider (and the event type for user events), 7 the cpu, 12 the
   * process name, 15 the pid, and 18 the tid of user events, while a kernel
   * event takes its tid from token 15 as well. Nothing else is set.
   */
  lemma {:induction false} HeaderFields(d: Dialect, t: seq<string>, boottime: nat, validBoottime: bool)
    requires HeaderOk(d, t, MinTokens(d))
    ensures var h := Header(d, t, boottime, validBoottime);
      var st := WithStamp(EmptyNode, t[0], boottime, validBoottime);
      var pe := WithProviderField(d, EmptyNode, t[3]);
      && h.timeStamp == st.timeStamp && h.timeStampl == st.timeStampl
      && h.hostName == Tokens(t[2], {':'})[0]
      && h.providerName == pe.providerName && h.eventType == pe.eventType && h.signal == pe.signal
      && h.cpuId == Without(t[7], " ") && h.cpuIdi == Atoi(Without(t[7], " "))
      && h.processName == Without(t[12], "\",")
      && h.processId == Without(t[15], ", ")
      && h.threadId == Without(t[if d == Kernel then 15 else 18], ", ")
      && h.payload == map[]
  {
  }

  /** The kernel and legacy providers: the text before ':' or the two ':'-separated names. */
  lemma {:induction false} ProviderFieldOf(d: Dialect, n: NodeValue, str: string)
    requires d == Kernel ==> Tokens(str, {':'}) != []
    ensures d == Kernel ==> WithProviderField(d, n, str) == n.(providerName := Tokens(str, {':'})[0])
    ensures d != Kernel && |Tokens(str, {':'})| < 2 ==> WithProviderField(d, n, str) == n
    ensures d == NewFormat ==> WithProviderField(d, n, str).signal == n.signal
  {
  }

  /** What the lines of each dialect demand beyond the header: the new format's JSON start must be inside the text. */
  predicate NodeOk(d: Dialect, t: seq<string>)
  {
    && HeaderOk(d, t, MinTokens(d))
    && (d == NewFormat ==> UserNewNode.JsonStartInRange(JoinSpaced(t[MinTokens(d)..])))
  }

  /** The node of a line: the header, then the payload text made of every later token. */
  function NodeOf(d: Dialect, t: seq<string>, boottime: nat, validBoottime: bool, parse: string -> Json.Json): NodeValue
    requires NodeOk(d, t)
  {
    var h := Header(d, t, boottime, validBoottime);
    var text := JoinSpaced(t[MinTokens(d)..]);
    match d
    case Legacy => UserNode.WithLegacyPayload(h, text)
    case NewFormat => UserNewNode.WithNewPayload(h, text, parse)
    case Kernel => KernelNode.WithKernelPayload(h, text)
  }

  /** Only the payload tokens reach the payload: the header fields of the node are the header's. */
  lemma {:induction false} NodeKeepsHeader(d: Dialect, t: seq<string>, boottime: nat, validBoottime: bool, parse: string -> Json.Json)
    requires NodeOk(d, t) && d != Legacy
    ensures NodeOf(d, t, boottime, validBoottime, parse).(payload := map[]) == Header(d, t, boottime, validBoottime)
  {
    HeaderFields(d, t, boottime, validBoottime);
  }

  /** One step of the header switch: token `i` goes to the field its position names, if any. */
  method SetField(d: Dialect, node: TraceNode, t: seq<string>, i: nat, boottime: nat, validBoottime: bool)
    requires i < MinTokens(d) && HeaderOk(d, t, MinTokens(d))
    requires node.Value() == Partial(d, t, i, boottime, validBoottime)
    modifies node
    ensures node.Value() == Partial(d, t, i + 1, boottime, validBoottime)
  {
    if i == Definition.MSG_INDEX_TIMESTAMP {
      node.SetTimeStamp(t[i], boottime, validBoottime);
    } else if i == Definition.MSG_INDEX_HOSTNAME {
      node.SetHostName(t[i]);
    } else if i == Definition.MSG_INDEX_PROVIDER_AND_EVENT {
      match d {
        case Legacy => UserNode.SetProviderAndEvent(node, t[i]);
        case NewFormat => UserNewNode.SetProviderAndEvent(node, t[i]);
        case Kernel => KernelNode.SetProvider(node, t[i]);
      }
    } else if i == Definition.MSG_INDEX_CPU_ID {
      node.SetCpuId(t[i]);
    } else if i == Definition.MSG_INDEX_PROCESS_NAME {
      node.SetProcessName(t[i]);
    } else if i == Definition.MSG_INDEX_PROCESS_ID {
      if d == Kernel {
        node.SetThreadId(t[i]);
      }
      node.SetProcessId(t[i]);
    } else if i == Definition.MSG_INDEX_THREAD_ID {
      node.SetThreadId(t[i]);
    }
  }

  /** The `else` branch of the field loop: every token from `m` on, each followed by a space. */
  method PayloadTokens(t: seq<string>, m: nat) returns (temp: string)
    requires m <= |t|
    ensures temp == JoinSpaced(t[m..])
  {
    temp := "";
    var i := m;
    assert t[m..i] == [];
    while i < |t|
      invariant m <= i <= |t|
      invariant temp == JoinSpaced(t[m..i])
    {
      assert t[m..i + 1] == t[m..i] + [t[i]];
      JoinSpacedSnoc(t[m..i], t[i]);
      temp := temp + t[i] + " ";
      i := i + 1;
    }
    assert t[m..i] == t[m..];
  }

  /**
   * The field loop of `makeUserEvent`, `makeUserNewEvent` and
   * `makeKernelEvent` followed by `setPayload` of the node.
   */
  method BuildNode(d: Dialect, t: seq<string>, boottime: nat, validBoottime: bool, parse: string -> Json.Json)
    returns (node: TraceNode)
    requires NodeOk(d, t)
    ensures fresh(node)
    ensures node.Value() == NodeOf(d, t, boottime, validBoottime, parse)
  {
    var m := MinTokens(d);
    node := new TraceNode();
    // The header positions all come before the payload tokens, so the
    // source's single loop runs as these two in sequence.
    var i := 0;
    while i < m
      invariant 0 <= i <= m
      invariant fresh(node)
      invariant node.Value() == Partial(d, t, i, boottime, validBoottime)
    {
      SetField(d, node, t, i, boottime, validBoottime);
      i := i + 1;
    }
    var text := PayloadTokens(t, m);
    match d {
      case Legacy => UserNode.SetPayload(node, text);
      case NewFormat => UserNewNode.SetPayload(node, text, parse);
      case Kernel => KernelNode.SetPayload(node, text);
    }
  }

  // ---------------------------------------------------------------------
  // Swapper threads
  // ---------------------------------------------------------------------

  /** `s.find(p) == 0`. */
  predicate StartsWith(s: string, p: string)
  {
    FindFrom(s, p, 0) == 0
  }

  /** Found at index 0 means prefix. */
  lemma {:induction false} StartsWithIff(s: string, p: string)
    ensures StartsWith(s, p) <==> p <= s
  {
    if p <= s {
      assert OccursAt(s, p, 0);
    }
  }

  /** A name `swapper/…` must have a second '/'-token: `tokens[1]` is read unchecked. */
  predicate SwapperNameOk(name: string)
  {
    StartsWith(name, "swapper") ==> |Tokens(name, {'/'})| >= 2
  }

  /** `getSwapperTid`: the idle thread of core N is drawn on track -1-N. */
  function SwapperTid(name: string): int
    requires |Tokens(name, {'/'})| >= 2
  {
    Definition.CPU_CORE_BASE_NUMBER - Atoi(Tokens(name, {'/'})[1])
  }

  /** `getCoreId`: the number after the '/'. */
  function CoreId(str: string): int
    requires |Tokens(str, {'/'})| >= 2
  {
    Atoi(Tokens(str, {'/'})[1])
  }

  /** The tokens of "swapper/N". */
  lemma {:induction false} SwapperTokens(n: nat)
    ensures Tokens("swapper/" + NatToString(n), {'/'}) == ["swapper", NatToString(n)]
  {
    var ds := NatToString(n);
    DecimalOfNatToString(n);
    assert forall k :: 0 <= k < |ds| ==> ds[k] != '/' by {
      forall k | 0 <= k < |ds| ensures ds[k] != '/' {
        assert ds[k] in Digits;
      }
    }
    assert "swapper/" + ds == Join(["swapper", ds], '/');
    TokensOfJoin(["swapper", ds], '/', {'/'});
  }

  /** "swapper/N" is core N, on the idle-thread track -1-N. */
  lemma {:induction false} SwapperOfCore(n: nat)
    ensures StartsWith("swapper/" + NatToString(n), "swapper")
    ensures |Tokens("swapper/" + NatToString(n), {'/'})| >= 2
    ensures CoreId("swapper/" + NatToString(n)) == n
    ensures SwapperTid("swapper/" + NatToString(n)) == -1 - n
  {
    SwapperTokens(n);
    StartsWithIff("swapper/" + NatToString(n), "swapper");
    AtoiOfDecimal(n, "");
    assert NatToString(n) + "" == NatToString(n);
  }
}
