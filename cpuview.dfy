/**
 * The CPU view of the session report
 * (src/pmctl/performance-session-report/LttngParser.cpp: makeJsonCpuEvent,
 * calculateCpuUsage, setCpuUsageInfo, makeCpuUsageEvent) as a state machine
 * over values: the running-thread map, the per-core busy counters and the
 * end of the current sampling window. The parser's fields follow these
 * functions step by step.
 */
module CpuView {
  import opened Wrappers
  import opened Util
  import opened DataNode
  import opened TraceEvents
  import Json
  import Definition
  import LttngLines

  /** An entry of the running-thread map: the core a thread was switched in on, and when. */
  datatype CpuUsage = CpuUsage(id: int, ts: nat)

  /**
   * The running-thread map (`std::map<int, CpuUsage>`, keyed by tid) as a
   * list of entries with distinct tids.
   */
  type Running = seq<(int, CpuUsage)>

  /** The aggregator's state; `counts` has one busy counter (µs) per core. */
  datatype CpuState = CpuState(running: Running, counts: seq<nat>, targetTs: nat)

  /** At most one entry per tid, as in a `std::map`. */
  predicate DistinctTids(r: Running)
  {
    forall i, j :: 0 <= i < j < |r| ==> r[i].0 != r[j].0
  }

  /** `find(tid)`: the entry of `tid`, if it is running. */
  function Find(r: Running, tid: int): (o: Option<CpuUsage>)
    ensures o.Some? ==> (tid, o.value) in r
    ensures o.None? <==> forall i :: 0 <= i < |r| ==> r[i].0 != tid
  {
    if r == [] then None
    else if r[0].0 == tid then Some(r[0].1)
    else
      var o := Find(r[1..], tid);
      assert forall i :: 1 <= i < |r| ==> r[i] == r[1..][i - 1];
      o
  }

  /** `erase(tid)`. */
  function Erase(r: Running, tid: int): (e: Running)
    ensures forall x :: x in e ==> x in r && x.0 != tid
  {
    if r == [] then []
    else if r[0].0 == tid then Erase(r[1..], tid)
    else [r[0]] + Erase(r[1..], tid)
  }

  /** `insert(pair(tid, u))`: a tid already running keeps its entry. */
  function Put(r: Running, tid: int, u: CpuUsage): (p: Running)
    ensures forall x :: x in p ==> x in r || x == (tid, u)
  {
    if Find(r, tid).Some? then r else r + [(tid, u)]
  }

  lemma {:induction false} FindErase(r: Running, tid: int, k: int)
    ensures Find(Erase(r, tid), k) == if k == tid then None else Find(r, k)
    decreases |r|
  {
    if r != [] {
      FindErase(r[1..], tid, k);
      if r[0].0 != tid {
        assert ([r[0]] + Erase(r[1..], tid))[1..] == Erase(r[1..], tid);
      }
    }
  }

  lemma {:induction false} FindAppend(r: Running, tid: int, u: CpuUsage, k: int)
    ensures Find(r + [(tid, u)], k) == if Find(r, k).Some? then Find(r, k) else if k == tid then Some(u) else None
    decreases |r|
  {
    if r != [] {
      assert (r + [(tid, u)])[1..] == r[1..] + [(tid, u)];
      FindAppend(r[1..], tid, u, k);
    }
  }

  /** After an insert the tid is found with its first entry; no other tid changes. */
  lemma {:induction false} FindPut(r: Running, tid: int, u: CpuUsage, k: int)
    ensures Find(Put(r, tid, u), k) == if k == tid && Find(r, tid).None? then Some(u) else Find(r, k)
  {
    if Find(r, tid).None? {
      FindAppend(r, tid, u, k);
    }
  }

  lemma {:induction false} DistinctErase(r: Running, tid: int)
    requires DistinctTids(r)
    ensures DistinctTids(Erase(r, tid))
    decreases |r|
  {
    if r != [] {
      assert DistinctTids(r[1..]) by {
        assert forall i :: 0 <= i < |r| - 1 ==> r[1..][i] == r[i + 1];
      }
      DistinctErase(r[1..], tid);
      if r[0].0 != tid {
        var e := Erase(r[1..], tid);
        assert forall i :: 0 <= i < |e| ==> e[i] in r[1..];
        assert forall i :: 0 <= i < |e| ==> e[i].0 != r[0].0;
        var e' := [r[0]] + e;
        assert forall i :: 1 <= i < |e'| ==> e'[i] == e[i - 1];
      }
    }
  }

  lemma {:induction false} DistinctPut(r: Running, tid: int, u: CpuUsage)
    requires DistinctTids(r)
    ensures DistinctTids(Put(r, tid, u))
  {
  }

  /**
   * Every running thread is on a core that has a counter and was switched in
   * no later than `now`; the latter keeps the unsigned subtractions of the
   * source from wrapping.
   */
  predicate Consistent(s: CpuState, now: nat)
  {
    && DistinctTids(s.running)
    && forall i :: 0 <= i < |s.running| ==> 0 <= s.running[i].1.id < |s.counts| && s.running[i].1.ts <= now
  }

  function Zeros(n: nat): (r: seq<nat>)
    ensures |r| == n && forall i :: 0 <= i < n ==> r[i] == 0
  {
    seq(n, _ => 0)
  }

  /** `setCpuUsageInfo(ts)`: the window ends one period after `ts`, and every counter restarts. */
  function OpenWindow(s: CpuState, ts: nat, period: nat): (r: CpuState)
    ensures r.running == s.running && |r.counts| == |s.counts|
  {
    s.(counts := Zeros(|s.counts|), targetTs := ts + period)
  }

  /** A switched-out thread that is running is credited its time on its core and leaves the map. */
  function SwitchOut(s: CpuState, tid: int, ts: nat): (r: CpuState)
    requires Consistent(s, ts)
    ensures |r.counts| == |s.counts| && r.targetTs == s.targetTs
  {
    match Find(s.running, tid)
    case Some(u) => CpuState(Erase(s.running, tid), s.counts[u.id := s.counts[u.id] + (ts - u.ts)], s.targetTs)
    case None => s
  }

  /** `insert`: a switched-in thread starts on `cpu` at `ts`, unless it is already in the map. */
  function SwitchIn(s: CpuState, tid: int, cpu: int, ts: nat): (r: CpuState)
    ensures r.counts == s.counts && r.targetTs == s.targetTs
  {
    s.(running := Put(s.running, tid, CpuUsage(cpu, ts)))
  }

  lemma {:induction false} SwitchOutConsistent(s: CpuState, tid: int, ts: nat)
    requires Consistent(s, ts)
    ensures Consistent(SwitchOut(s, tid, ts), ts)
  {
    DistinctErase(s.running, tid);
    var r := SwitchOut(s, tid, ts);
    forall i | 0 <= i < |r.running| ensures 0 <= r.running[i].1.id < |r.counts| && r.running[i].1.ts <= ts {
      assert r.running[i] in s.running;
    }
  }

  lemma {:induction false} SwitchInConsistent(s: CpuState, tid: int, cpu: int, ts: nat)
    requires Consistent(s, ts) && 0 <= cpu < |s.counts|
    ensures Consistent(SwitchIn(s, tid, cpu, ts), ts)
  {
    DistinctPut(s.running, tid, CpuUsage(cpu, ts));
    var r := SwitchIn(s, tid, cpu, ts);
    forall i | 0 <= i < |r.running| ensures 0 <= r.running[i].1.id < |r.counts| && r.running[i].1.ts <= ts {
      assert r.running[i] in s.running || r.running[i] == (tid, CpuUsage(cpu, ts));
    }
  }

  // ---------------------------------------------------------------------
  // Window rollover
  // ---------------------------------------------------------------------

  /** The part of a running thread's time that belongs to core `c`. */
  function Share(u: CpuUsage, current: nat, c: int): nat
    requires u.ts <= current
  {
    if u.id == c then current - u.ts else 0
  }

  predicate StartedBy(r: Running, current: nat)
  {
    forall i :: 0 <= i < |r| ==> r[i].1.ts <= current
  }

  /** The time the threads of `r` have spent on core `c` up to `current`, summed in map order. */
  function Busy(r: Running, current: nat, c: int): nat
    requires StartedBy(r, current)
  {
    if r == [] then 0
    else Busy(r[..|r| - 1], current, c) + Share(r[|r| - 1].1, current, c)
  }

  /** Crediting one more running thread adds its share. */
  lemma {:induction false} BusyStep(r: Running, i: nat, current: nat, c: int)
    requires StartedBy(r, current) && i < |r|
    ensures Busy(r[..i + 1], current, c) == Busy(r[..i], current, c) + Share(r[i].1, current, c)
  {
    assert r[..i + 1][..i] == r[..i];
  }

  /** The counters after `calculateCpuUsage` has credited every running thread up to `current`. */
  function Credit(s: CpuState, current: nat): (r: seq<nat>)
    requires StartedBy(s.running, current)
    ensures |r| == |s.counts|
  {
    seq(|s.counts|, c requires 0 <= c < |s.counts| => s.counts[c] + Busy(s.running, current, c))
  }

  /** Every running thread restarts at `t`. */
  function Restart(r: Running, t: nat): (q: Running)
    ensures |q| == |r|
    ensures forall i :: 0 <= i < |r| ==> q[i] == (r[i].0, CpuUsage(r[i].1.id, t))
  {
    seq(|r|, i requires 0 <= i < |r| => (r[i].0, CpuUsage(r[i].1.id, t)))
  }

  /** `busy * 100.0 / period`, capped at 100. */
  function CoreValue(busy: nat, period: nat): (r: real)
    requires period > 0
    ensures 0.0 <= r <= 100.0
    ensures r == 100.0 <==> busy >= period
    ensures busy < period ==> r * (period as real) == (busy as real) * 100.0
  {
    var v := (busy as real) * 100.0 / (period as real);
    assert v * (period as real) == (busy as real) * 100.0;
    if v > 100.0 then 100.0 else v
  }

  /**
   * `total * 100.0 / period / coreNum`, capped at 100: over the reals,
   * dividing by the period and then by the core count is dividing by their
   * product.
   */
  function TotalValue(total: nat, period: nat, coreNum: nat): (r: real)
    requires period > 0 && coreNum > 0
    ensures 0.0 <= r <= 100.0
    ensures r == 100.0 <==> total >= period * coreNum
    ensures total < period * coreNum ==> r * ((period * coreNum) as real) == (total as real) * 100.0
  {
    CoreValue(total, period * coreNum)
  }

  /** The sum of the counters, as `temp += m_cpuUsageCount[i]` adds them. */
  function Sum(xs: seq<nat>): nat
  {
    if xs == [] then 0 else Sum(xs[..|xs| - 1]) + xs[|xs| - 1]
  }

  /** The per-core samples of the first `k` cores. */
  function CoreSamples(counts: seq<nat>, k: nat, period: nat, ts: nat): (r: seq<Event>)
    requires k <= |counts| && period > 0
    ensures |r| == k
  {
    seq(k, i requires 0 <= i < k => UsageEvent(i, |counts|, ts, CoreValue(counts[i], period)))
  }

  /** Summing and sampling one more core. */
  lemma {:induction false} SampleStep(counts: seq<nat>, k: nat, period: nat, ts: nat)
    requires k < |counts| && period > 0
    ensures Sum(counts[..k + 1]) == Sum(counts[..k]) + counts[k]
    ensures CoreSamples(counts, k + 1, period, ts) == CoreSamples(counts, k, period, ts) + [UsageEvent(k, |counts|, ts, CoreValue(counts[k], period))]
  {
    assert counts[..k + 1][..k] == counts[..k];
    SamplesSnoc(counts, k, period, ts);
  }

  /** The samples of the first k + 1 cores extend those of the first k. */
  lemma {:induction false} SamplesSnoc(counts: seq<nat>, k: nat, period: nat, ts: nat)
    requires k < |counts| && period > 0
    ensures CoreSamples(counts, k + 1, period, ts) == CoreSamples(counts, k, period, ts) + [UsageEvent(k, |counts|, ts, CoreValue(counts[k], period))]
  {
    var a := CoreSamples(counts, k + 1, period, ts);
    var b := CoreSamples(counts, k, period, ts) + [UsageEvent(k, |counts|, ts, CoreValue(counts[k], period))];
    assert |a| == |b|;
    forall i | 0 <= i < k + 1 ensures a[i] == b[i] {
      if i < k {
        assert b[i] == CoreSamples(counts, k, period, ts)[i];
      }
    }
  }

  /** The samples of one window: one per core, then the total on the track after the last core. */
  function Samples(counts: seq<nat>, period: nat, ts: nat): seq<Event>
    requires period > 0 && |counts| > 0
  {
    CoreSamples(counts, |counts|, period, ts) + [UsageEvent(|counts|, |counts|, ts, TotalValue(Sum(counts), period, |counts|))]
  }

  /**
   * `calculateCpuUsage(current)` then `setCpuUsageInfo(current)`: credit,
   * restart every running thread at the old window end, sample with the old
   * window end as timestamp, then open the next window.
   */
  function Rollover(s: CpuState, current: nat, period: nat): (CpuState, seq<Event>)
    requires StartedBy(s.running, current) && period > 0 && |s.counts| > 0
  {
    var credited := Credit(s, current);
    (CpuState(Restart(s.running, s.targetTs), Zeros(|s.counts|), current + period), Samples(credited, period, s.targetTs))
  }

  /**
   * A window yields one sample per core named "Core #i" on track i and a
   * "Total" sample on track coreNum, all stamped with the old window end;
   * core i shows its credited busy time against the period and the total
   * their sum against period × coreNum, each capped at 100.
   */
  lemma {:induction false} RolloverSamples(s: CpuState, current: nat, period: nat)
    requires StartedBy(s.running, current) && period > 0 && |s.counts| > 0
    ensures var evs := Rollover(s, current, period).1;
      var n := |s.counts|;
      && |evs| == n + 1
      && (forall i :: 0 <= i < n ==>
            && evs[i].name == "Core #" + Json.IntToString(i) && evs[i].tid == IdNum(i)
            && evs[i].args == Usage(CoreValue(Credit(s, current)[i], period)))
      && evs[n].name == "Total" && evs[n].tid == IdNum(n)
      && evs[n].args == Usage(TotalValue(Sum(Credit(s, current)), period, n))
      && (forall i :: 0 <= i <= n ==> (evs[i].ts == NatToString(s.targetTs) && evs[i].ph == "C"
            && evs[i].pid == IdNum(Definition.CPU_CORE_VIEW_ID)))
  {
  }

  /**
   * After a rollover every counter is zero, the window ends one period after
   * `current`, and each running thread is kept on its core but restarted at
   * the old window end; a consistent state stays consistent.
   */
  lemma {:induction false} RolloverState(s: CpuState, current: nat, period: nat)
    requires StartedBy(s.running, current) && period > 0 && |s.counts| > 0
    ensures var r := Rollover(s, current, period).0;
      && r.targetTs == current + period && r.counts == Zeros(|s.counts|)
      && |r.running| == |s.running|
      && (forall i :: 0 <= i < |r.running| ==>
            r.running[i].0 == s.running[i].0 && r.running[i].1 == CpuUsage(s.running[i].1.id, s.targetTs))
      && (forall k :: Find(r.running, k).Some? <==> Find(s.running, k).Some?)
      && (Consistent(s, current) && s.targetTs <= current ==> Consistent(r, current))
  {
    var r := Rollover(s, current, period).0;
    forall k ensures Find(r.running, k).Some? <==> Find(s.running, k).Some? {
      if Find(s.running, k).Some? {
        var i :| 0 <= i < |s.running| && s.running[i].0 == k;
        assert r.running[i].0 == k;
      }
      if Find(r.running, k).Some? {
        var i :| 0 <= i < |r.running| && r.running[i].0 == k;
        assert s.running[i].0 == k;
      }
    }
  }

  /** A thread alone in the map is credited exactly its running time on its core. */
  lemma {:induction false} CreditSingle(s: CpuState, current: nat, tid: int, u: CpuUsage)
    requires s.running == [(tid, u)] && u.ts <= current && 0 <= u.id < |s.counts|
    ensures Credit(s, current)[u.id] == s.counts[u.id] + (current - u.ts)
    ensures forall c :: 0 <= c < |s.counts| && c != u.id ==> Credit(s, current)[c] == s.counts[c]
  {
    assert s.running[..0] == [];
    forall c ensures Busy(s.running, current, c) == Share(u, current, c) {
      assert Busy(s.running[..0], current, c) == 0;
    }
  }

  /**
   * After a rollover at `current`, a thread that started at `u.ts` and ran
   * across the window end restarts at the old window end, so the stretch
   * from the window end to `current` is credited to both windows: switching
   * it out at `x` adds `x - targetTs` on top of the `current - u.ts`
   * already credited, which exceeds its time on the core by
   * `current - targetTs`.
   */
  lemma {:induction false} RolloverCountsOverlapTwice(s: CpuState, current: nat, period: nat, tid: int, u: CpuUsage, x: nat)
    requires period > 0 && 0 <= u.id < |s.counts| && s.running == [(tid, u)]
    requires u.ts <= s.targetTs <= current <= x
    ensures var r := Rollover(s, current, period).0;
      && Credit(s, current)[u.id] - s.counts[u.id] == current - u.ts
      && Consistent(r, x)
      && SwitchOut(r, tid, x).counts[u.id] == x - s.targetTs
      && (Credit(s, current)[u.id] - s.counts[u.id]) + SwitchOut(r, tid, x).counts[u.id]
         == (x - u.ts) + (current - s.targetTs)
  {
    CreditSingle(s, current, tid, u);
    RolloverState(s, current, period);
  }

  // ---------------------------------------------------------------------
  // One sched_switch event
  // ---------------------------------------------------------------------

  /** The process allow-list: with `-p` only the listed process names are drawn. */
  predicate Shown(enabledProcessOpt: bool, processOpt: seq<string>, name: string)
  {
    !enabledProcessOpt || name in processOpt
  }

  /** The E slice of the thread switched out, unless it is a swapper or filtered out. */
  function EndEvents(n: NodeValue, enabledProcessOpt: bool, processOpt: seq<string>): (r: seq<Event>)
    ensures |r| <= 1
  {
    var prev := n.processName;
    if !LttngLines.StartsWith(prev, "swapper") && Shown(enabledProcessOpt, processOpt, prev)
    then [CpuEvent(n, "E", prev, Atoi(n.threadId))] else []
  }

  /** The B slice of the thread switched in, unless it is a swapper or filtered out. */
  function BeginEvents(n: NodeValue, enabledProcessOpt: bool, processOpt: seq<string>): (r: seq<Event>)
    ensures |r| <= 1
  {
    var next := GetPayload(n, "next_comm");
    if !LttngLines.StartsWith(next, "swapper") && Shown(enabledProcessOpt, processOpt, next)
    then [CpuEvent(n, "B", next, Atoi(GetPayload(n, "next_tid")))] else []
  }

  /** The first sched_switch opens the first window. */
  function Opened(s: CpuState, n: NodeValue, period: nat): (r: CpuState)
    ensures r.running == s.running && |r.counts| == |s.counts|
  {
    if s.targetTs == 0 then OpenWindow(s, n.timeStampl, period) else s
  }

  /** The E half: the switched-out thread, unless it is a swapper. */
  function SwitchedOut(s: CpuState, n: NodeValue): (r: CpuState)
    requires Consistent(s, n.timeStampl)
    ensures |r.counts| == |s.counts| && r.targetTs == s.targetTs && Consistent(r, n.timeStampl)
  {
    SwitchOutConsistent(s, Atoi(n.threadId), n.timeStampl);
    if LttngLines.StartsWith(n.processName, "swapper") then s else SwitchOut(s, Atoi(n.threadId), n.timeStampl)
  }

  /** The B half: the switched-in thread, unless it is a swapper. */
  function SwitchedIn(s: CpuState, n: NodeValue): (r: CpuState)
    ensures r.counts == s.counts && r.targetTs == s.targetTs
  {
    if LttngLines.StartsWith(GetPayload(n, "next_comm"), "swapper") then s
    else SwitchIn(s, Atoi(GetPayload(n, "next_tid")), n.cpuIdi, n.timeStampl)
  }

  lemma {:induction false} SwitchedInStarted(s: CpuState, n: NodeValue)
    requires StartedBy(s.running, n.timeStampl)
    ensures StartedBy(SwitchedIn(s, n).running, n.timeStampl)
  {
    var r := SwitchedIn(s, n).running;
    forall i | 0 <= i < |r| ensures r[i].1.ts <= n.timeStampl {
      assert r[i] in s.running || r[i].1.ts == n.timeStampl;
    }
  }

  lemma {:induction false} SwitchedInConsistent(s: CpuState, n: NodeValue)
    requires Consistent(s, n.timeStampl) && 0 <= n.cpuIdi < |s.counts|
    ensures Consistent(SwitchedIn(s, n), n.timeStampl)
  {
    SwitchInConsistent(s, Atoi(GetPayload(n, "next_tid")), n.cpuIdi, n.timeStampl);
  }

  /**
   * `makeJsonCpuEvent`: the new state and the events written. Nodes of
   * another provider change nothing.
   */
  function CpuStep(s: CpuState, n: NodeValue, period: nat, enabledProcessOpt: bool, processOpt: seq<string>)
    : (CpuState, seq<Event>)
    requires Consistent(s, n.timeStampl) && period > 0 && |s.counts| > 0
  {
    if n.providerName != Definition.TRACE_KERNEL_SCHED_SWITCH then (s, [])
    else
      var s1 := SwitchedOut(Opened(s, n, period), n);
      var s2 := SwitchedIn(s1, n);
      SwitchedInStarted(s1, n);
      var evs := EndEvents(n, enabledProcessOpt, processOpt) + BeginEvents(n, enabledProcessOpt, processOpt);
      if s2.targetTs <= n.timeStampl then
        var (s3, samples) := Rollover(s2, n.timeStampl, period);
        (s3, evs + samples)
      else (s2, evs)
  }

  /**
   * The aggregator's invariant survives every node: a node at or after the
   * latest switch whose cpu has a counter leaves the state consistent at its
   * own timestamp, with the same number of counters, and after a
   * sched_switch the current window ends after the node.
   */
  lemma {:induction false} CpuStepConsistent(s: CpuState, n: NodeValue, period: nat, enabledProcessOpt: bool,
                                             processOpt: seq<string>, last: nat)
    requires Consistent(s, last) && last <= n.timeStampl && period > 0 && |s.counts| > 0
    requires 0 <= n.cpuIdi < |s.counts|
    ensures Consistent(s, n.timeStampl)
    ensures var r := CpuStep(s, n, period, enabledProcessOpt, processOpt).0;
      && Consistent(r, n.timeStampl) && |r.counts| == |s.counts|
      && (n.providerName == Definition.TRACE_KERNEL_SCHED_SWITCH && s.targetTs > 0 ==> r.targetTs > n.timeStampl)
  {
    assert Consistent(s, n.timeStampl);
    if n.providerName == Definition.TRACE_KERNEL_SCHED_SWITCH {
      var s1 := SwitchedOut(Opened(s, n, period), n);
      SwitchedInConsistent(s1, n);
      var s2 := SwitchedIn(s1, n);
      if s2.targetTs <= n.timeStampl {
        RolloverState(s2, n.timeStampl, period);
      }
    }
  }

  /**
   * The E half: a non-swapper thread found in the map is credited
   * `ts - start` on the core it was switched in on and leaves the map;
   * every other counter and every other thread is untouched.
   */
  lemma {:induction false} SwitchOutCredits(s: CpuState, n: NodeValue)
    requires Consistent(s, n.timeStampl)
    requires !LttngLines.StartsWith(n.processName, "swapper")
    ensures var tid := Atoi(n.threadId);
      var r := SwitchedOut(s, n);
      && Find(r.running, tid).None?
      && (forall k :: k != tid ==> Find(r.running, k) == Find(s.running, k))
      && (match Find(s.running, tid)
          case Some(u) =>
            && r.counts[u.id] == s.counts[u.id] + (n.timeStampl - u.ts)
            && forall c :: 0 <= c < |s.counts| && c != u.id ==> r.counts[c] == s.counts[c]
          case None => r == s)
  {
    var tid := Atoi(n.threadId);
    forall k ensures Find(SwitchedOut(s, n).running, k) == if k == tid && Find(s.running, tid).Some? then None else Find(s.running, k) {
      FindErase(s.running, tid, k);
    }
  }

  /** The B half: a non-swapper incoming thread is recorded on the node's cpu at the node's time, unless already running. */
  lemma {:induction false} SwitchInRecords(s: CpuState, n: NodeValue)
    requires !LttngLines.StartsWith(GetPayload(n, "next_comm"), "swapper")
    ensures var tid := Atoi(GetPayload(n, "next_tid"));
      var r := SwitchedIn(s, n);
      && r.counts == s.counts
      && Find(r.running, tid) == Some(match Find(s.running, tid) case Some(u) => u case None => CpuUsage(n.cpuIdi, n.timeStampl))
      && forall k :: k != tid ==> Find(r.running, k) == Find(s.running, k)
  {
    var tid := Atoi(GetPayload(n, "next_tid"));
    forall k ensures Find(SwitchedIn(s, n).running, k) == if k == tid && Find(s.running, tid).None? then Some(CpuUsage(n.cpuIdi, n.timeStampl)) else Find(s.running, k) {
      FindPut(s.running, tid, CpuUsage(n.cpuIdi, n.timeStampl), k);
    }
  }

  /** Swapper threads on both sides touch neither the map nor the counters, and no slice is drawn for them. */
  lemma {:induction false} SwapperUntouched(s: CpuState, n: NodeValue, enabledProcessOpt: bool, processOpt: seq<string>)
    requires Consistent(s, n.timeStampl)
    requires LttngLines.StartsWith(n.processName, "swapper")
    requires LttngLines.StartsWith(GetPayload(n, "next_comm"), "swapper")
    ensures SwitchedIn(SwitchedOut(s, n), n) == s
    ensures EndEvents(n, enabledProcessOpt, processOpt) == [] && BeginEvents(n, enabledProcessOpt, processOpt) == []
  {
  }

  /**
   * Only sched_switch nodes drive the view; a drawn slice is on the CPU
   * process track, with the switched-out thread's tid (E) or the payload's
   * next_tid (B), and only for names the allow-list admits; the first
   * sched_switch opens a window one period after it.
   */
  lemma {:induction false} CpuStepEvents(s: CpuState, n: NodeValue, period: nat, enabledProcessOpt: bool, processOpt: seq<string>)
    requires Consistent(s, n.timeStampl) && period > 0 && |s.counts| > 0
    ensures n.providerName != Definition.TRACE_KERNEL_SCHED_SWITCH ==>
      CpuStep(s, n, period, enabledProcessOpt, processOpt) == (s, [])
    ensures s.targetTs == 0 ==> Opened(s, n, period).targetTs == n.timeStampl + period
    ensures forall e :: e in EndEvents(n, enabledProcessOpt, processOpt) ==>
      && e.ph == "E" && e.pid == IdNum(Definition.CPU_PROCESS_VIEW_ID) && e.tid == IdNum(Atoi(n.threadId))
      && e.name == n.processName && Shown(enabledProcessOpt, processOpt, n.processName)
    ensures forall e :: e in BeginEvents(n, enabledProcessOpt, processOpt) ==>
      && e.ph == "B" && e.pid == IdNum(Definition.CPU_PROCESS_VIEW_ID) && e.tid == IdNum(Atoi(GetPayload(n, "next_tid")))
      && e.name == GetPayload(n, "next_comm") && Shown(enabledProcessOpt, processOpt, GetPayload(n, "next_comm"))
  {
  }
}
