/**
 * The metadata tracker of the session report (`makeMetaMap` in
 * src/pmctl/performance-session-report/LttngParser.cpp): three int-keyed
 * maps recording each process name, each thread name and each thread's
 * process, which the trace's metadata records are written from.
 */
module MetaMap {
  import opened Util
  import LttngLines

  /** pid -> process name, tid -> name, tid -> pid. */
  datatype Meta = Meta(pids: map<int, string>, tids: map<int, string>, tidPids: map<int, int>)

  const NoMeta: Meta := Meta(map[], map[], map[])

  /** Every thread with a recorded process also has a recorded name. */
  predicate Covered(m: Meta)
  {
    m.tidPids.Keys <= m.tids.Keys
  }

  /**
   * `makeMetaMap(procname, pid, tid)` as written. A `swapper/N` name only
   * names track -1-N. Otherwise each map gets an insert followed by an
   * overwrite when the key was present with another value; the overwrite of
   * tid -> pid is guarded by the result of the tid -> name insert, so it
   * happens only when the tid already had a name.
   */
  function MetaStep(m: Meta, procname: string, pid: string, tid: string): (r: Meta)
    requires LttngLines.SwapperNameOk(procname)
  {
    if LttngLines.StartsWith(procname, "swapper") then
      m.(tids := m.tids[LttngLines.SwapperTid(procname) := procname])
    else
      var p, t := Atoi(pid), Atoi(tid);
      var tidPids := if t !in m.tidPids || t in m.tids then m.tidPids[t := p] else m.tidPids;
      Meta(m.pids[p := procname], m.tids[t := procname], tidPids)
  }

  /** The tracker keeps its maps covered. */
  lemma {:induction false} MetaStepCovered(m: Meta, procname: string, pid: string, tid: string)
    requires LttngLines.SwapperNameOk(procname) && Covered(m)
    ensures Covered(MetaStep(m, procname, pid, tid))
  {
  }

  /**
   * On covered maps the last write wins in all three maps: after a
   * non-swapper event the maps hold its name, name and pid, and every other
   * key keeps its value.
   */
  lemma {:induction false} MetaLastWins(m: Meta, procname: string, pid: string, tid: string)
    requires Covered(m) && !LttngLines.StartsWith(procname, "swapper")
    ensures var r := MetaStep(m, procname, pid, tid);
      && r.pids == m.pids[Atoi(pid) := procname]
      && r.tids == m.tids[Atoi(tid) := procname]
      && r.tidPids == m.tidPids[Atoi(tid) := Atoi(pid)]
  {
  }

  /** A swapper only names the idle track of its core and leaves the process maps alone. */
  lemma {:induction false} MetaSwapper(m: Meta, n: nat)
    ensures LttngLines.SwapperNameOk("swapper/" + NatToString(n))
    ensures var r := MetaStep(m, "swapper/" + NatToString(n), "", "");
      && r.pids == m.pids && r.tidPids == m.tidPids
      && r.tids == m.tids[-1 - n := "swapper/" + NatToString(n)]
  {
    LttngLines.SwapperOfCore(n);
  }

  /**
   * The last-write-wins rule rests on the maps being covered: a thread whose
   * process is recorded but whose name is not keeps its old process.
   */
  lemma {:induction false} MetaNeedsCover(m: Meta, procname: string, pid: string, tid: string)
    requires !LttngLines.StartsWith(procname, "swapper")
    requires Atoi(tid) in m.tidPids && Atoi(tid) !in m.tids
    ensures !Covered(m)
    ensures MetaStep(m, procname, pid, tid).tidPids == m.tidPids
  {
  }
}
