/**
 * The bookkeeping half of the memory profiler script
 * (files/scripts/mem_profile.py): the snapshot file name written by
 * `capture_snapshot` and parsed back by `get_info_from_path`, the merge of
 * the loaded APS results into one nested map per test case
 * (`merge_results`), and the value `generate_perfmeta_json` reports per test
 * case.
 *
 * The nested dictionaries of one test case are kept as one map from the key
 * path of an innermost map (`["System", "Memory"]`,
 * `["Process", name, "Memory"]`) to that map; every level above an innermost
 * map is a dictionary whose only purpose is to hold the next level, so the
 * paths carry the same information.
 */
module MemProfile {
  import opened Wrappers
  import opened PyPath
  import Util

  const SNAPSHOT_EXT: string := ".tar.gz"

  /** The extensions a snapshot may carry, in the order they are tried. */
  const SNAPSHOT_EXTS: seq<string> := [SNAPSHOT_EXT, ".tgz", ".tar", ".gz"]

  const APS_UNIT: string := "APS_Unit"
  const APS_SYSTEM: string := "APS_SystemMemory"
  const APS_ALL: string := "APS_AllProcesses"
  const SYSTEM_PATH: seq<string> := ["System", "Memory"]

  // ---------------------------------------------------------------------
  // remove_ext
  // ---------------------------------------------------------------------

  /** Python's `path[:-len(ext)]`: a zero length slices down to the empty string. */
  function DropSuffix(path: string, ext: string): string
    requires EndsWith(path, ext)
  {
    if ext == "" then "" else path[..|path| - |ext|]
  }

  /** `remove_ext(path, exts)`: the first extension in list order that ends the path is cut off. */
  function RemoveExt(path: string, exts: seq<string>): string
    decreases |exts|
  {
    if exts == [] then path
    else if EndsWith(path, exts[0]) then DropSuffix(path, exts[0])
    else RemoveExt(path, exts[1..])
  }

  /** The index of the first extension that ends `path`, or `|exts|`. */
  function FirstSuffix(path: string, exts: seq<string>): (k: nat)
    ensures k <= |exts|
    ensures forall j :: 0 <= j < k ==> !EndsWith(path, exts[j])
    ensures k < |exts| ==> EndsWith(path, exts[k])
    decreases |exts|
  {
    if exts == [] then 0
    else if EndsWith(path, exts[0]) then 0
    else
      var k := FirstSuffix(path, exts[1..]);
      assert forall j :: 1 <= j < |exts| ==> exts[j] == exts[1..][j - 1];
      1 + k
  }

  /**
   * Only the first matching extension is removed, and putting it back gives
   * the path; with no match the path is returned unchanged.
   */
  lemma {:induction false} RemoveExtFirst(path: string, exts: seq<string>)
    ensures var k := FirstSuffix(path, exts);
      (k == |exts| ==> RemoveExt(path, exts) == path) &&
      (k < |exts| ==> RemoveExt(path, exts) == DropSuffix(path, exts[k])) &&
      (k < |exts| && exts[k] != "" ==> RemoveExt(path, exts) + exts[k] == path)
    decreases |exts|
  {
    if exts != [] {
      if EndsWith(path, exts[0]) {
        if exts[0] != "" {
          assert path[..|path| - |exts[0]|] + path[|path| - |exts[0]|..] == path;
        }
      } else {
        RemoveExtFirst(path, exts[1..]);
      }
    }
  }

  /** The loop of `remove_ext`, with its `break` on the first match. */
  method RemoveExtension(path: string, exts: seq<string>) returns (r: string)
    ensures r == RemoveExt(path, exts)
  {
    var i := 0;
    while i < |exts|
      invariant 0 <= i <= |exts|
      invariant RemoveExt(path, exts) == RemoveExt(path, exts[i..])
    {
      assert exts[i..][1..] == exts[i + 1..];
      if EndsWith(path, exts[i]) {
        if |exts[i]| == 0 {
          r := "";
        } else {
          r := path[..|path| - |exts[i]|];
        }
        return;
      }
      i := i + 1;
    }
    r := path;
  }

  // ---------------------------------------------------------------------
  // str.split
  // ---------------------------------------------------------------------

  /** Python's `s.split(c)` for a one-character separator: empty parts are kept. */
  function SplitOn(s: string, c: char): (r: seq<string>)
    ensures |r| >= 1
    decreases |s|
  {
    if s == [] then [""]
    else
      var rest := SplitOn(s[1..], c);
      if s[0] == c then [""] + rest else [[s[0]] + rest[0]] + rest[1..]
  }

  function CountOf(s: string, c: char): nat
    decreases |s|
  {
    if s == [] then 0 else (if s[0] == c then 1 else 0) + CountOf(s[1..], c)
  }

  /** Splitting yields one part more than there are separators. */
  lemma {:induction false} SplitOnParts(s: string, c: char)
    ensures |SplitOn(s, c)| == CountOf(s, c) + 1
    decreases |s|
  {
    if s != [] {
      SplitOnParts(s[1..], c);
    }
  }

  /** Two separator-free words joined by one separator split back into those two words. */
  lemma {:induction false} SplitOnPair(a: string, b: string, c: char)
    requires NoChar(a, c) && NoChar(b, c)
    ensures SplitOn(a + [c] + b, c) == [a, b]
    decreases |a|
  {
    var s := a + [c] + b;
    if a == [] {
      assert s[1..] == b;
      SplitOnNone(b, c);
    } else {
      assert s[1..] == a[1..] + [c] + b;
      SplitOnPair(a[1..], b, c);
      assert [a[0]] + a[1..] == a;
    }
  }

  lemma {:induction false} SplitOnNone(s: string, c: char)
    requires NoChar(s, c)
    ensures SplitOn(s, c) == [s]
    decreases |s|
  {
    if s != [] {
      SplitOnNone(s[1..], c);
      assert [s[0]] + s[1..] == s;
    }
  }

  // ---------------------------------------------------------------------
  // get_info_from_path and the capture file name
  // ---------------------------------------------------------------------

  /** What a snapshot path says about its snapshot. */
  datatype SnapshotInfo = SnapshotInfo(testCase: string, timestamp: string, scenario: string)

  /** The file name without its snapshot extension. */
  function SnapshotStem(path: string): string
  {
    RemoveExt(PathSplit(path).1, SNAPSHOT_EXTS)
  }

  /**
   * `get_info_from_path`: the parent directory names the test case and the
   * file name splits into timestamp and scenario; the unpacking of the split
   * raises unless it has exactly two parts, which is `None` here.
   */
  function InfoFromPath(path: string): Option<SnapshotInfo>
  {
    var (rest, f) := PathSplit(path);
    var parts := SplitOn(RemoveExt(f, SNAPSHOT_EXTS), '_');
    if |parts| == 2 then Some(SnapshotInfo(PathSplit(rest).1, parts[0], parts[1])) else None
  }

  /** The parse succeeds exactly when the stem holds one underscore. */
  lemma {:induction false} InfoFromPathDefined(path: string)
    ensures InfoFromPath(path).Some? <==> CountOf(SnapshotStem(path), '_') == 1
  {
    SplitOnParts(SnapshotStem(path), '_');
  }

  /** `capture_snapshot`'s destination: `<base>/<test case>/<ts>_<scenario>.tar.gz`. */
  function CapturePath(base: string, testCase: string, ts: string, scenario: string): string
  {
    PathJoin(PathJoin(base, testCase), ts + "_" + scenario + SNAPSHOT_EXT)
  }

  /** A captured snapshot's path parses back to the test case, timestamp and scenario. */
  lemma {:induction false} CaptureRoundTrip(base: string, testCase: string, ts: string, scenario: string)
    requires testCase != "" && NoChar(testCase, '/')
    requires NoChar(ts, '/') && NoChar(ts, '_') && NoChar(scenario, '/') && NoChar(scenario, '_')
    ensures InfoFromPath(CapturePath(base, testCase, ts, scenario)) == Some(SnapshotInfo(testCase, ts, scenario))
  {
    var dir := PathJoin(base, testCase);
    var f := ts + "_" + scenario + SNAPSHOT_EXT;
    CaptureFileName(ts, scenario);
    assert dir[|dir| - 1] == testCase[|testCase| - 1];
    SplitOfJoin(dir, f);
    SplitOfJoin(base, testCase);
  }

  /** The captured file name is slash-free and its stem splits into timestamp and scenario. */
  lemma {:induction false} CaptureFileName(ts: string, scenario: string)
    requires NoChar(ts, '/') && NoChar(ts, '_') && NoChar(scenario, '/') && NoChar(scenario, '_')
    ensures NoChar(ts + "_" + scenario + SNAPSHOT_EXT, '/')
    ensures RemoveExt(ts + "_" + scenario + SNAPSHOT_EXT, SNAPSHOT_EXTS) == ts + "_" + scenario
    ensures SplitOn(ts + "_" + scenario, '_') == [ts, scenario]
  {
    var stem := ts + "_" + scenario;
    var f := stem + SNAPSHOT_EXT;
    forall j | 0 <= j < |f|
      ensures f[j] != '/'
    {
      if j < |ts| { assert f[j] == ts[j]; }
      else if j == |ts| { assert f[j] == '_'; }
      else if j < |stem| { assert f[j] == scenario[j - |ts| - 1]; }
      else { assert f[j] == SNAPSHOT_EXT[j - |stem|]; }
    }
    assert f[|f| - |SNAPSHOT_EXT|..] == SNAPSHOT_EXT;
    assert f[..|f| - |SNAPSHOT_EXT|] == stem;
    SplitOnPair(ts, scenario, '_');
    assert stem == ts + ['_'] + scenario;
  }

  // ---------------------------------------------------------------------
  // merge_results
  // ---------------------------------------------------------------------

  /** One value of an APS file's top-level object: the unit name or a table of numbers. */
  datatype ApsValue = UnitName(name: string) | Table(rows: seq<(string, int)>)

  /** One loaded APS file: its snapshot's info and its entries in iteration order. */
  datatype ApsFile = ApsFile(info: SnapshotInfo, entries: seq<(string, ApsValue)>)

  /** A leaf of the merged map: the unit and the values collected so far. */
  datatype Series = Series(unit: string, values: seq<int>)

  /** One `{'Name': scenario, 'TS': ts}` record. */
  datatype Scenario = Scenario(name: string, ts: string)

  /** One test case's merged map: its scenario list and its innermost maps by key path. */
  datatype TcMap = TcMap(scenarios: seq<Scenario>, inner: map<seq<string>, map<string, Series>>)

  predicate DistinctKeys<V>(kvs: seq<(string, V)>)
  {
    forall i, j :: 0 <= i < j < |kvs| ==> kvs[i].0 != kvs[j].0
  }

  /**
   * What loading a JSON object guarantees and the merge relies on: keys are
   * distinct, `APS_Unit` (if present) is a string and every other entry is
   * an object of numbers.
   */
  predicate WellFormed(entries: seq<(string, ApsValue)>)
  {
    DistinctKeys(entries) &&
    forall i :: 0 <= i < |entries| ==>
      if entries[i].0 == APS_UNIT then entries[i].1.UnitName?
      else entries[i].1.Table? && DistinctKeys(entries[i].1.rows)
  }

  /** The value of the last entry under `k`; with distinct keys, the only one. */
  function Lookup<V>(kvs: seq<(string, V)>, k: string): (r: Option<V>)
    ensures r.Some? <==> exists i :: 0 <= i < |kvs| && kvs[i].0 == k
    decreases |kvs|
  {
    if kvs == [] then None
    else
      var n := |kvs| - 1;
      if kvs[n].0 == k then Some(kvs[n].1)
      else
        var r := Lookup(kvs[..n], k);
        assert forall i :: 0 <= i < n ==> kvs[..n][i] == kvs[i];
        r
  }

  function UpperChar(c: char): char
  {
    if 'a' <= c <= 'z' then (c as int - 32) as char else c
  }

  /** `str.upper()` on ASCII letters. */
  function Upper(s: string): (r: string)
    ensures |r| == |s|
  {
    seq(|s|, i requires 0 <= i < |s| => UpperChar(s[i]))
  }

  /** `submap.get('APS_Unit', 'KB').upper()`. */
  function UnitOf(entries: seq<(string, ApsValue)>): string
  {
    var u := Lookup(entries, APS_UNIT);
    if u.Some? && u.value.UnitName? then Upper(u.value.name) else "KB"
  }

  /**
   * Where a top-level APS key's numbers go: nowhere for the unit, the
   * system map, the all-processes map, or the map of the process it names.
   */
  function Placement(k1: string): (p: Option<seq<string>>)
    ensures p.None? <==> k1 == APS_UNIT
    ensures p == Some(SYSTEM_PATH) <==> k1 == APS_SYSTEM
    ensures p.Some? && k1 != APS_SYSTEM ==> |p.value| == 3 && p.value[0] == "Process" && p.value[2] == "Memory"
  {
    if k1 == APS_UNIT then None
    else if k1 == APS_SYSTEM then Some(SYSTEM_PATH)
    else if k1 == APS_ALL then Some(["Process", "AllProcesses", "Memory"])
    else Some(["Process", k1, "Memory"])
  }

  /**
   * Two different keys share a map only when one is `APS_AllProcesses` and
   * the other a process named `AllProcesses`.
   */
  lemma {:induction false} PlacementShared(a: string, b: string)
    requires a != b && Placement(a).Some? && Placement(a) == Placement(b)
    ensures {a, b} == {APS_ALL, "AllProcesses"}
  {
  }

  /** One `k2` of a table: a new series starts with this file's unit, an old one keeps its own. */
  function AddRow(inner: map<string, Series>, k2: string, v: int, unit: string): map<string, Series>
  {
    inner[k2 := if k2 in inner then inner[k2].(values := inner[k2].values + [v]) else Series(unit, [v])]
  }

  /** All rows of a table, in order. */
  function AddRows(inner: map<string, Series>, rows: seq<(string, int)>, unit: string): map<string, Series>
    decreases |rows|
  {
    if rows == [] then inner
    else
      var n := |rows| - 1;
      AddRow(AddRows(inner, rows[..n], unit), rows[n].0, rows[n].1, unit)
  }

  function ValuesIn(inner: map<string, Series>, k2: string): seq<int>
  {
    if k2 in inner then inner[k2].values else []
  }

  function OptSeq(o: Option<int>): seq<int>
  {
    if o.Some? then [o.value] else []
  }

  lemma {:induction false} DistinctPrefix<V>(kvs: seq<(string, V)>, n: nat)
    requires DistinctKeys(kvs) && n <= |kvs|
    ensures DistinctKeys(kvs[..n])
  {
    forall i, j | 0 <= i < j < n
      ensures kvs[..n][i].0 != kvs[..n][j].0
    {
      assert kvs[..n][i] == kvs[i] && kvs[..n][j] == kvs[j];
    }
  }

  /** With distinct keys, the last key does not occur before it. */
  lemma {:induction false} LastKeyFresh<V>(kvs: seq<(string, V)>)
    requires DistinctKeys(kvs) && kvs != []
    ensures Lookup(kvs[..|kvs| - 1], kvs[|kvs| - 1].0).None?
  {
    var n := |kvs| - 1;
    forall i | 0 <= i < n
      ensures kvs[..n][i].0 != kvs[n].0
    {
      assert kvs[..n][i] == kvs[i];
    }
  }

  /** Merging a table appends its value under each key to that key's series and to no other. */
  lemma {:induction false} AddRowsValues(inner: map<string, Series>, rows: seq<(string, int)>, unit: string, k2: string)
    requires DistinctKeys(rows)
    ensures ValuesIn(AddRows(inner, rows, unit), k2) == ValuesIn(inner, k2) + OptSeq(Lookup(rows, k2))
    decreases |rows|
  {
    if rows != [] {
      var n := |rows| - 1;
      DistinctPrefix(rows, n);
      AddRowsValues(inner, rows[..n], unit, k2);
      if rows[n].0 == k2 {
        LastKeyFresh(rows);
      }
    }
  }

  /**
   * A table's keys are added to the map, and a series' unit is the one it
   * was created with: an existing series keeps its own, a new one takes
   * this file's.
   */
  lemma {:induction false} AddRowsUnit(inner: map<string, Series>, rows: seq<(string, int)>, unit: string, k2: string)
    ensures k2 in AddRows(inner, rows, unit) <==> k2 in inner || Lookup(rows, k2).Some?
    ensures k2 in inner ==> AddRows(inner, rows, unit)[k2].unit == inner[k2].unit
    ensures k2 !in inner && Lookup(rows, k2).Some? ==> AddRows(inner, rows, unit)[k2].unit == unit
    decreases |rows|
  {
    if rows != [] {
      var n := |rows| - 1;
      AddRowsUnit(inner, rows[..n], unit, k2);
    }
  }

  /** The rows loop of `merge_results` over one table. */
  method AddRowsLoop(inner: map<string, Series>, rows: seq<(string, int)>, unit: string) returns (r: map<string, Series>)
    ensures r == AddRows(inner, rows, unit)
  {
    r := inner;
    var i := 0;
    while i < |rows|
      invariant 0 <= i <= |rows|
      invariant r == AddRows(inner, rows[..i], unit)
    {
      assert rows[..i + 1][..i] == rows[..i];
      var (k2, v) := rows[i];
      if k2 in r {
        r := r[k2 := r[k2].(values := r[k2].values + [v])];
      } else {
        r := r[k2 := Series(unit, [v])];
      }
      i := i + 1;
    }
    assert rows[..i] == rows;
  }

  function InnerAt(t: TcMap, path: seq<string>): map<string, Series>
  {
    if path in t.inner then t.inner[path] else map[]
  }

  /** One top-level entry: the innermost map it goes to is created if missing, then filled. */
  function PlaceEntry(t: TcMap, k1: string, v: ApsValue, unit: string): TcMap
  {
    match Placement(k1)
    case None => t
    case Some(path) =>
      if v.Table? then t.(inner := t.inner[path := AddRows(InnerAt(t, path), v.rows, unit)]) else t
  }

  function PlaceEntries(t: TcMap, entries: seq<(string, ApsValue)>, unit: string): TcMap
    decreases |entries|
  {
    if entries == [] then t
    else
      var n := |entries| - 1;
      PlaceEntry(PlaceEntries(t, entries[..n], unit), entries[n].0, entries[n].1, unit)
  }

  /** The values under `path`/`k2` of one test case's map. */
  function ValuesAt(t: TcMap, path: seq<string>, k2: string): seq<int>
  {
    ValuesIn(InnerAt(t, path), k2)
  }

  /** The values the entries contribute under `path`/`k2`, in order. */
  function EntriesValues(entries: seq<(string, ApsValue)>, path: seq<string>, k2: string): seq<int>
    decreases |entries|
  {
    if entries == [] then []
    else
      var n := |entries| - 1;
      var (k1, v) := entries[n];
      EntriesValues(entries[..n], path, k2) +
        (if Placement(k1) == Some(path) && v.Table? then OptSeq(Lookup(v.rows, k2)) else [])
  }

  lemma {:induction false} PlaceEntryValues(t: TcMap, k1: string, v: ApsValue, unit: string, path: seq<string>, k2: string)
    requires v.Table? ==> DistinctKeys(v.rows)
    ensures ValuesAt(PlaceEntry(t, k1, v, unit), path, k2) ==
      ValuesAt(t, path, k2) + (if Placement(k1) == Some(path) && v.Table? then OptSeq(Lookup(v.rows, k2)) else [])
    ensures PlaceEntry(t, k1, v, unit).scenarios == t.scenarios
  {
    if Placement(k1) == Some(path) && v.Table? {
      AddRowsValues(InnerAt(t, path), v.rows, unit, k2);
    }
  }

  lemma {:induction false} PlaceEntriesValues(t: TcMap, entries: seq<(string, ApsValue)>, unit: string, path: seq<string>, k2: string)
    requires WellFormed(entries)
    ensures ValuesAt(PlaceEntries(t, entries, unit), path, k2) == ValuesAt(t, path, k2) + EntriesValues(entries, path, k2)
    ensures PlaceEntries(t, entries, unit).scenarios == t.scenarios
    decreases |entries|
  {
    if entries != [] {
      var n := |entries| - 1;
      var init := entries[..n];
      assert forall i :: 0 <= i < n ==> init[i] == entries[i];
      assert WellFormed(init);
      PlaceEntriesValues(t, init, unit, path, k2);
      var t' := PlaceEntries(t, init, unit);
      var (k1, v) := entries[n];
      PlaceEntryValues(t', k1, v, unit, path, k2);
      var last := if Placement(k1) == Some(path) && v.Table? then OptSeq(Lookup(v.rows, k2)) else [];
      assert EntriesValues(entries, path, k2) == EntriesValues(init, path, k2) + last;
      Util.AppendAssoc(ValuesAt(t, path, k2), EntriesValues(init, path, k2), last);
    }
  }

  /** One element of the APS list merged into the ordered test-case map. */
  function MergeFile(order: seq<string>, tcs: map<string, TcMap>, f: ApsFile): (seq<string>, map<string, TcMap>)
  {
    var tc := f.info.testCase;
    var t := if tc in tcs then tcs[tc] else TcMap([], map[]);
    var t1 := t.(scenarios := t.scenarios + [Scenario(f.info.scenario, f.info.timestamp)]);
    (if tc in tcs then order else order + [tc], tcs[tc := PlaceEntries(t1, f.entries, UnitOf(f.entries))])
  }

  function MergeAll(order: seq<string>, tcs: map<string, TcMap>, files: seq<ApsFile>): (seq<string>, map<string, TcMap>)
    decreases |files|
  {
    if files == [] then (order, tcs)
    else
      var n := |files| - 1;
      var r := MergeAll(order, tcs, files[..n]);
      MergeFile(r.0, r.1, files[n])
  }

  /** The ordered dictionary's invariant: its key order lists each key once. */
  ghost predicate KeysInOrder(order: seq<string>, tcs: map<string, TcMap>)
  {
    (forall i, j :: 0 <= i < j < |order| ==> order[i] != order[j]) &&
    (forall c :: c in tcs <==> c in order)
  }

  /** Merging keeps the key order listing each test case once; a new test case goes last. */
  lemma {:induction false} MergeFileKeys(order: seq<string>, tcs: map<string, TcMap>, f: ApsFile)
    requires KeysInOrder(order, tcs)
    ensures KeysInOrder(MergeFile(order, tcs, f).0, MergeFile(order, tcs, f).1)
    ensures MergeFile(order, tcs, f).0 == if f.info.testCase in tcs then order else order + [f.info.testCase]
  {
  }

  /**
   * A merged element adds its scenario record to its own test case and
   * leaves every other test case alone.
   */
  lemma {:induction false} MergeFileShape(order: seq<string>, tcs: map<string, TcMap>, f: ApsFile)
    requires WellFormed(f.entries)
    ensures var m := MergeFile(order, tcs, f).1;
      var tc := f.info.testCase;
      tc in m &&
      m[tc].scenarios == (if tc in tcs then tcs[tc].scenarios else []) + [Scenario(f.info.scenario, f.info.timestamp)] &&
      (forall c :: c in tcs && c != tc ==> c in m && m[c] == tcs[c])
  {
    var tc := f.info.testCase;
    var t := if tc in tcs then tcs[tc] else TcMap([], map[]);
    PlaceEntriesValues(t.(scenarios := t.scenarios + [Scenario(f.info.scenario, f.info.timestamp)]),
      f.entries, UnitOf(f.entries), SYSTEM_PATH, "");
  }

  /** The values the elements of one test case contribute under `path`/`k2`, in list order. */
  function Collected(files: seq<ApsFile>, tc: string, path: seq<string>, k2: string): seq<int>
    decreases |files|
  {
    if files == [] then []
    else
      var n := |files| - 1;
      Collected(files[..n], tc, path, k2) +
        (if files[n].info.testCase == tc then EntriesValues(files[n].entries, path, k2) else [])
  }

  function TcValues(tcs: map<string, TcMap>, tc: string, path: seq<string>, k2: string): seq<int>
  {
    if tc in tcs then ValuesAt(tcs[tc], path, k2) else []
  }

  predicate AllWellFormed(files: seq<ApsFile>)
  {
    forall i :: 0 <= i < |files| ==> WellFormed(files[i].entries)
  }

  /**
   * After merging, every series holds what it held before followed by the
   * values each element of its test case placed there, in list order.
   */
  lemma {:induction false} MergeAllValues(order: seq<string>, tcs: map<string, TcMap>, files: seq<ApsFile>,
                                          tc: string, path: seq<string>, k2: string)
    requires AllWellFormed(files)
    ensures TcValues(MergeAll(order, tcs, files).1, tc, path, k2) == TcValues(tcs, tc, path, k2) + Collected(files, tc, path, k2)
    decreases |files|
  {
    if files != [] {
      var n := |files| - 1;
      var init := files[..n];
      assert forall i :: 0 <= i < n ==> init[i] == files[i];
      MergeAllValues(order, tcs, init, tc, path, k2);
      var r := MergeAll(order, tcs, init);
      MergeFileValues(r.0, r.1, files[n], tc, path, k2);
      var before, mid := TcValues(tcs, tc, path, k2), Collected(init, tc, path, k2);
      var last := if files[n].info.testCase == tc then EntriesValues(files[n].entries, path, k2) else [];
      assert Collected(files, tc, path, k2) == mid + last;
      Util.AppendAssoc(before, mid, last);
    }
  }

  /** One merged element appends its own contribution to its own test case's series. */
  lemma {:induction false} MergeFileValues(order: seq<string>, tcs: map<string, TcMap>, f: ApsFile,
                                           tc: string, path: seq<string>, k2: string)
    requires WellFormed(f.entries)
    ensures TcValues(MergeFile(order, tcs, f).1, tc, path, k2) ==
      TcValues(tcs, tc, path, k2) + (if f.info.testCase == tc then EntriesValues(f.entries, path, k2) else [])
  {
    if f.info.testCase == tc {
      var t := if tc in tcs then tcs[tc] else TcMap([], map[]);
      PlaceEntriesValues(t.(scenarios := t.scenarios + [Scenario(f.info.scenario, f.info.timestamp)]),
        f.entries, UnitOf(f.entries), path, k2);
    }
  }

  /** Only `APS_SystemMemory` entries contribute to the system map. */
  lemma {:induction false} SystemValuesOnly(entries: seq<(string, ApsValue)>, pt: string, k2: string)
    requires pt != "Memory"
    ensures EntriesValues(entries, ["System", pt], k2) == []
    decreases |entries|
  {
    if entries != [] {
      var n := |entries| - 1;
      SystemValuesOnly(entries[..n], pt, k2);
      var p := Placement(entries[n].0);
      assert p.Some? ==> p.value != ["System", pt] by {
        if p.Some? && entries[n].0 != APS_SYSTEM { assert p.value[0] == "Process"; }
      }
    }
  }

  // ---------------------------------------------------------------------
  // generate_perfmeta_json
  // ---------------------------------------------------------------------

  /** One perfmeta data record. */
  datatype PerfData = PerfData(perfType: string, perfGroup: string, perfValue: int)

  /** The reported number: last minus first value, or the only value. */
  function PerfValue(values: seq<int>): int
    requires values != []
  {
    if |values| > 1 then values[|values| - 1] - values[0] else values[0]
  }

  /**
   * A test case's report: the lookup of `System`/`pt`/`pv`/`Values` gives up
   * at a missing key or an empty list.
   */
  function PerfItem(t: TcMap, pt: string, pv: string): Option<int>
  {
    var vs := ValuesAt(t, ["System", pt], pv);
    if vs == [] then None else Some(PerfValue(vs))
  }

  function PerfmetaData(order: seq<string>, tcs: map<string, TcMap>, pt: string, pv: string): seq<PerfData>
    requires forall i :: 0 <= i < |order| ==> order[i] in tcs
    decreases |order|
  {
    if order == [] then []
    else
      var n := |order| - 1;
      var item := PerfItem(tcs[order[n]], pt, pv);
      PerfmetaData(order[..n], tcs, pt, pv) + (if item.Some? then [PerfData(pt, order[n], item.value)] else [])
  }

  /**
   * The report lists, in key order, exactly the test cases whose lookup
   * succeeds, each with the value of that lookup.
   */
  lemma {:induction false} PerfmetaDataItems(order: seq<string>, tcs: map<string, TcMap>, pt: string, pv: string)
    requires forall i :: 0 <= i < |order| ==> order[i] in tcs
    ensures var data := PerfmetaData(order, tcs, pt, pv);
      (forall d :: d in data ==> d.perfType == pt && d.perfGroup in order && PerfItem(tcs[d.perfGroup], pt, pv) == Some(d.perfValue)) &&
      (forall tc :: tc in order && PerfItem(tcs[tc], pt, pv).Some? ==> exists d :: d in data && d.perfGroup == tc)
    decreases |order|
  {
    if order != [] {
      var n := |order| - 1;
      var init := order[..n];
      assert forall i :: 0 <= i < n ==> init[i] == order[i];
      PerfmetaDataItems(init, tcs, pt, pv);
      var item := PerfItem(tcs[order[n]], pt, pv);
      var data := PerfmetaData(order, tcs, pt, pv);
      var tail := if item.Some? then [PerfData(pt, order[n], item.value)] else [];
      assert data == PerfmetaData(init, tcs, pt, pv) + tail;
      forall tc | tc in order && PerfItem(tcs[tc], pt, pv).Some?
        ensures exists d :: d in data && d.perfGroup == tc
      {
        if tc == order[n] {
          assert data[|data| - 1] in data;
        } else {
          assert tc in init;
          var d :| d in PerfmetaData(init, tcs, pt, pv) && d.perfGroup == tc;
          assert d in data;
        }
      }
    }
  }

  /**
   * What a report on freshly merged results says for one test case: the
   * change of the system value between the first and the last snapshot that
   * had it, or that value when only one had it; nothing for any type other
   * than `Memory`, or when no snapshot had it.
   */
  lemma {:induction false} PerfItemOfMerge(files: seq<ApsFile>, tc: string, pt: string, pv: string)
    requires AllWellFormed(files)
    ensures var m := MergeAll([], map[], files).1;
      var vs := Collected(files, tc, SYSTEM_PATH, pv);
      tc in m ==>
        PerfItem(m[tc], pt, pv) ==
          if pt != "Memory" || vs == [] then None
          else if |vs| > 1 then Some(vs[|vs| - 1] - vs[0]) else Some(vs[0])
  {
    MergeAllValues([], map[], files, tc, ["System", pt], pv);
    if pt != "Memory" {
      CollectedNone(files, tc, pt, pv);
    }
  }

  lemma {:induction false} CollectedNone(files: seq<ApsFile>, tc: string, pt: string, pv: string)
    requires pt != "Memory"
    ensures Collected(files, tc, ["System", pt], pv) == []
    decreases |files|
  {
    if files != [] {
      CollectedNone(files[..|files| - 1], tc, pt, pv);
      SystemValuesOnly(files[|files| - 1].entries, pt, pv);
    }
  }

  /** The output file of one test case: `<folder>/<test case>.profile`. */
  function ProfileName(folder: string, tc: string): string
  {
    PathJoin(folder, tc + ".profile")
  }

  /** `merge_results`' output files, one per test case in key order. */
  function ProfileNames(folder: string, order: seq<string>): seq<string>
  {
    seq(|order|, i requires 0 <= i < |order| => ProfileName(folder, order[i]))
  }

  /** `file`'s last path component is the profile name of test case `tc`. */
  predicate ProfileOf(file: string, tc: string)
  {
    PathSplit(file).1 == tc + ".profile"
  }

  lemma {:induction false} ProfileNameParse(folder: string, tc: string)
    requires NoChar(tc, '/')
    ensures ProfileOf(ProfileName(folder, tc), tc)
  {
    var name := tc + ".profile";
    forall j | 0 <= j < |name|
      ensures name[j] != '/'
    {
      if j < |tc| { assert name[j] == tc[j]; } else { assert name[j] == ".profile"[j - |tc|]; }
    }
    SplitOfJoin(folder, name);
  }

  /** Each output file sits in the folder and is named after its test case, in key order. */
  lemma {:induction false} ProfileNamesParse(folder: string, order: seq<string>)
    requires forall i :: 0 <= i < |order| ==> NoChar(order[i], '/')
    ensures |ProfileNames(folder, order)| == |order|
    ensures forall i :: 0 <= i < |order| ==> ProfileOf(ProfileNames(folder, order)[i], order[i])
  {
    forall i | 0 <= i < |order|
      ensures ProfileOf(ProfileNames(folder, order)[i], order[i])
    {
      ProfileNameParse(folder, order[i]);
    }
  }

  /** The profiler's state: its settings, the loaded APS list and the ordered test-case map. */
  class MemoryProfiler {
    const folder: string
    const perfType: string
    const perfValue: string
    var apsList: seq<ApsFile>
    var order: seq<string>
    var tcMaps: map<string, TcMap>

    ghost predicate Valid()
      reads this
    {
      KeysInOrder(order, tcMaps)
    }

    /** A profiler over already loaded APS results, with an empty test-case map. */
    constructor(folder: string, perfType: string, perfValue: string, aps: seq<ApsFile>)
      ensures this.folder == folder && this.perfType == perfType && this.perfValue == perfValue
      ensures apsList == aps && order == [] && tcMaps == map[] && Valid()
    {
      this.folder := folder;
      this.perfType := perfType;
      this.perfValue := perfValue;
      apsList := aps;
      order := [];
      tcMaps := map[];
    }

    /** The entries loop of one element, on the element's test-case map. */
    static method PlaceAll(t: TcMap, entries: seq<(string, ApsValue)>, unit: string) returns (r: TcMap)
      ensures r == PlaceEntries(t, entries, unit)
    {
      r := t;
      var k := 0;
      while k < |entries|
        invariant 0 <= k <= |entries|
        invariant r == PlaceEntries(t, entries[..k], unit)
      {
        assert entries[..k + 1][..k] == entries[..k];
        var (k1, v) := entries[k];
        var p := Placement(k1);
        if p.Some? && v.Table? {
          var inner := if p.value in r.inner then r.inner[p.value] else map[];
          inner := AddRowsLoop(inner, v.rows, unit);
          r := r.(inner := r.inner[p.value := inner]);
        }
        k := k + 1;
      }
      assert entries[..k] == entries;
    }

    /** One iteration of the outer loop of `merge_results`. */
    method MergeOne(f: ApsFile)
      modifies this`order, this`tcMaps
      ensures (order, tcMaps) == MergeFile(old(order), old(tcMaps), f)
    {
      var tc := f.info.testCase;
      var t := if tc in tcMaps then tcMaps[tc] else TcMap([], map[]);
      if tc !in tcMaps {
        order := order + [tc];
      }
      t := t.(scenarios := t.scenarios + [Scenario(f.info.scenario, f.info.timestamp)]);
      t := PlaceAll(t, f.entries, UnitOf(f.entries));
      tcMaps := tcMaps[tc := t];
    }

    /**
     * `merge_results`: nothing happens for an empty list; otherwise every
     * element is merged in list order and one output file is named per test
     * case.
     */
    method MergeResults() returns (flist: Option<seq<string>>)
      requires Valid() && AllWellFormed(apsList)
      modifies this`order, this`tcMaps
      ensures Valid()
      ensures apsList == [] ==> flist.None? && order == old(order) && tcMaps == old(tcMaps)
      ensures apsList != [] ==> (order, tcMaps) == MergeAll(old(order), old(tcMaps), apsList)
      ensures apsList != [] ==> flist == Some(ProfileNames(folder, order))
    {
      if apsList == [] {
        return None;
      }
      MergeAllFiles();
      var names := ProfileList(folder, order);
      flist := Some(names);
    }

    /** The outer loop of `merge_results`, one element at a time. */
    method MergeAllFiles()
      requires Valid() && AllWellFormed(apsList)
      modifies this`order, this`tcMaps
      ensures Valid() && (order, tcMaps) == MergeAll(old(order), old(tcMaps), apsList)
    {
      var i := 0;
      while i < |apsList|
        invariant 0 <= i <= |apsList|
        invariant order == MergeAll(old(order), old(tcMaps), apsList[..i]).0
        invariant tcMaps == MergeAll(old(order), old(tcMaps), apsList[..i]).1
        invariant Valid()
      {
        ghost var prefix := apsList[..i + 1];
        assert prefix[..i] == apsList[..i] && prefix[i] == apsList[i];
        MergeFileKeys(order, tcMaps, apsList[i]);
        MergeOne(apsList[i]);
        i := i + 1;
      }
      assert apsList[..i] == apsList;
    }

    /** The output-file loop of `merge_results`, over the test cases in key order. */
    static method ProfileList(folder: string, order: seq<string>) returns (names: seq<string>)
      ensures names == ProfileNames(folder, order)
    {
      names := [];
      var j := 0;
      while j < |order|
        invariant 0 <= j <= |order|
        invariant |names| == j && forall k :: 0 <= k < j ==> names[k] == ProfileName(folder, order[k])
      {
        names := names + [PathJoin(folder, order[j] + ".profile")];
        j := j + 1;
      }
    }

    /** The test-case loop of `generate_perfmeta_json`. */
    method GeneratePerfmetaData() returns (data: seq<PerfData>)
      requires Valid()
      ensures data == PerfmetaData(order, tcMaps, perfType, perfValue)
    {
      data := [];
      var i := 0;
      while i < |order|
        invariant 0 <= i <= |order|
        invariant data == PerfmetaData(order[..i], tcMaps, perfType, perfValue)
      {
        assert order[..i + 1][..i] == order[..i];
        var vs := ValuesAt(tcMaps[order[i]], ["System", perfType], perfValue);
        if vs != [] {
          data := data + [PerfData(perfType, order[i], PerfValue(vs))];
        }
        i := i + 1;
      }
      assert order[..i] == order;
    }
  }
}
