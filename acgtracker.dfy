/**
 * The ACG migration tracker (files/scripts/acg_migration_tracker.py): it
 * reads the luna-service2 and legacy service directories, sorts every
 * service into the old model, the ACG model or both ("mixed"), and reports
 * the three classes as perfmeta records.
 *
 * The file system is a parameter: a map from each existing directory to its
 * listing. `os.path.isdir` is membership in that map.
 */
module AcgTracker {
  import opened PyPath

  const PERF_TYPE_MIGRATION: string := "LS2 ACG Migration"
  const PERF_TYPE_SUMMARY: string := "LS2 ACG Summary"
  const PERF_TYPE_CHECK: string := "LS2 ACG Check"
  const ROLE_SUFFIX: string := ".role"

  /** The directories, under the base directory, whose files name ACG-model services. */
  const ACG_DIRS: seq<string> := ["luna-service2/roles.d", "luna-service2/services.d"]

  /** The directories, under the base directory, whose files name old-model services. */
  const OLD_DIRS: seq<string> := ["ls2/roles/prv", "ls2/roles/pub", "dbus-1/services", "dbus-1/system-services"]

  /** Every existing directory with the names `os.listdir` returns for it. */
  type Listing = map<string, seq<string>>

  /** The service a file stands for: its name without extension and then without `.role`. */
  function ServiceName(filename: string): string
  {
    var name := SplitExt(filename).0;
    if EndsWith(name, ROLE_SUFFIX) then name[..|name| - |ROLE_SUFFIX|] else name
  }

  /**
   * A role file `<service>.role.<ext>` and a service file `<service>.<ext>`
   * both name `<service>`.
   */
  lemma {:induction false} ServiceNameOf(service: string, ext: string)
    requires service != "" && service[0] != '.' && NoChar(service, '/')
    requires |ext| > 0 && ext[0] == '.' && NoChar(ext[1..], '.') && NoChar(ext, '/')
    ensures ServiceName(service + ROLE_SUFFIX + ext) == service
    ensures !EndsWith(service, ROLE_SUFFIX) ==> ServiceName(service + ext) == service
  {
    var role := service + ROLE_SUFFIX;
    NoCharConcat(service, ROLE_SUFFIX, '/');
    assert role[0] == service[0];
    SplitExtOf(role, ext);
    assert role[|role| - |ROLE_SUFFIX|..] == ROLE_SUFFIX;
    assert role[..|role| - |ROLE_SUFFIX|] == service;
    SplitExtOf(service, ext);
  }

  /** The services a list of file names stands for. */
  function NamesOf(filenames: seq<string>): set<string>
  {
    set f | f in filenames :: ServiceName(f)
  }

  lemma {:induction false} NamesOfSnoc(filenames: seq<string>, f: string)
    ensures NamesOf(filenames + [f]) == NamesOf(filenames) + {ServiceName(f)}
  {
    assert forall g :: g in filenames + [f] <==> g in filenames || g == f;
  }

  /** The services one directory adds; a missing directory adds none. */
  function DirServices(fs: Listing, dir: string): set<string>
  {
    if dir in fs then NamesOf(fs[dir]) else {}
  }

  /** The services all of `dirs` under `base` add. */
  function ServicesIn(fs: Listing, base: string, dirs: seq<string>): set<string>
    decreases |dirs|
  {
    if dirs == [] then {} else ServicesIn(fs, base, dirs[..|dirs| - 1]) + DirServices(fs, PathJoin(base, dirs[|dirs| - 1]))
  }

  /** The four sets `parse_dir` leaves behind. */
  datatype Classes = Classes(all: set<string>, olds: set<string>, mixed: set<string>, acg: set<string>)

  /**
   * `parse_dir`'s set algebra: a service is mixed when both kinds of
   * directory name it, old or ACG when only one kind does; the three classes
   * are disjoint and together make up all services.
   */
  function Classify(oldRaw: set<string>, acgRaw: set<string>): (c: Classes)
    ensures c.all == oldRaw + acgRaw
    ensures c.all == c.olds + c.mixed + c.acg
    ensures c.olds * c.mixed == {} && c.olds * c.acg == {} && c.mixed * c.acg == {}
    ensures forall s :: s in c.mixed <==> s in oldRaw && s in acgRaw
    ensures forall s :: s in c.olds <==> s in oldRaw && s !in acgRaw
    ensures forall s :: s in c.acg <==> s in acgRaw && s !in oldRaw
  {
    var mixed := oldRaw * acgRaw;
    Classes(oldRaw + acgRaw, oldRaw - mixed, mixed, acgRaw - mixed)
  }

  /** The three summary counts add up to the number of services. */
  lemma {:induction false} ClassCounts(oldRaw: set<string>, acgRaw: set<string>)
    ensures var c := Classify(oldRaw, acgRaw);
      |c.all| == |c.olds| + |c.mixed| + |c.acg|
  {
    var c := Classify(oldRaw, acgRaw);
    assert |c.olds + c.mixed| == |c.olds| + |c.mixed|;
    assert (c.olds + c.mixed) * c.acg == {};
    assert |c.olds + c.mixed + c.acg| == |c.olds + c.mixed| + |c.acg|;
  }

  /** One perfmeta data record. */
  datatype PerfData = PerfData(perfType: string, perfGroup: string, perfValue: int)

  /**
   * `items` enumerates `s`: one record of type `ptype` and value `v` per
   * element, each element once, in some order.
   */
  predicate Lists(items: seq<PerfData>, s: set<string>, ptype: string, v: int)
    decreases |items|
  {
    if items == [] then s == {}
    else
      var last := items[|items| - 1];
      last.perfType == ptype && last.perfValue == v && last.perfGroup in s &&
      Lists(items[..|items| - 1], s - {last.perfGroup}, ptype, v)
  }

  /** What an enumeration gives: as many records as elements, each well-formed, every element covered. */
  lemma {:induction false} ListsMeans(items: seq<PerfData>, s: set<string>, ptype: string, v: int)
    requires Lists(items, s, ptype, v)
    ensures |items| == |s|
    ensures forall i :: 0 <= i < |items| ==> items[i].perfType == ptype && items[i].perfValue == v && items[i].perfGroup in s
    ensures forall x :: x in s ==> exists i :: 0 <= i < |items| && items[i].perfGroup == x
    decreases |items|
  {
    if items != [] {
      var n := |items| - 1;
      var g := items[n].perfGroup;
      var init := items[..n];
      ListsMeans(init, s - {g}, ptype, v);
      assert s == (s - {g}) + {g};
      forall x | x in s
        ensures exists i :: 0 <= i < |items| && items[i].perfGroup == x
      {
        if x == g {
          assert items[n].perfGroup == x;
        } else {
          assert x in s - {g};
          var i :| 0 <= i < |init| && init[i].perfGroup == x;
          assert items[i] == init[i];
        }
      }
    }
  }

  /** The summary records, in the order the report lists them. */
  function Summary(olds: set<string>, mixed: set<string>, acg: set<string>, missing: set<string>): seq<PerfData>
  {
    [PerfData(PERF_TYPE_SUMMARY, "OLD", |olds|), PerfData(PERF_TYPE_SUMMARY, "MIXED", |mixed|),
     PerfData(PERF_TYPE_SUMMARY, "ACG", |acg|), PerfData(PERF_TYPE_SUMMARY, "ACG MISSING APIs", |missing|)]
  }

  /** One `for` loop of `_print_json_result`: a record per set element, in no particular order. */
  method AddItems(data: seq<PerfData>, s: set<string>, ptype: string, v: int) returns (r: seq<PerfData>)
    ensures |r| == |data| + |s| && r[..|data|] == data
    ensures Lists(r[|data|..], s, ptype, v)
  {
    var items: seq<PerfData> := [];
    var rest := s;
    while rest != {}
      invariant rest <= s && |items| + |rest| == |s|
      invariant Lists(items, s - rest, ptype, v)
      decreases |rest|
    {
      var x :| x in rest;
      var items' := items + [PerfData(ptype, x, v)];
      assert items'[..|items|] == items;
      assert (s - (rest - {x})) - {x} == s - rest;
      items, rest := items', rest - {x};
    }
    assert s - rest == s;
    r := data + items;
    assert r[..|data|] == data && r[|data|..] == items;
  }

  /** A slice that lies inside a prefix is a slice of that prefix. */
  lemma {:induction false} SliceOfPrefix(a: seq<PerfData>, b: seq<PerfData>, i: nat, j: nat)
    requires |a| <= |b| && b[..|a|] == a && i <= j <= |a|
    ensures b[i..j] == a[i..j]
  {
    assert forall k :: 0 <= k < j - i ==> b[i..j][k] == b[..|a|][i + k];
  }

  /** Being a prefix is transitive. */
  lemma {:induction false} PrefixTrans(a: seq<PerfData>, b: seq<PerfData>, c: seq<PerfData>)
    requires |a| <= |b| <= |c| && b[..|a|] == a && c[..|b|] == b
    ensures c[..|a|] == a
  {
    assert c[..|a|] == c[..|b|][..|a|];
  }

  /** Records listed at the end of a prefix stay listed once more records follow. */
  lemma {:induction false} ListsInPrefix(a: seq<PerfData>, b: seq<PerfData>, i: nat, s: set<string>, ptype: string, v: int)
    requires i <= |a| <= |b| && b[..|a|] == a && Lists(a[i..], s, ptype, v)
    ensures Lists(b[i..|a|], s, ptype, v)
  {
    SliceOfPrefix(a, b, i, |a|);
    assert a[i..|a|] == a[i..];
  }

  /** The tracker's state: the base directory and the service sets it fills. */
  class AcgMigrationTracker {
    const baseDir: string
    const isJson: bool
    var allServices: set<string>
    var oldModel: set<string>
    var mixedModel: set<string>
    var acgModel: set<string>
    var missingApis: set<string>

    constructor(baseDir: string, isJson: bool)
      ensures this.baseDir == baseDir && this.isJson == isJson
      ensures allServices == {} && oldModel == {} && mixedModel == {} && acgModel == {} && missingApis == {}
    {
      this.baseDir := baseDir;
      this.isJson := isJson;
      allServices, oldModel, mixedModel, acgModel, missingApis := {}, {}, {}, {}, {};
    }

    /** The body of `_parse_single_dir`'s loop: the extension goes, then a `.role` suffix. */
    static method FileService(filename: string) returns (name: string)
      ensures name == ServiceName(filename)
    {
      name := SplitExt(filename).0;
      if EndsWith(name, ROLE_SUFFIX) {
        name := name[..|name| - |ROLE_SUFFIX|];
      }
    }

    /** `_parse_single_dir`: every file of an existing directory adds the service it names. */
    static method ParseSingleDir(fs: Listing, dirname: string, services: set<string>) returns (r: set<string>)
      ensures r == services + DirServices(fs, dirname)
    {
      r := services;
      if dirname !in fs {
        return;
      }
      var filenames := fs[dirname];
      var i := 0;
      while i < |filenames|
        invariant 0 <= i <= |filenames|
        invariant r == services + NamesOf(filenames[..i])
      {
        var name := FileService(filenames[i]);
        assert filenames[..i + 1] == filenames[..i] + [filenames[i]];
        NamesOfSnoc(filenames[..i], filenames[i]);
        r := r + {name};
        i := i + 1;
      }
      assert filenames[..i] == filenames;
    }

    /** The two `luna-service2` calls of `parse_dir`. */
    method ParseAcgDirs(fs: Listing, acg: set<string>) returns (r: set<string>)
      ensures r == acg + ServicesIn(fs, baseDir, ACG_DIRS)
    {
      r := ParseSingleDir(fs, PathJoin(baseDir, ACG_DIRS[0]), acg);
      r := ParseSingleDir(fs, PathJoin(baseDir, ACG_DIRS[1]), r);
      assert ACG_DIRS[..1] == [ACG_DIRS[0]] && ACG_DIRS[..1][..0] == [];
      assert ServicesIn(fs, baseDir, ACG_DIRS[..1]) == DirServices(fs, PathJoin(baseDir, ACG_DIRS[0]));
    }

    /** The four legacy-directory calls of `parse_dir`. */
    method ParseOldDirs(fs: Listing, olds: set<string>) returns (r: set<string>)
      ensures r == olds + ServicesIn(fs, baseDir, OLD_DIRS)
    {
      r := ParseSingleDir(fs, PathJoin(baseDir, OLD_DIRS[0]), olds);
      r := ParseSingleDir(fs, PathJoin(baseDir, OLD_DIRS[1]), r);
      r := ParseSingleDir(fs, PathJoin(baseDir, OLD_DIRS[2]), r);
      r := ParseSingleDir(fs, PathJoin(baseDir, OLD_DIRS[3]), r);
      ghost var d0, d1 := DirServices(fs, PathJoin(baseDir, OLD_DIRS[0])), DirServices(fs, PathJoin(baseDir, OLD_DIRS[1]));
      ghost var d2, d3 := DirServices(fs, PathJoin(baseDir, OLD_DIRS[2])), DirServices(fs, PathJoin(baseDir, OLD_DIRS[3]));
      assert OLD_DIRS[..4] == OLD_DIRS && OLD_DIRS[..4][..3] == OLD_DIRS[..3];
      assert OLD_DIRS[..3][..2] == OLD_DIRS[..2] && OLD_DIRS[..2][..1] == OLD_DIRS[..1] && OLD_DIRS[..1][..0] == [];
      assert ServicesIn(fs, baseDir, OLD_DIRS[..1]) == d0;
      assert ServicesIn(fs, baseDir, OLD_DIRS[..2]) == d0 + d1;
      assert ServicesIn(fs, baseDir, OLD_DIRS[..3]) == d0 + d1 + d2;
      assert ServicesIn(fs, baseDir, OLD_DIRS) == d0 + d1 + d2 + d3;
    }

    /**
     * `parse_dir`: the ACG directories feed the ACG set and the legacy ones
     * the old set, then the sets are classified.
     */
    method ParseDir(fs: Listing)
      modifies this`allServices, this`oldModel, this`mixedModel, this`acgModel
      ensures Classes(allServices, oldModel, mixedModel, acgModel) ==
        Classify(old(oldModel) + ServicesIn(fs, baseDir, OLD_DIRS), old(acgModel) + ServicesIn(fs, baseDir, ACG_DIRS))
    {
      var acg := ParseAcgDirs(fs, acgModel);
      var olds := ParseOldDirs(fs, oldModel);
      allServices := olds + acg;
      mixedModel := olds * acg;
      oldModel := olds - mixedModel;
      acgModel := acg - mixedModel;
    }

    /**
     * The `data` list of `_print_json_result`: the four summary counts, then
     * one migration record per old (0), mixed (1) and ACG (2) service, then
     * one check record per missing API.
     */
    method JsonData() returns (data: seq<PerfData>)
      ensures |data| == 4 + |oldModel| + |mixedModel| + |acgModel| + |missingApis|
      ensures data[..4] == Summary(oldModel, mixedModel, acgModel, missingApis)
      ensures var a := 4 + |oldModel|;
        Lists(data[4..a], oldModel, PERF_TYPE_MIGRATION, 0)
      ensures var a, b := 4 + |oldModel|, 4 + |oldModel| + |mixedModel|;
        Lists(data[a..b], mixedModel, PERF_TYPE_MIGRATION, 1)
      ensures var b, c := 4 + |oldModel| + |mixedModel|, 4 + |oldModel| + |mixedModel| + |acgModel|;
        Lists(data[b..c], acgModel, PERF_TYPE_MIGRATION, 2)
      ensures var c := 4 + |oldModel| + |mixedModel| + |acgModel|;
        Lists(data[c..], missingApis, PERF_TYPE_CHECK, 1)
    {
      var d0 := Summary(oldModel, mixedModel, acgModel, missingApis);
      var d1 := AddItems(d0, oldModel, PERF_TYPE_MIGRATION, 0);
      var d2 := AddItems(d1, mixedModel, PERF_TYPE_MIGRATION, 1);
      var d3 := AddItems(d2, acgModel, PERF_TYPE_MIGRATION, 2);
      data := AddItems(d3, missingApis, PERF_TYPE_CHECK, 1);
      PrefixTrans(d2, d3, data);
      PrefixTrans(d1, d2, data);
      ListsInPrefix(d1, data, 4, oldModel, PERF_TYPE_MIGRATION, 0);
      ListsInPrefix(d2, data, |d1|, mixedModel, PERF_TYPE_MIGRATION, 1);
      ListsInPrefix(d3, data, |d2|, acgModel, PERF_TYPE_MIGRATION, 2);
      SliceOfPrefix(d1, data, 0, 4);
    }
  }
}
