/**
 * The session-report configuration
 * (src/pmctl/performance-session-report/config/Configuration.cpp): which
 * views are on, which events to ignore, and the catapult groups of the
 * group view with the ids and thread ids the report gives them.
 */
module ReportConfig {
  import opened Json
  import opened OrderedMap
  import Definition

  /** A configured event of a catapult group, with the track id assigned to it. */
  datatype CatapultCustomEvent = CatapultCustomEvent(groupName: string, process: string, physical: string, logical: string, tid: int)

  /** A group-view event that was written out, for the metadata at the end. */
  datatype GroupMetaInfo = GroupMetaInfo(procName: string, physical: string)

  /** Every key `initialize` looks for. */
  predicate HasRequiredKeys(c: Json)
  {
    && HasKey(c, "catapultIgnoreEvents")
    && HasKey(c, "catapultUserView") && HasKey(Get(c, "catapultUserView"), "enable")
    && HasKey(c, "catapultGroupView") && HasKey(Get(c, "catapultGroupView"), "enable")
    && HasKey(Get(c, "catapultGroupView"), "groups")
    && HasKey(c, "catapultCPUView") && HasKey(Get(c, "catapultCPUView"), "enable")
  }

  /** `catapultIgnoreEvents` as an array. */
  function IgnoreRules(c: Json): seq<Json>
  {
    Items(Get(c, "catapultIgnoreEvents"))
  }

  /** `catapultGroupView.groups` as an array. */
  function Groups(c: Json): seq<Json>
  {
    Items(Get(Get(c, "catapultGroupView"), "groups"))
  }

  /**
   * Whether one ignore rule drops an event: a rule naming both a process and
   * a provider needs both equal, a rule naming one of them needs that one
   * equal, and a rule naming neither drops nothing.
   */
  predicate Ignores(rule: Json, process: string, provider: string)
  {
    var hasProcess := HasKey(rule, "process");
    var hasProvider := HasKey(rule, "provider");
    if hasProcess && hasProvider then EqualsString(Get(rule, "process"), process) && EqualsString(Get(rule, "provider"), provider)
    else if hasProcess then EqualsString(Get(rule, "process"), process)
    else if hasProvider then EqualsString(Get(rule, "provider"), provider)
    else false
  }

  /** The answer of `isEnabledGroup`: the first group of that name decides; a group without `enable` before it is an error. */
  function EnabledGroupAnswer(groups: seq<Json>, name: string): int
    decreases |groups|
  {
    if groups == [] then Definition.RETURN_FALSE
    else if !HasKey(groups[0], "enable") then Definition.RETURN_ERROR
    else if AsString(Get(groups[0], "name")) == name then
      (if AsBool(Get(groups[0], "enable")) then Definition.RETURN_TRUE else Definition.RETURN_FALSE)
    else EnabledGroupAnswer(groups[1..], name)
  }

  /** The groups before index `i` are well formed and are not called `name`. */
  predicate ScannedPast(groups: seq<Json>, name: string, i: nat)
    requires i <= |groups|
  {
    forall j :: 0 <= j < i ==> HasKey(groups[j], "enable") && AsString(Get(groups[j], "name")) != name
  }

  /** `isEnabledGroup` answers by the first group of that name when every group before it has `enable`. */
  lemma {:induction false} EnabledGroupFirst(groups: seq<Json>, name: string, i: nat)
    requires i < |groups| && ScannedPast(groups, name, i)
    requires HasKey(groups[i], "enable") && AsString(Get(groups[i], "name")) == name
    ensures EnabledGroupAnswer(groups, name) == if AsBool(Get(groups[i], "enable")) then 1 else 0
    decreases i
  {
    if i > 0 {
      assert ScannedPast(groups[1..], name, i - 1) by {
        forall j | 0 <= j < i - 1 ensures HasKey(groups[1..][j], "enable") && AsString(Get(groups[1..][j], "name")) != name {
          assert groups[1..][j] == groups[j + 1];
        }
      }
      assert groups[1..][i - 1] == groups[i];
      EnabledGroupFirst(groups[1..], name, i - 1);
    }
  }

  /** With every group well formed and none called `name`, the answer is 0; a group without `enable` first is an error. */
  lemma {:induction false} EnabledGroupOtherwise(groups: seq<Json>, name: string, i: nat)
    requires i <= |groups| && ScannedPast(groups, name, i)
    ensures i == |groups| ==> EnabledGroupAnswer(groups, name) == Definition.RETURN_FALSE
    ensures i < |groups| && !HasKey(groups[i], "enable") ==> EnabledGroupAnswer(groups, name) == Definition.RETURN_ERROR
    decreases i
  {
    if i > 0 {
      assert ScannedPast(groups[1..], name, i - 1) by {
        forall j | 0 <= j < i - 1 ensures HasKey(groups[1..][j], "enable") && AsString(Get(groups[1..][j], "name")) != name {
          assert groups[1..][j] == groups[j + 1];
        }
      }
      EnabledGroupOtherwise(groups[1..], name, i - 1);
    }
  }

  // ---------------------------------------------------------------------
  // getCatapultGroupsInfo
  // ---------------------------------------------------------------------

  /** What `getCatapultGroupsInfo` leaves behind: its answer, the group map and the next id. */
  datatype GroupsOutcome = GroupsOutcome(ok: bool, groupMap: Entries, gid: int)

  /** The scan of `getCatapultGroupsInfo`: each enabled group is inserted with the current id, and the id goes down by one. */
  function GroupsInfo(groups: seq<Json>, m: Entries, gid: int): GroupsOutcome
    decreases |groups|
  {
    if groups == [] then GroupsOutcome(true, m, gid)
    else
      var g := groups[0];
      if !HasKey(g, "enable") then GroupsOutcome(false, m, gid)
      else if AsBool(Get(g, "enable")) then
        if !HasKey(g, "name") then GroupsOutcome(false, m, gid)
        else GroupsInfo(groups[1..], Insert(m, AsString(Get(g, "name")), gid), gid - 1)
      else GroupsInfo(groups[1..], m, gid)
  }

  /** A group the scan accepts: it has `enable`, and `name` when it is enabled. */
  predicate WellFormedGroup(g: Json)
  {
    HasKey(g, "enable") && (AsBool(Get(g, "enable")) ==> HasKey(g, "name"))
  }

  /** The names of the enabled groups, in order. */
  function EnabledNames(groups: seq<Json>): seq<string>
    decreases |groups|
  {
    if groups == [] then []
    else if AsBool(Get(groups[0], "enable")) then [AsString(Get(groups[0], "name"))] + EnabledNames(groups[1..])
    else EnabledNames(groups[1..])
  }

  /** The first position of `k` in `names`, if any. */
  function IndexOf(names: seq<string>, k: string): (r: Wrappers.Option<nat>)
    ensures r.Some? ==> r.value < |names| && names[r.value] == k
    ensures r.Some? ==> forall j :: 0 <= j < r.value ==> names[j] != k
    ensures r.None? ==> forall j :: 0 <= j < |names| ==> names[j] != k
    decreases |names|
  {
    if names == [] then Wrappers.None
    else if names[0] == k then Wrappers.Some(0)
    else
      var r := IndexOf(names[1..], k);
      if r.Some? then Wrappers.Some(r.value + 1) else Wrappers.None
  }

  /** The scan succeeds exactly when every group is well formed. */
  lemma {:induction false} GroupsInfoOk(groups: seq<Json>, m: Entries, gid: int)
    ensures GroupsInfo(groups, m, gid).ok <==> forall i :: 0 <= i < |groups| ==> WellFormedGroup(groups[i])
    decreases |groups|
  {
    if groups != [] {
      assert forall i :: 1 <= i < |groups| ==> groups[1..][i - 1] == groups[i];
      var g := groups[0];
      if HasKey(g, "enable") && AsBool(Get(g, "enable")) && HasKey(g, "name") {
        GroupsInfoOk(groups[1..], Insert(m, AsString(Get(g, "name")), gid), gid - 1);
      } else if HasKey(g, "enable") && !AsBool(Get(g, "enable")) {
        GroupsInfoOk(groups[1..], m, gid);
      }
    }
  }

  /**
   * On success, the i-th enabled group name gets id gid - i, a repeated name
   * keeps the id of its first occurrence, entries already in the map keep
   * theirs, and the next id is gid minus the number of enabled groups.
   */
  lemma {:induction false} GroupsInfoIds(groups: seq<Json>, m: Entries, gid: int, k: string)
    requires Sorted(m) && GroupsInfo(groups, m, gid).ok
    ensures var out := GroupsInfo(groups, m, gid);
      var names := EnabledNames(groups);
      && Sorted(out.groupMap)
      && out.gid == gid - |names|
      && Lookup(out.groupMap, k) ==
        if Lookup(m, k).Some? then Lookup(m, k)
        else if IndexOf(names, k).Some? then Wrappers.Some(gid - IndexOf(names, k).value)
        else Wrappers.None
    decreases |groups|
  {
    if groups != [] {
      var g := groups[0];
      if AsBool(Get(g, "enable")) {
        var name := AsString(Get(g, "name"));
        InsertSorted(m, name, gid);
        LookupInsert(m, name, gid, k);
        GroupsInfoIds(groups[1..], Insert(m, name, gid), gid - 1, k);
        var names' := EnabledNames(groups[1..]);
        assert EnabledNames(groups) == [name] + names';
        assert ([name] + names')[1..] == names';
      } else {
        GroupsInfoIds(groups[1..], m, gid, k);
      }
    }
  }

  // ---------------------------------------------------------------------
  // getCatapultEventsInfo
  // ---------------------------------------------------------------------

  /** What `getCatapultEventsInfo` leaves behind: its answer, the event list and the next track id. */
  datatype EventsOutcome = EventsOutcome(ok: bool, events: seq<CatapultCustomEvent>, groupTid: int)

  /** A group the event scan accepts: it has `enable` and `name`, and `catapultEvents` when it is enabled. */
  predicate WellFormedEventGroup(g: Json)
  {
    HasKey(g, "enable") && HasKey(g, "name") && (AsBool(Get(g, "enable")) ==> HasKey(g, "catapultEvents"))
  }

  /** The configured events of one group, with consecutive track ids from `tid`. */
  function GroupEvents(g: Json, tid: int): (r: seq<CatapultCustomEvent>)
    ensures |r| == |Items(Get(g, "catapultEvents"))|
    ensures forall j :: 0 <= j < |r| ==> r[j].tid == tid + j && r[j].groupName == AsString(Get(g, "name"))
  {
    var evs := Items(Get(g, "catapultEvents"));
    seq(|evs|, j requires 0 <= j < |evs| =>
      CatapultCustomEvent(AsString(Get(g, "name")), AsString(Get(evs[j], "process")),
        AsString(Get(evs[j], "physical")), AsString(Get(evs[j], "logical")), tid + j))
  }

  /** The scan of `getCatapultEventsInfo`: the events of each enabled group are appended, numbered by the running track id. */
  function EventsInfo(groups: seq<Json>, events: seq<CatapultCustomEvent>, tid: int): EventsOutcome
    decreases |groups|
  {
    if groups == [] then EventsOutcome(true, events, tid)
    else
      var g := groups[0];
      if !HasKey(g, "enable") || !HasKey(g, "name") then EventsOutcome(false, events, tid)
      else if AsBool(Get(g, "enable")) then
        if !HasKey(g, "catapultEvents") then EventsOutcome(false, events, tid)
        else
          var added := GroupEvents(g, tid);
          EventsInfo(groups[1..], events + added, tid + |added|)
      else EventsInfo(groups[1..], events, tid)
  }

  /** The track ids of `evs` run up by one from `tid`. */
  predicate ConsecutiveFrom(evs: seq<CatapultCustomEvent>, tid: int)
  {
    forall j :: 0 <= j < |evs| ==> evs[j].tid == tid + j
  }

  /**
   * The scan only appends, whether or not it succeeds; the appended events
   * carry consecutive track ids from the old counter, and the counter ends
   * one past the last of them, so no id is handed out twice.
   */
  lemma {:induction false} EventsInfoTids(groups: seq<Json>, events: seq<CatapultCustomEvent>, tid: int)
    ensures var out := EventsInfo(groups, events, tid);
      && events <= out.events
      && out.groupTid == tid + (|out.events| - |events|)
      && ConsecutiveFrom(out.events[|events|..], tid)
    decreases |groups|
  {
    if groups != [] {
      var g := groups[0];
      if HasKey(g, "enable") && HasKey(g, "name") && AsBool(Get(g, "enable")) && HasKey(g, "catapultEvents") {
        var added := GroupEvents(g, tid);
        EventsInfoTids(groups[1..], events + added, tid + |added|);
        var out := EventsInfo(groups, events, tid);
        assert out == EventsInfo(groups[1..], events + added, tid + |added|);
        forall j | 0 <= j < |out.events| - |events| ensures out.events[|events|..][j].tid == tid + j {
          if j < |added| {
            assert out.events[|events|..][j] == (events + added)[|events| + j] == added[j];
          } else {
            assert out.events[|events|..][j] == out.events[|events + added|..][j - |added|];
          }
        }
      } else if HasKey(g, "enable") && HasKey(g, "name") && !AsBool(Get(g, "enable")) {
        EventsInfoTids(groups[1..], events, tid);
      }
    }
  }

  /** The event scan succeeds exactly when every group is well formed for it. */
  lemma {:induction false} EventsInfoOk(groups: seq<Json>, events: seq<CatapultCustomEvent>, tid: int)
    ensures EventsInfo(groups, events, tid).ok <==> forall i :: 0 <= i < |groups| ==> WellFormedEventGroup(groups[i])
    decreases |groups|
  {
    if groups != [] {
      assert forall i :: 1 <= i < |groups| ==> groups[1..][i - 1] == groups[i];
      var g := groups[0];
      if HasKey(g, "enable") && HasKey(g, "name") && AsBool(Get(g, "enable")) && HasKey(g, "catapultEvents") {
        EventsInfoOk(groups[1..], events + GroupEvents(g, tid), tid + |GroupEvents(g, tid)|);
      } else if HasKey(g, "enable") && HasKey(g, "name") && !AsBool(Get(g, "enable")) {
        EventsInfoOk(groups[1..], events, tid);
      }
    }
  }

  // ---------------------------------------------------------------------
  // The configuration object
  // ---------------------------------------------------------------------

  class Configuration {
    var configFile: string
    var configObj: Json
    var enableUserView: bool
    var enableGroupView: bool
    var enableCpuView: bool
    var groupTid: int

    /** All views off, an empty configuration object, track ids from 0. */
    constructor (file: string)
      ensures configFile == file && configObj == JObj(map[])
      ensures !enableUserView && !enableGroupView && !enableCpuView && groupTid == 0
    {
      configFile := file;
      configObj := JObj(map[]);
      enableUserView, enableGroupView, enableCpuView := false, false, false;
      groupTid := 0;
    }

    /**
     * `initialize`: `readable` stands for the `access` check and `parsed`
     * for the parsed file. It succeeds iff the file is readable and has
     * every required key; the view flags are then the `enable` values.
     */
    method Initialize(readable: bool, parsed: Json) returns (ok: bool)
      modifies this
      ensures ok <==> readable && HasRequiredKeys(parsed)
      ensures configObj == if readable then parsed else old(configObj)
      ensures ok ==> enableUserView == AsBool(Get(Get(parsed, "catapultUserView"), "enable"))
      ensures ok ==> enableGroupView == AsBool(Get(Get(parsed, "catapultGroupView"), "enable"))
      ensures ok ==> enableCpuView == AsBool(Get(Get(parsed, "catapultCPUView"), "enable"))
      ensures !ok ==> enableUserView == old(enableUserView) && enableGroupView == old(enableGroupView) && enableCpuView == old(enableCpuView)
      ensures configFile == old(configFile) && groupTid == old(groupTid)
    {
      if !readable {
        return false;
      }
      configObj := parsed;
      if !HasKey(configObj, "catapultIgnoreEvents") {
        return false;
      }
      if !HasKey(configObj, "catapultUserView") || !HasKey(Get(configObj, "catapultUserView"), "enable") {
        return false;
      }
      if !HasKey(configObj, "catapultGroupView") || !HasKey(Get(configObj, "catapultGroupView"), "enable") {
        return false;
      }
      if !HasKey(Get(configObj, "catapultGroupView"), "groups") {
        return false;
      }
      if !HasKey(configObj, "catapultCPUView") || !HasKey(Get(configObj, "catapultCPUView"), "enable") {
        return false;
      }
      enableUserView := AsBool(Get(Get(configObj, "catapultUserView"), "enable"));
      enableGroupView := AsBool(Get(Get(configObj, "catapultGroupView"), "enable"));
      enableCpuView := AsBool(Get(Get(configObj, "catapultCPUView"), "enable"));
      return true;
    }

    method SetUserView(val: bool)
      modifies this
      ensures enableUserView == val
      ensures configObj == old(configObj) && enableGroupView == old(enableGroupView) && enableCpuView == old(enableCpuView)
      ensures configFile == old(configFile) && groupTid == old(groupTid)
    {
      enableUserView := val;
    }

    method SetGroupView(val: bool)
      modifies this
      ensures enableGroupView == val
      ensures configObj == old(configObj) && enableUserView == old(enableUserView) && enableCpuView == old(enableCpuView)
      ensures configFile == old(configFile) && groupTid == old(groupTid)
    {
      enableGroupView := val;
    }

    method SetCpuView(val: bool)
      modifies this
      ensures enableCpuView == val
      ensures configObj == old(configObj) && enableUserView == old(enableUserView) && enableGroupView == old(enableGroupView)
      ensures configFile == old(configFile) && groupTid == old(groupTid)
    {
      enableCpuView := val;
    }

    /** `isEnabledGroup`: the scan of the groups, stopping at the first group of that name or the first without `enable`. */
    method IsEnabledGroup(name: string) returns (r: int)
      ensures r == EnabledGroupAnswer(Groups(configObj), name)
      ensures r in {Definition.RETURN_TRUE, Definition.RETURN_FALSE, Definition.RETURN_ERROR}
    {
      var groups := Groups(configObj);
      var i := 0;
      while i < |groups|
        invariant 0 <= i <= |groups|
        invariant ScannedPast(groups, name, i)
      {
        var cur := groups[i];
        if !HasKey(cur, "enable") {
          EnabledGroupOtherwise(groups, name, i);
          return Definition.RETURN_ERROR;
        }
        if AsString(Get(cur, "name")) == name {
          EnabledGroupFirst(groups, name, i);
          return if AsBool(Get(cur, "enable")) then Definition.RETURN_TRUE else Definition.RETURN_FALSE;
        }
        i := i + 1;
      }
      EnabledGroupOtherwise(groups, name, i);
      return Definition.RETURN_FALSE;
    }

    /** `isValidEvent`: false exactly when some ignore rule drops the event. */
    method IsValidEvent(process: string, provider: string) returns (ret: bool)
      ensures ret <==> forall i :: 0 <= i < |IgnoreRules(configObj)| ==> !Ignores(IgnoreRules(configObj)[i], process, provider)
    {
      var rules := IgnoreRules(configObj);
      ret := true;
      var i := 0;
      while i < |rules|
        invariant 0 <= i <= |rules|
        invariant forall j :: 0 <= j < i ==> !Ignores(rules[j], process, provider)
      {
        var cur := rules[i];
        var hasProcess := HasKey(cur, "process");
        var hasProvider := HasKey(cur, "provider");
        if hasProcess {
          if hasProvider {
            if EqualsString(Get(cur, "process"), process) && EqualsString(Get(cur, "provider"), provider) {
              ret := false;
              break;
            }
          } else {
            if EqualsString(Get(cur, "process"), process) {
              ret := false;
              break;
            }
          }
        } else if hasProvider {
          if EqualsString(Get(cur, "provider"), provider) {
            ret := false;
            break;
          }
        }
        i := i + 1;
      }
    }

    /** `getCatapultGroupsInfo(groupMap, gid)`; the map and the id are the caller's and come back updated, also on failure. */
    method GetCatapultGroupsInfo(groupMap: Entries, gid: int) returns (ok: bool, groupMap': Entries, gid': int)
      ensures GroupsOutcome(ok, groupMap', gid') == GroupsInfo(Groups(configObj), groupMap, gid)
    {
      var groups := Groups(configObj);
      groupMap', gid' := groupMap, gid;
      var i := 0;
      while i < |groups|
        invariant 0 <= i <= |groups|
        invariant GroupsInfo(groups, groupMap, gid) == GroupsInfo(groups[i..], groupMap', gid')
      {
        var cur := groups[i];
        assert groups[i..][1..] == groups[i + 1..];
        if !HasKey(cur, "enable") {
          return false, groupMap', gid';
        }
        if AsBool(Get(cur, "enable")) {
          if !HasKey(cur, "name") {
            return false, groupMap', gid';
          }
          groupMap' := Insert(groupMap', AsString(Get(cur, "name")), gid');
          gid' := gid' - 1;
        }
        i := i + 1;
      }
      return true, groupMap', gid';
    }

    /** `getCatapultEventsInfo(events)`: appends to the caller's list and advances the track-id counter, also on failure. */
    method GetCatapultEventsInfo(events: seq<CatapultCustomEvent>) returns (ok: bool, events': seq<CatapultCustomEvent>)
      modifies this
      ensures EventsOutcome(ok, events', groupTid) == EventsInfo(Groups(configObj), events, old(groupTid))
      ensures configObj == old(configObj) && configFile == old(configFile)
      ensures enableUserView == old(enableUserView) && enableGroupView == old(enableGroupView) && enableCpuView == old(enableCpuView)
    {
      var groups := Groups(configObj);
      events' := events;
      var i := 0;
      while i < |groups|
        invariant 0 <= i <= |groups|
        invariant EventsInfo(groups, events, old(groupTid)) == EventsInfo(groups[i..], events', groupTid)
        invariant configObj == old(configObj) && configFile == old(configFile)
        invariant enableUserView == old(enableUserView) && enableGroupView == old(enableGroupView) && enableCpuView == old(enableCpuView)
      {
        var cur := groups[i];
        assert groups[i..][1..] == groups[i + 1..];
        if !HasKey(cur, "enable") || !HasKey(cur, "name") {
          return false, events';
        }
        if AsBool(Get(cur, "enable")) {
          if !HasKey(cur, "catapultEvents") {
            return false, events';
          }
          var curEvents := Items(Get(cur, "catapultEvents"));
          ghost var before := events';
          ghost var tid0 := groupTid;
          var j := 0;
          while j < |curEvents|
            invariant 0 <= j <= |curEvents|
            invariant groupTid == tid0 + j
            invariant events' == before + GroupEvents(cur, tid0)[..j]
            invariant configObj == old(configObj) && configFile == old(configFile)
            invariant enableUserView == old(enableUserView) && enableGroupView == old(enableGroupView) && enableCpuView == old(enableCpuView)
          {
            var curEvent := curEvents[j];
            var event := CatapultCustomEvent(AsString(Get(cur, "name")), AsString(Get(curEvent, "process")),
              AsString(Get(curEvent, "physical")), AsString(Get(curEvent, "logical")), groupTid);
            groupTid := groupTid + 1;
            assert GroupEvents(cur, tid0)[..j + 1] == GroupEvents(cur, tid0)[..j] + [event];
            events' := events' + [event];
            j := j + 1;
          }
          assert GroupEvents(cur, tid0)[..j] == GroupEvents(cur, tid0);
        }
        i := i + 1;
      }
      return true, events';
    }
  }
}
