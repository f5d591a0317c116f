/**
 * The group view of the session report (`isGroupMsg`, `getGroupTid` and the
 * `makeJsonGroup*Event` functions in
 * src/pmctl/performance-session-report/LttngParser.cpp): an event is drawn
 * again under every configured group whose catapult events name its process
 * and signal.
 */
module GroupView {
  import opened Wrappers
  import opened Util
  import opened OrderedMap
  import opened DataNode
  import opened TraceEvents
  import opened ReportConfig
  import Definition

  /** A catapult event of group `name` for `proc` and the signal `physical`. */
  predicate Matches(e: CatapultCustomEvent, name: string, proc: string, physical: string)
  {
    e.groupName == name && e.process == proc && e.physical == physical
  }

  /** `getGroupTid(name, proc, physical)`: the track of the first matching catapult event, or -1. */
  function FirstTid(evs: seq<CatapultCustomEvent>, name: string, proc: string, physical: string): (r: int)
    ensures (forall i :: 0 <= i < |evs| ==> !Matches(evs[i], name, proc, physical)) ==> r == -1
    ensures forall i :: 0 <= i < |evs| && Matches(evs[i], name, proc, physical) ==>
      (forall j :: 0 <= j < i ==> !Matches(evs[j], name, proc, physical)) ==> r == evs[i].tid
    decreases |evs|
  {
    if evs == [] then -1
    else if Matches(evs[0], name, proc, physical) then evs[0].tid
    else
      var r := FirstTid(evs[1..], name, proc, physical);
      assert forall i :: 1 <= i < |evs| ==> evs[i] == evs[1..][i - 1];
      r
  }

  /** `isGroupMsg(name, process, physical)`: some catapult event matches once the spaces are deleted from `physical`. */
  predicate IsGroupMsg(evs: seq<CatapultCustomEvent>, name: string, proc: string, physical: string)
  {
    exists i :: 0 <= i < |evs| && Matches(evs[i], name, proc, Without(physical, " "))
  }

  /**
   * The track a group duplicate is drawn on: the first catapult event that
   * `isGroupMsg` matched, looked up with the same space-free signal.
   */
  function GroupTid(evs: seq<CatapultCustomEvent>, name: string, proc: string, physical: string): int
  {
    FirstTid(evs, name, proc, Without(physical, " "))
  }

  /** A matched event goes to the track of a catapult event it matches, which the thread metadata names. */
  lemma {:induction false} GroupTidOfMatch(evs: seq<CatapultCustomEvent>, name: string, proc: string, physical: string)
    requires IsGroupMsg(evs, name, proc, physical)
    ensures exists i :: (0 <= i < |evs| && Matches(evs[i], name, proc, Without(physical, " "))
      && GroupTid(evs, name, proc, physical) == evs[i].tid)
    decreases |evs|
  {
    var p := Without(physical, " ");
    if !Matches(evs[0], name, proc, p) {
      var k :| 0 <= k < |evs| && Matches(evs[k], name, proc, p);
      assert Matches(evs[1..][k - 1], name, proc, p);
      GroupTidOfMatch(evs[1..], name, proc, physical);
      var i :| 0 <= i < |evs[1..]| && Matches(evs[1..][i], name, proc, p) && GroupTid(evs[1..], name, proc, physical) == evs[1..][i].tid;
      assert evs[1..][i] == evs[i + 1];
    }
  }

  /**
   * The lookup with the raw signal, as `makeJsonGroupEvent` and
   * `makeJsonGroupNewEvent` pass it: a signal with a space matches a
   * catapult event of the space-free name, yet is drawn on track -1, which no
   * thread metadata names.
   */
  lemma {:induction false} RawSignalMissesTrack()
    ensures var evs := [CatapultCustomEvent("g", "app", "ab", "Block", 0)];
      && IsGroupMsg(evs, "g", "app", "a b")
      && FirstTid(evs, "g", "app", "a b") == -1
      && GroupTid(evs, "g", "app", "a b") == 0
  {
    var evs := [CatapultCustomEvent("g", "app", "ab", "Block", 0)];
    SpacedSignal();
    assert Matches(evs[0], "g", "app", Without("a b", " "));
    assert !Matches(evs[0], "g", "app", "a b");
  }

  /** The signal of `RawSignalMissesTrack` without its space. */
  lemma {:induction false} SpacedSignal()
    ensures Without("a b", " ") == "ab"
  {
  }

  // ---------------------------------------------------------------------
  // Duplicates under each group
  // ---------------------------------------------------------------------

  /** The entries of the group map, in map order, whose group an event with `proc` and `physical` belongs to. */
  function MatchingGroups(m: Entries, evs: seq<CatapultCustomEvent>, proc: string, physical: string): (g: Entries)
    ensures forall x :: x in g <==> x in m && IsGroupMsg(evs, x.0, proc, physical)
    ensures |g| <= |m|
    decreases |m|
  {
    if m == [] then []
    else
      var front := MatchingGroups(m[..|m| - 1], evs, proc, physical);
      var last := m[|m| - 1];
      assert forall x :: x in m <==> x in m[..|m| - 1] || x == last by {
        assert m == m[..|m| - 1] + [last];
      }
      if IsGroupMsg(evs, last.0, proc, physical) then front + [last] else front
  }

  /** Each group key of the map gives at most one duplicate: the matching entries keep the map's strict order. */
  lemma {:induction false} MatchingGroupsSorted(m: Entries, evs: seq<CatapultCustomEvent>, proc: string, physical: string)
    requires Sorted(m)
    ensures Sorted(MatchingGroups(m, evs, proc, physical))
    decreases |m|
  {
    if m != [] {
      var init := m[..|m| - 1];
      var last := m[|m| - 1];
      assert Sorted(init);
      MatchingGroupsSorted(init, evs, proc, physical);
      var front := MatchingGroups(init, evs, proc, physical);
      if IsGroupMsg(evs, last.0, proc, physical) {
        var g := front + [last];
        forall i, j | 0 <= i < j < |g| ensures StrLess(g[i].0, g[j].0) {
          if j == |g| - 1 {
            assert g[i] in init;
            var k :| 0 <= k < |init| && init[k] == g[i];
            assert m[k] == g[i];
          } else {
            assert g[i] == front[i] && g[j] == front[j];
          }
        }
      }
    }
  }

  /** The legacy duplicates of `n` under the groups `g` with phase `ph`. */
  function LegacyDuplicates(g: Entries, evs: seq<CatapultCustomEvent>, n: NodeValue, ph: string): seq<Event>
  {
    seq(|g|, i requires 0 <= i < |g| => GroupEvent(n, ph, g[i].1, GroupTid(evs, g[i].0, n.processName, n.signal)))
  }

  /** The new-format duplicates of `n` under the groups `g` with phase `ph`. */
  function NewDuplicates(g: Entries, evs: seq<CatapultCustomEvent>, n: NodeValue, ph: string): seq<Event>
  {
    seq(|g|, i requires 0 <= i < |g| => GroupNewEvent(n, ph, g[i].1, GroupTid(evs, g[i].0, n.processName, GetPayload(n, "name"))))
  }

  /** `k` copies of one metadata record. */
  function Copies(k: nat, info: GroupMetaInfo): (r: seq<GroupMetaInfo>)
    ensures |r| == k && forall i :: 0 <= i < k ==> r[i] == info
  {
    seq(k, _ => info)
  }

  /**
   * `makeJsonGroupEvent` for a node that passed the process filter: the
   * duplicates, and one metadata record (process, signal) per duplicate.
   * Start, end and unknown types draw nothing.
   */
  function LegacyGroupView(m: Entries, evs: seq<CatapultCustomEvent>, n: NodeValue): (seq<Event>, seq<GroupMetaInfo>)
  {
    match LegacyPhase(n.eventType)
    case None => ([], [])
    case Some(ph) =>
      var g := MatchingGroups(m, evs, n.processName, n.signal);
      (LegacyDuplicates(g, evs, n, ph), Copies(|g|, GroupMetaInfo(n.processName, n.signal)))
  }

  /**
   * `makeJsonGroupNewEvent` for a node that passed the process filter: the
   * same with the payload's "name" as the signal; only blocks are drawn.
   */
  function NewGroupView(m: Entries, evs: seq<CatapultCustomEvent>, n: NodeValue): (seq<Event>, seq<GroupMetaInfo>)
  {
    var name := GetPayload(n, "name");
    match NewGroupPhase(n.eventType)
    case None => ([], [])
    case Some(ph) =>
      var g := MatchingGroups(m, evs, n.processName, name);
      (NewDuplicates(g, evs, n, ph), Copies(|g|, GroupMetaInfo(n.processName, name)))
  }

  /** What the group entry `x` contributes to the legacy view of `n`: one duplicate and its record, or nothing. */
  function LegacyGroupEntry(x: (string, int), evs: seq<CatapultCustomEvent>, n: NodeValue): (r: (seq<Event>, seq<GroupMetaInfo>))
    ensures |r.0| == |r.1| <= 1
  {
    if LegacyPhase(n.eventType).Some? && IsGroupMsg(evs, x.0, n.processName, n.signal) then
      ([GroupEvent(n, LegacyPhase(n.eventType).value, x.1, GroupTid(evs, x.0, n.processName, n.signal))],
       [GroupMetaInfo(n.processName, n.signal)])
    else ([], [])
  }

  /** What the group entry `x` contributes to the new-format view of `n`. */
  function NewGroupEntry(x: (string, int), evs: seq<CatapultCustomEvent>, n: NodeValue): (r: (seq<Event>, seq<GroupMetaInfo>))
    ensures |r.0| == |r.1| <= 1
  {
    var name := GetPayload(n, "name");
    if NewGroupPhase(n.eventType).Some? && IsGroupMsg(evs, x.0, n.processName, name) then
      ([GroupNewEvent(n, NewGroupPhase(n.eventType).value, x.1, GroupTid(evs, x.0, n.processName, name))],
       [GroupMetaInfo(n.processName, name)])
    else ([], [])
  }

  /** The legacy view over one more group entry is the view over the others followed by the entry's contribution. */
  lemma {:induction false} LegacyGroupViewSnoc(m: Entries, x: (string, int), evs: seq<CatapultCustomEvent>, n: NodeValue)
    ensures LegacyGroupView(m + [x], evs, n).0 == LegacyGroupView(m, evs, n).0 + LegacyGroupEntry(x, evs, n).0
    ensures LegacyGroupView(m + [x], evs, n).1 == LegacyGroupView(m, evs, n).1 + LegacyGroupEntry(x, evs, n).1
  {
    assert (m + [x])[..|m + [x]| - 1] == m;
    if LegacyPhase(n.eventType).Some? {
      var ph := LegacyPhase(n.eventType).value;
      var g := MatchingGroups(m, evs, n.processName, n.signal);
      if IsGroupMsg(evs, x.0, n.processName, n.signal) {
        var g' := g + [x];
        var d, d' := LegacyDuplicates(g, evs, n, ph), LegacyDuplicates(g', evs, n, ph);
        assert d' == d + [GroupEvent(n, ph, x.1, GroupTid(evs, x.0, n.processName, n.signal))] by {
          assert forall i :: 0 <= i < |g| ==> g'[i] == g[i];
        }
        assert Copies(|g'|, GroupMetaInfo(n.processName, n.signal)) == Copies(|g|, GroupMetaInfo(n.processName, n.signal)) + [GroupMetaInfo(n.processName, n.signal)];
      }
    }
  }

  /** The same for the new-format view. */
  lemma {:induction false} NewGroupViewSnoc(m: Entries, x: (string, int), evs: seq<CatapultCustomEvent>, n: NodeValue)
    ensures NewGroupView(m + [x], evs, n).0 == NewGroupView(m, evs, n).0 + NewGroupEntry(x, evs, n).0
    ensures NewGroupView(m + [x], evs, n).1 == NewGroupView(m, evs, n).1 + NewGroupEntry(x, evs, n).1
  {
    assert (m + [x])[..|m + [x]| - 1] == m;
    var name := GetPayload(n, "name");
    if NewGroupPhase(n.eventType).Some? {
      var ph := NewGroupPhase(n.eventType).value;
      var g := MatchingGroups(m, evs, n.processName, name);
      if IsGroupMsg(evs, x.0, n.processName, name) {
        var g' := g + [x];
        var d, d' := NewDuplicates(g, evs, n, ph), NewDuplicates(g', evs, n, ph);
        assert d' == d + [GroupNewEvent(n, ph, x.1, GroupTid(evs, x.0, n.processName, name))] by {
          assert forall i :: 0 <= i < |g| ==> g'[i] == g[i];
        }
        assert Copies(|g'|, GroupMetaInfo(n.processName, name)) == Copies(|g|, GroupMetaInfo(n.processName, name)) + [GroupMetaInfo(n.processName, name)];
      }
    }
  }

  /** The legacy view accumulated entry by entry, in the order `makeJsonGroupEvent` walks the map. */
  function LegacyGroupFold(m: Entries, evs: seq<CatapultCustomEvent>, n: NodeValue): (seq<Event>, seq<GroupMetaInfo>)
    decreases |m|
  {
    if m == [] then ([], [])
    else
      var (es, ms) := LegacyGroupFold(m[..|m| - 1], evs, n);
      var (e, k) := LegacyGroupEntry(m[|m| - 1], evs, n);
      (es + e, ms + k)
  }

  /** The new-format view accumulated entry by entry. */
  function NewGroupFold(m: Entries, evs: seq<CatapultCustomEvent>, n: NodeValue): (seq<Event>, seq<GroupMetaInfo>)
    decreases |m|
  {
    if m == [] then ([], [])
    else
      var (es, ms) := NewGroupFold(m[..|m| - 1], evs, n);
      var (e, k) := NewGroupEntry(m[|m| - 1], evs, n);
      (es + e, ms + k)
  }

  /** One more entry of the legacy walk. */
  lemma LegacyFoldStep(m: Entries, i: nat, evs: seq<CatapultCustomEvent>, n: NodeValue)
    requires i < |m|
    ensures LegacyGroupFold(m[..i + 1], evs, n) ==
      (LegacyGroupFold(m[..i], evs, n).0 + LegacyGroupEntry(m[i], evs, n).0,
       LegacyGroupFold(m[..i], evs, n).1 + LegacyGroupEntry(m[i], evs, n).1)
  {
    assert m[..i + 1][..i] == m[..i];
  }

  /** One more entry of the new-format walk. */
  lemma NewFoldStep(m: Entries, i: nat, evs: seq<CatapultCustomEvent>, n: NodeValue)
    requires i < |m|
    ensures NewGroupFold(m[..i + 1], evs, n) ==
      (NewGroupFold(m[..i], evs, n).0 + NewGroupEntry(m[i], evs, n).0,
       NewGroupFold(m[..i], evs, n).1 + NewGroupEntry(m[i], evs, n).1)
  {
    assert m[..i + 1][..i] == m[..i];
  }

  /** Walking the map entry by entry yields the legacy view. */
  lemma {:induction false} LegacyGroupFoldIsView(m: Entries, evs: seq<CatapultCustomEvent>, n: NodeValue)
    ensures LegacyGroupFold(m, evs, n) == LegacyGroupView(m, evs, n)
    decreases |m|
  {
    if m == [] {
      assert MatchingGroups(m, evs, n.processName, n.signal) == [];
      if LegacyPhase(n.eventType).Some? {
        var ph := LegacyPhase(n.eventType).value;
        assert LegacyDuplicates([], evs, n, ph) == [];
        assert Copies(0, GroupMetaInfo(n.processName, n.signal)) == [];
      }
      assert LegacyGroupView(m, evs, n) == ([], []);
    } else {
      var init, x := m[..|m| - 1], m[|m| - 1];
      assert init + [x] == m;
      LegacyGroupFoldIsView(init, evs, n);
      LegacyGroupViewSnoc(init, x, evs, n);
      var v0 := LegacyGroupView(init, evs, n);
      var e := LegacyGroupEntry(x, evs, n);
      assert LegacyGroupFold(m, evs, n) == (v0.0 + e.0, v0.1 + e.1);
      assert LegacyGroupView(m, evs, n) == (v0.0 + e.0, v0.1 + e.1);
    }
  }


  /** Walking the map entry by entry yields the new-format view. */
  lemma {:induction false} NewGroupFoldIsView(m: Entries, evs: seq<CatapultCustomEvent>, n: NodeValue)
    ensures NewGroupFold(m, evs, n) == NewGroupView(m, evs, n)
    decreases |m|
  {
    if m == [] {
      assert MatchingGroups(m, evs, n.processName, GetPayload(n, "name")) == [];
      assert NewGroupView(m, evs, n) == ([], []);
    } else {
      var init, x := m[..|m| - 1], m[|m| - 1];
      assert init + [x] == m;
      NewGroupFoldIsView(init, evs, n);
      NewGroupViewSnoc(init, x, evs, n);
      var v0 := NewGroupView(init, evs, n);
      var e := NewGroupEntry(x, evs, n);
      assert NewGroupFold(m, evs, n) == (v0.0 + e.0, v0.1 + e.1);
      assert NewGroupView(m, evs, n) == (v0.0 + e.0, v0.1 + e.1);
    }
  }


  /**
   * A legacy event with a phase is drawn once under each group key it
   * matches, in key order, with the group id as pid and the group track as
   * tid, in the legacy phase of its type; each duplicate comes with one
   * metadata record.
   */
  lemma {:induction false} LegacyGroupViewShape(m: Entries, evs: seq<CatapultCustomEvent>, n: NodeValue)
    requires Sorted(m)
    ensures var (es, ms) := LegacyGroupView(m, evs, n);
      var g := MatchingGroups(m, evs, n.processName, n.signal);
      && |es| == |ms|
      && (LegacyPhase(n.eventType).None? ==> es == [])
      && (LegacyPhase(n.eventType).Some? ==>
            && Sorted(g) && |es| == |g|
            && forall i :: 0 <= i < |g| ==>
                 && es[i].pid == IdNum(g[i].1)
                 && es[i].tid == IdNum(GroupTid(evs, g[i].0, n.processName, n.signal))
                 && Some(es[i].ph) == LegacyPhase(n.eventType)
                 && es[i].cat == "group" && es[i].name == n.signal
                 && ms[i] == GroupMetaInfo(n.processName, n.signal))
  {
    MatchingGroupsSorted(m, evs, n.processName, n.signal);
  }

  /** The same for a new-format event: blocks only, named and matched by the payload's "name". */
  lemma {:induction false} NewGroupViewShape(m: Entries, evs: seq<CatapultCustomEvent>, n: NodeValue)
    requires Sorted(m)
    ensures var (es, ms) := NewGroupView(m, evs, n);
      var name := GetPayload(n, "name");
      var g := MatchingGroups(m, evs, n.processName, name);
      && |es| == |ms|
      && (n.eventType != Definition.TRACE_TYPE_BLOCK_ENTRY && n.eventType != Definition.TRACE_TYPE_BLOCK_EXIT ==> es == [])
      && (NewGroupPhase(n.eventType).Some? ==>
            && Sorted(g) && |es| == |g|
            && forall i :: 0 <= i < |g| ==>
                 && es[i].pid == IdNum(g[i].1)
                 && es[i].tid == IdNum(GroupTid(evs, g[i].0, n.processName, name))
                 && Some(es[i].ph) == NewGroupPhase(n.eventType)
                 && es[i].cat == "group" && es[i].name == name
                 && ms[i] == GroupMetaInfo(n.processName, name))
  {
    MatchingGroupsSorted(m, evs, n.processName, GetPayload(n, "name"));
  }
}
