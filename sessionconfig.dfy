/**
 * The event configuration of `pmctl session`
 * (src/pmctl/performance-session/config/Configuration.cpp): which named
 * event groups are traced, and the lttng event each of them turns on.
 *
 * `access(R_OK)` and `parseFile` are parameters of `initialize`: whether the
 * file is readable and the JSON value it holds.
 */
module SessionConfig {
  import opened Wrappers
  import opened Util
  import opened Json

  const SESSION_EVENT_CONF: string := "/etc/pmtrace/session-event-conf.json"
  const SCHED_SWITCH: string := "sched_switch"
  const LTTNG_EVENT_USER: string := "user"
  const LTTNG_EVENT_KERNEL: string := "kernel"

  /** The entries of the `events` array. */
  function Entries(conf: Json): seq<Json>
  {
    Items(Get(conf, "events"))
  }

  /** An entry that names its event, its switch and its lttng events. */
  predicate Complete(e: Json)
  {
    HasKey(e, "name") && HasKey(e, "enable") && HasKey(e, "lttngEvents")
  }

  /** What `initEvent` checks before any selection. */
  predicate WellFormed(conf: Json)
  {
    HasKey(conf, "events") && forall e :: e in Entries(conf) ==> Complete(e)
  }

  function NameOf(e: Json): string
  {
    AsString(Get(e, "name"))
  }

  /** Some configured event carries the name `n`. */
  predicate Explained(conf: Json, n: string)
  {
    exists e :: e in Entries(conf) && NameOf(e) == n
  }

  /** The names of the enabled entries, in configuration order. */
  function EnabledNames(es: seq<Json>): (r: seq<string>)
    ensures forall n :: n in r <==> exists e :: e in es && AsBool(Get(e, "enable")) && NameOf(e) == n
    decreases |es|
  {
    if es == [] then []
    else
      var init := es[..|es| - 1];
      var e := es[|es| - 1];
      assert forall x :: x in es <==> x in init || x == e;
      EnabledNames(init) + (if AsBool(Get(e, "enable")) then [NameOf(e)] else [])
  }

  /** The outcome of `initEvent` and the event list it leaves. */
  datatype Selection = Selection(ok: bool, conf: Json, events: seq<string>)

  /**
   * `initEvent`: the file must be readable and well formed; with `-e` the
   * selected events are its comma tokens and each must be configured;
   * without it they are the enabled events.
   */
  function InitEvent(readable: bool, parsed: Json, event: Option<string>, conf0: Json, events0: seq<string>): (r: Selection)
    ensures !readable ==> r == Selection(false, conf0, events0)
    ensures readable ==> r.conf == parsed
    ensures readable && !WellFormed(parsed) ==> !r.ok && r.events == events0
    ensures readable && WellFormed(parsed) && event.Some? ==>
      && r.events == events0 + Tokens(event.value, {','})
      && (r.ok <==> forall n :: n in r.events ==> Explained(parsed, n))
    ensures readable && WellFormed(parsed) && event.None? ==>
      r == Selection(true, parsed, events0 + EnabledNames(Entries(parsed)))
  {
    if !readable then Selection(false, conf0, events0)
    else if !WellFormed(parsed) then Selection(false, parsed, events0)
    else if event.Some? then
      var es := events0 + Tokens(event.value, {','});
      Selection(forall n :: n in es ==> Explained(parsed, n), parsed, es)
    else Selection(true, parsed, events0 + EnabledNames(Entries(parsed)))
  }

  /** The map value of an lttng event name. */
  function Kind(name: string): string
  {
    if name == SCHED_SWITCH then LTTNG_EVENT_KERNEL else LTTNG_EVENT_USER
  }

  /** `std::map::insert`: an existing key keeps its value. */
  function InsertAll(m: map<string, string>, keys: seq<string>): (r: map<string, string>)
    decreases |keys|
  {
    if keys == [] then m
    else
      var r := InsertAll(m, keys[..|keys| - 1]);
      var k := keys[|keys| - 1];
      if k in r then r else r[k := Kind(k)]
  }

  /** The lttng event names of one entry. */
  function LttngNames(e: Json): (r: seq<string>)
    ensures |r| == |Items(Get(e, "lttngEvents"))|
  {
    var xs := Items(Get(e, "lttngEvents"));
    seq(|xs|, k requires 0 <= k < |xs| => AsString(xs[k]))
  }

  /** The lttng event names of the selected entries, in configuration order. */
  function SelectedNames(es: seq<Json>, events: seq<string>): seq<string>
    decreases |es|
  {
    if es == [] then []
    else
      var e := es[|es| - 1];
      SelectedNames(es[..|es| - 1], events) + (if NameOf(e) in events then LttngNames(e) else [])
  }

  /** `getLttngEventsInfo`'s result: the map after inserting every selected lttng event. */
  function EventsInfo(conf: Json, events: seq<string>, m: map<string, string>): map<string, string>
  {
    InsertAll(m, SelectedNames(Entries(conf), events))
  }

  lemma {:induction false} InsertAllConcat(m: map<string, string>, a: seq<string>, b: seq<string>)
    ensures InsertAll(m, a + b) == InsertAll(InsertAll(m, a), b)
    decreases |b|
  {
    if b == [] {
      assert a + b == a;
    } else {
      var ab := a + b;
      assert ab[..|ab| - 1] == a + b[..|b| - 1];
      assert ab[|ab| - 1] == b[|b| - 1];
      InsertAllConcat(m, a, b[..|b| - 1]);
    }
  }

  /**
   * The map gains exactly the inserted names; a name already present keeps
   * its value, and a new one maps to `kernel` if it is `sched_switch` and to
   * `user` otherwise.
   */
  lemma {:induction false} InsertAllMeaning(m: map<string, string>, keys: seq<string>)
    ensures InsertAll(m, keys).Keys == m.Keys + set k | k in keys
    ensures forall k :: k in m ==> InsertAll(m, keys)[k] == m[k]
    ensures forall k :: k in InsertAll(m, keys) && k !in m ==> InsertAll(m, keys)[k] == Kind(k)
    decreases |keys|
  {
    if keys != [] {
      var init := keys[..|keys| - 1];
      InsertAllMeaning(m, init);
      assert forall k :: k in keys <==> k in init || k == keys[|keys| - 1];
    }
  }

  /**
   * The kernel flag `getLttngEventsInfo` raises: set once `sched_switch` is
   * among the selected lttng events, and never cleared.
   */
  function KernelFlag(conf: Json, events: seq<string>, flag: bool): bool
  {
    flag || SCHED_SWITCH in SelectedNames(Entries(conf), events)
  }

  class Configuration {
    var eventFile: string
    var hasKernelEvent: bool
    var eventConf: Json
    var events: seq<string>

    constructor()
      ensures eventFile == SESSION_EVENT_CONF && !hasKernelEvent
      ensures eventConf == JObj(map[]) && events == []
    {
      eventFile := SESSION_EVENT_CONF;
      hasKernelEvent := false;
      eventConf := JObj(map[]);
      events := [];
    }

    /** `initialize`: a `-c` path replaces the default, then `initEvent` runs. */
    method Initialize(config: Option<string>, event: Option<string>, readable: bool, parsed: Json) returns (ok: bool)
      modifies this`eventFile, this`eventConf, this`events
      ensures eventFile == if config.Some? then config.value else old(eventFile)
      ensures Selection(ok, eventConf, events) == InitEvent(readable, parsed, event, old(eventConf), old(events))
    {
      if config.Some? {
        eventFile := config.value;
      }
      ok := InitEventFrom(event, readable, parsed);
    }

    /** Whether every entry is complete, scanning in order as `initEvent` does. */
    method CheckEntries(es: seq<Json>) returns (ok: bool)
      ensures ok <==> forall e :: e in es ==> Complete(e)
    {
      var i := 0;
      while i < |es|
        invariant 0 <= i <= |es|
        invariant forall j :: 0 <= j < i ==> Complete(es[j])
      {
        if !HasKey(es[i], "name") || !HasKey(es[i], "enable") || !HasKey(es[i], "lttngEvents") {
          assert es[i] in es;
          return false;
        }
        i := i + 1;
      }
      return true;
    }

    /** Whether every name is carried by some entry. */
    method CheckExplained(es: seq<Json>, names: seq<string>) returns (ok: bool)
      ensures ok <==> forall n :: n in names ==> exists e :: e in es && NameOf(e) == n
    {
      var i := 0;
      while i < |names|
        invariant 0 <= i <= |names|
        invariant forall j :: 0 <= j < i ==> exists e :: e in es && NameOf(e) == names[j]
      {
        var explained := false;
        var j := 0;
        while j < |es|
          invariant 0 <= j <= |es|
          invariant explained <==> exists e :: e in es[..j] && NameOf(e) == names[i]
        {
          assert es[..j + 1] == es[..j] + [es[j]];
          if NameOf(es[j]) == names[i] {
            explained := true;
          }
          j := j + 1;
        }
        assert es[..j] == es;
        if !explained {
          assert names[i] in names;
          return false;
        }
        i := i + 1;
      }
      return true;
    }

    /** `initEvent`, with `access` and `parseFile` answered by the parameters. */
    method InitEventFrom(event: Option<string>, readable: bool, parsed: Json) returns (ok: bool)
      modifies this`eventConf, this`events
      ensures Selection(ok, eventConf, events) == InitEvent(readable, parsed, event, old(eventConf), old(events))
    {
      if !readable {
        return false;
      }
      eventConf := parsed;
      if !HasKey(eventConf, "events") {
        return false;
      }
      var es := Items(Get(eventConf, "events"));
      ok := CheckEntries(es);
      if !ok {
        return;
      }
      if event.Some? {
        events := Tokenize(event.value, events, {','});
        ok := CheckExplained(es, events);
      } else {
        var i := 0;
        while i < |es|
          invariant 0 <= i <= |es| && eventConf == parsed
          invariant events == old(events) + EnabledNames(es[..i])
        {
          assert es[..i + 1][..i] == es[..i];
          if AsBool(Get(es[i], "enable")) {
            events := events + [NameOf(es[i])];
          }
          i := i + 1;
        }
        assert es[..i] == es;
        ok := true;
      }
    }

    /**
     * The inner loop of `getLttngEventsInfo`: inserts one entry's lttng
     * events, raising the kernel flag on `sched_switch`.
     */
    method InsertLttngNames(r0: map<string, string>, names: seq<string>) returns (r: map<string, string>)
      modifies this`hasKernelEvent
      ensures r == InsertAll(r0, names)
      ensures hasKernelEvent == (old(hasKernelEvent) || SCHED_SWITCH in names)
    {
      r := r0;
      var j := 0;
      while j < |names|
        invariant 0 <= j <= |names|
        invariant r == InsertAll(r0, names[..j])
        invariant hasKernelEvent == (old(hasKernelEvent) || SCHED_SWITCH in names[..j])
      {
        assert names[..j + 1] == names[..j] + [names[j]];
        var name := names[j];
        if !(name in r) {
          r := r[name := Kind(name)];
        }
        if name == SCHED_SWITCH {
          hasKernelEvent := true;
        }
        j := j + 1;
      }
      assert names[..j] == names;
    }

    /**
     * `getLttngEventsInfo`: inserts every lttng event of every selected entry
     * into the caller's map, and raises the kernel flag on `sched_switch`.
     * It always succeeds.
     */
    method GetLttngEventsInfo(m: map<string, string>) returns (ok: bool, r: map<string, string>)
      modifies this`hasKernelEvent
      ensures ok
      ensures r == EventsInfo(eventConf, events, m)
      ensures hasKernelEvent == KernelFlag(eventConf, events, old(hasKernelEvent))
    {
      var es := Items(Get(eventConf, "events"));
      r := m;
      var i := 0;
      while i < |es|
        invariant 0 <= i <= |es|
        invariant r == InsertAll(m, SelectedNames(es[..i], events))
        invariant hasKernelEvent == (old(hasKernelEvent) || SCHED_SWITCH in SelectedNames(es[..i], events))
      {
        var cur := es[i];
        assert es[..i + 1][..i] == es[..i];
        assert es[..i + 1][i] == cur;
        if NameOf(cur) in events {
          var names := LttngNames(cur);
          InsertAllConcat(m, SelectedNames(es[..i], events), names);
          r := InsertLttngNames(r, names);
          assert SelectedNames(es[..i + 1], events) == SelectedNames(es[..i], events) + names;
        } else {
          assert SelectedNames(es[..i + 1], events) == SelectedNames(es[..i], events) + [];
          assert SelectedNames(es[..i], events) + [] == SelectedNames(es[..i], events);
        }
        i := i + 1;
      }
      assert es[..i] == es;
      ok := true;
    }
  }

  /**
   * After `getLttngEventsInfo` the map holds every lttng event of every
   * selected entry, `sched_switch` as `kernel` and the others as `user`,
   * unless the caller's map already held the name.
   */
  lemma {:induction false} EventsInfoMeaning(conf: Json, events: seq<string>, m: map<string, string>, name: string)
    requires name !in m
    ensures name in EventsInfo(conf, events, m) <==>
      exists e :: e in Entries(conf) && NameOf(e) in events && name in LttngNames(e)
    ensures name in EventsInfo(conf, events, m) ==> EventsInfo(conf, events, m)[name] == Kind(name)
  {
    InsertAllMeaning(m, SelectedNames(Entries(conf), events));
    SelectedNamesMembers(Entries(conf), events, name);
  }

  lemma {:induction false} SelectedNamesMembers(es: seq<Json>, events: seq<string>, name: string)
    ensures name in SelectedNames(es, events) <==> exists e :: e in es && NameOf(e) in events && name in LttngNames(e)
    decreases |es|
  {
    if es != [] {
      var init := es[..|es| - 1];
      SelectedNamesMembers(init, events, name);
      assert forall x :: x in es <==> x in init || x == es[|es| - 1];
    }
  }
}
