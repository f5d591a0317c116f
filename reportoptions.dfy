/**
 * The command-line options of `pmctl session-report`
 * (src/pmctl/performance-session-report/option/OptionHandler.cpp).
 *
 * `getopt_long` is not modelled: `handleOptions` receives the options it
 * would hand over, in order, as `Opt` values. The file-system answers of
 * `access(R_OK)` and `fopen("w")` travel with the option they concern.
 */
module ReportOptions {
  import opened Wrappers
  import opened Util

  /** One option as getopt delivers it; `None` is a NULL `optarg`. */
  datatype Opt =
    | Help
    | Config(arg: Option<string>, readable: bool)
    | Enable(arg: Option<string>)
    | Input(arg: Option<string>, readable: bool)
    | Output(arg: Option<string>, writable: bool)
    | Process(arg: Option<string>)
    | Measure(arg: Option<string>)
    | Debug
    | Unknown

  /** An option's value together with its `m_has*` flag. */
  datatype Arg<T> = Arg(given: bool, value: T)

  /** The three view flags `-e` selects. */
  datatype Views = Views(user: bool, group: bool, cpu: bool)

  /** The option handler's fields other than the argument vector. */
  datatype Settings = Settings(
    hasHelp: bool, hasDebug: bool, config: Arg<string>, input: Arg<string>, output: Arg<string>,
    view: Arg<string>, process: Arg<string>, measure: Arg<int>, views: Views)

  const NoArg := Arg(false, "")

  /** The fields as the constructor leaves them, before `checkDebug` runs. */
  const Fresh := Settings(false, false, NoArg, NoArg, NoArg, NoArg, NoArg, Arg(false, 0), Views(false, false, false))

  predicate IsDebugArg(a: string)
  {
    a == "-d" || a == "--debug"
  }

  predicate DebugRequested(argv: seq<string>)
  {
    exists i :: 0 <= i < |argv| && IsDebugArg(argv[i])
  }

  /** The bounds `setMeasure` accepts, in milliseconds. */
  const MEASURE_MIN := 1
  const MEASURE_MAX := 1000

  predicate MeasureInRange(v: int)
  {
    MEASURE_MIN <= v <= MEASURE_MAX
  }

  /** The user, group and cpu view flags `-e` selects, by substring. */
  function ViewFlags(v: string): Views
  {
    Views(Contains(v, "user"), Contains(v, "group"), Contains(v, "cpu"))
  }

  /** `setView`: the argument and its flags are stored before the check that one view is named. */
  function ApplyView(s: Settings, a: Option<string>): (r: (Settings, bool))
    ensures r.0.hasHelp == s.hasHelp
    ensures r.1 <==> a.Some? && ViewFlags(a.value) != Views(false, false, false)
  {
    if a.None? then (s, false)
    else
      var v := ViewFlags(a.value);
      (s.(view := Arg(true, a.value), views := v), v.user || v.group || v.cpu)
  }

  /** `setMeasure`: `atol` of the argument, accepted only inside the bounds. */
  function ApplyMeasure(s: Settings, a: Option<string>): (r: (Settings, bool))
    ensures r.0.hasHelp == s.hasHelp
    ensures r.1 <==> a.Some? && MeasureInRange(Atoi(a.value))
  {
    if a.None? then (s, false)
    else
      var v := Atoi(a.value);
      if !MeasureInRange(v) then (s, false) else (s.(measure := Arg(true, v)), true)
  }

  /**
   * One setter: the new fields and whether option handling goes on. Help
   * ends it successfully; a failing setter ends it with false.
   */
  function Apply(s: Settings, o: Opt): (Settings, bool)
  {
    match o
    case Help => (s.(hasHelp := true), true)
    case Config(a, readable) =>
      if a.None? || !readable then (s, false) else (s.(config := Arg(true, a.value)), true)
    case Enable(a) => ApplyView(s, a)
    case Input(a, readable) =>
      if a.None? || !readable then (s, false) else (s.(input := Arg(true, a.value)), true)
    case Output(a, writable) =>
      if a.None? || !writable then (s, false) else (s.(output := Arg(true, a.value)), true)
    case Process(a) =>
      if a.None? then (s, false) else (s.(process := Arg(true, a.value)), true)
    case Measure(a) => ApplyMeasure(s, a)
    case Debug => (s, true)
    case Unknown => (s, true)
  }

  /** A setter that fails whatever the fields hold: a NULL or rejected argument. */
  predicate Fails(o: Opt)
  {
    match o
    case Config(a, readable) => a.None? || !readable
    case Enable(a) => a.None? || ViewFlags(a.value) == Views(false, false, false)
    case Input(a, readable) => a.None? || !readable
    case Output(a, writable) => a.None? || !writable
    case Process(a) => a.None?
    case Measure(a) => a.None? || !MeasureInRange(Atoi(a.value))
    case _ => false
  }

  /** A setter's verdict depends on its option alone. */
  lemma {:induction false} ApplyVerdict(s: Settings, o: Opt)
    ensures Apply(s, o).1 <==> !Fails(o)
  {
  }

  /** Only `-h` sets the help flag. */
  lemma {:induction false} HelpUntouched(s: Settings, o: Opt)
    requires !o.Help?
    ensures Apply(s, o).0.hasHelp == s.hasHelp
  {
    match o {
      case Config(a, readable) =>
      case Enable(a) =>
      case Input(a, readable) =>
      case Output(a, writable) =>
      case Process(a) =>
      case Measure(a) =>
      case Debug =>
      case Unknown =>
    }
  }

  /** `handleOptions` over the options getopt delivers. */
  function Handle(s: Settings, opts: seq<Opt>): (Settings, bool)
    decreases |opts|
  {
    if opts == [] then (s, true)
    else
      var (s', ok) := Apply(s, opts[0]);
      if opts[0].Help? then (s', true)
      else if !ok then (s', false)
      else Handle(s', opts[1..])
  }

  /** The index of the first option that ends handling (help or a failing setter), or `|opts|`. */
  function FirstStop(opts: seq<Opt>): (k: nat)
    ensures k <= |opts|
    ensures forall j :: 0 <= j < k ==> !opts[j].Help? && !Fails(opts[j])
    ensures k < |opts| ==> opts[k].Help? || Fails(opts[k])
    decreases |opts|
  {
    if opts == [] then 0
    else if opts[0].Help? || Fails(opts[0]) then 0
    else
      var k := FirstStop(opts[1..]);
      assert forall j :: 1 <= j < |opts| ==> opts[j] == opts[1..][j - 1];
      1 + k
  }

  /**
   * `handleOptions` succeeds iff it reaches help, or runs out of options,
   * before any setter fails; the help flag ends up set exactly when help is
   * reached.
   */
  lemma {:induction false} HandleOutcome(s: Settings, opts: seq<Opt>)
    ensures var k := FirstStop(opts);
      && (Handle(s, opts).1 <==> k == |opts| || opts[k].Help?)
      && (Handle(s, opts).0.hasHelp <==> s.hasHelp || (k < |opts| && opts[k].Help?))
    decreases |opts|
  {
    if opts != [] {
      ApplyVerdict(s, opts[0]);
      var s' := Apply(s, opts[0]).0;
      if !opts[0].Help? {
        HelpUntouched(s, opts[0]);
        if !Fails(opts[0]) {
          HandleOutcome(s', opts[1..]);
          assert Handle(s, opts) == Handle(s', opts[1..]);
        } else {
          assert Handle(s, opts) == (s', false);
        }
      }
    }
  }

  /** `-h` first is accepted whatever follows, and only sets the help flag. */
  lemma {:induction false} HelpFirst(s: Settings, rest: seq<Opt>)
    ensures Handle(s, [Help] + rest) == (s.(hasHelp := true), true)
  {
  }

  /**
   * `setMeasure` accepts exactly the values 1 to 1000 `atol` reads, and
   * leaves every field alone when it rejects one.
   */
  lemma {:induction false} MeasureRule(s: Settings, a: Option<string>)
    ensures var (r, ok) := Apply(s, Measure(a));
      && (ok <==> a.Some? && 1 <= Atoi(a.value) <= 1000)
      && (ok ==> r == s.(measure := Arg(true, Atoi(a.value))))
      && (!ok ==> r == s)
  {
  }

  /**
   * `setView` records the argument and the three view flags (by substring)
   * even when it then fails because none of `user`, `group`, `cpu` occurs.
   */
  lemma {:induction false} ViewRule(s: Settings, v: string)
    ensures var (r, ok) := Apply(s, Enable(Some(v)));
      && r.view == Arg(true, v)
      && (r.views.user <==> exists i: nat :: OccursAt(v, "user", i))
      && (r.views.group <==> exists i: nat :: OccursAt(v, "group", i))
      && (r.views.cpu <==> exists i: nat :: OccursAt(v, "cpu", i))
      && (ok <==> r.views.user || r.views.group || r.views.cpu)
  {
    ContainsIff(v, "user");
    ContainsIff(v, "group");
    ContainsIff(v, "cpu");
  }

  /** A NULL argument fails every setter that takes one, and changes nothing. */
  lemma {:induction false} NullArgumentFails(s: Settings, o: Opt)
    requires !o.Help? && !o.Debug? && !o.Unknown? && o.arg.None?
    ensures Apply(s, o) == (s, false)
  {
  }

  /** `-d` and unrecognised options change nothing and do not stop handling. */
  lemma {:induction false} DebugContinues(s: Settings, rest: seq<Opt>)
    ensures Handle(s, [Debug] + rest) == Handle(s, rest)
    ensures Handle(s, [Unknown] + rest) == Handle(s, rest)
  {
    assert ([Debug] + rest)[1..] == rest;
    assert ([Unknown] + rest)[1..] == rest;
  }

  class OptionHandler {
    var argv: seq<string>
    var hasHelp: bool
    var hasDebug: bool
    var hasConfig: bool
    var hasInput: bool
    var hasOutput: bool
    var hasView: bool
    var hasProcess: bool
    var hasMeasure: bool
    var config: string
    var input: string
    var output: string
    var view: string
    var process: string
    var measure: int
    var optUserView: bool
    var optGroupView: bool
    var optCpuView: bool

    function Current(): Settings
      reads this
    {
      Settings(hasHelp, hasDebug, Arg(hasConfig, config), Arg(hasInput, input), Arg(hasOutput, output),
               Arg(hasView, view), Arg(hasProcess, process), Arg(hasMeasure, measure),
               Views(optUserView, optGroupView, optCpuView))
    }

    /** Copies the arguments and looks for the debug switch. */
    constructor(args: seq<string>)
      ensures argv == args
      ensures Current() == Fresh.(hasDebug := DebugRequested(args))
    {
      argv := args;
      hasHelp, hasDebug, hasConfig, hasInput := false, false, false, false;
      hasOutput, hasView, hasProcess, hasMeasure := false, false, false, false;
      config, input, output, view, process, measure := "", "", "", "", "", 0;
      optUserView, optGroupView, optCpuView := false, false, false;
      new;
      CheckDebug();
    }

    /** `checkDebug`: sets the debug flag iff some argument is `-d` or `--debug`. */
    method CheckDebug()
      modifies this`hasDebug
      ensures hasDebug == (old(hasDebug) || DebugRequested(argv))
    {
      var i := 0;
      while i < |argv|
        invariant 0 <= i <= |argv| && hasDebug == old(hasDebug)
        invariant forall j :: 0 <= j < i ==> !IsDebugArg(argv[j])
      {
        if IsDebugArg(argv[i]) {
          hasDebug := true;
          return;
        }
        i := i + 1;
      }
    }

    method SetConfig(arg: Option<string>, readable: bool) returns (ok: bool)
      modifies this
      ensures argv == old(argv) && (Current(), ok) == Apply(old(Current()), Config(arg, readable))
    {
      if arg.None? || !readable {
        return false;
      }
      config := arg.value;
      hasConfig := true;
      return true;
    }

    method SetInput(arg: Option<string>, readable: bool) returns (ok: bool)
      modifies this
      ensures argv == old(argv) && (Current(), ok) == Apply(old(Current()), Input(arg, readable))
    {
      if arg.None? || !readable {
        return false;
      }
      input := arg.value;
      hasInput := true;
      return true;
    }

    method SetOutput(arg: Option<string>, writable: bool) returns (ok: bool)
      modifies this
      ensures argv == old(argv) && (Current(), ok) == Apply(old(Current()), Output(arg, writable))
    {
      if arg.None? || !writable {
        return false;
      }
      output := arg.value;
      hasOutput := true;
      return true;
    }

    method SetView(arg: Option<string>) returns (ok: bool)
      modifies this
      ensures argv == old(argv) && (Current(), ok) == ApplyView(old(Current()), arg)
    {
      if arg.None? {
        return false;
      }
      view := arg.value;
      hasView := true;
      var flags := ViewFlags(arg.value);
      optUserView := flags.user;
      optGroupView := flags.group;
      optCpuView := flags.cpu;
      ok := optUserView || optGroupView || optCpuView;
    }

    method SetProcess(arg: Option<string>) returns (ok: bool)
      modifies this
      ensures argv == old(argv) && (Current(), ok) == Apply(old(Current()), Process(arg))
    {
      if arg.None? {
        return false;
      }
      process := arg.value;
      hasProcess := true;
      return true;
    }

    method SetMeasure(arg: Option<string>) returns (ok: bool)
      modifies this
      ensures argv == old(argv) && (Current(), ok) == ApplyMeasure(old(Current()), arg)
    {
      if arg.None? {
        return false;
      }
      var temp := Atoi(arg.value);
      if temp < MEASURE_MIN || MEASURE_MAX < temp {
        return false;
      }
      measure := temp;
      hasMeasure := true;
      return true;
    }

    /** `handleOptions`: the getopt loop over the delivered options. */
    method HandleOptions(opts: seq<Opt>) returns (ok: bool)
      modifies this
      ensures argv == old(argv) && (Current(), ok) == Handle(old(Current()), opts)
    {
      var i := 0;
      while i < |opts|
        invariant 0 <= i <= |opts| && argv == old(argv)
        invariant Handle(old(Current()), opts) == Handle(Current(), opts[i..])
      {
        var o := opts[i];
        assert opts[i..][1..] == opts[i + 1..];
        match o {
        case Help =>
          hasHelp := true;
          return true;
        case Config(a, readable) =>
          ok := SetConfig(a, readable);
          if !ok { return; }
        case Enable(a) =>
          ok := SetView(a);
          if !ok { return; }
        case Input(a, readable) =>
          ok := SetInput(a, readable);
          if !ok { return; }
        case Output(a, writable) =>
          ok := SetOutput(a, writable);
          if !ok { return; }
        case Process(a) =>
          ok := SetProcess(a);
          if !ok { return; }
        case Measure(a) =>
          ok := SetMeasure(a);
          if !ok { return; }
        case Debug =>
        case Unknown =>
        }
        i := i + 1;
      }
      return true;
    }
  }
}
