/**
 * The command-line options of `pmctl session`
 * (src/pmctl/performance-session/option/OptionHandler.cpp).
 *
 * `getopt_long` is not modelled: `handleOptions` receives the options it
 * would hand over, in order, as `Opt` values, and the positional words
 * (`start`, `stop`) are looked up in the argument vector as `checkCommand`
 * does.
 */
module SessionOptions {
  import opened Wrappers

  /** One option as getopt delivers it; `None` is a NULL `optarg`. */
  datatype Opt =
    | Help
    | Config(arg: Option<string>)
    | Event(arg: Option<string>)
    | Debug
    | Unknown

  /** An option's value together with its `m_has*` flag. */
  datatype Arg = Arg(given: bool, value: string)

  /** The option handler's fields other than the argument vector. */
  datatype Settings = Settings(hasHelp: bool, hasDebug: bool, config: Arg, event: Arg, cmd: string)

  /** The fields as the constructor leaves them. */
  const Fresh := Settings(false, false, Arg(false, ""), Arg(false, ""), "")

  const START: string := "start"
  const STOP: string := "stop"

  predicate Mentions(argv: seq<string>, w: string)
  {
    exists i :: 0 <= i < |argv| && argv[i] == w
  }

  /** Appending one word to the argument vector. */
  lemma MentionsSnoc(xs: seq<string>, x: string, w: string, c: string)
    ensures Mentions(xs + [x], w) <==> Mentions(xs, w) || x == w
    ensures LastCommand(xs + [x], c) == if x == START || x == STOP then x else LastCommand(xs, c)
  {
    assert (xs + [x])[..|xs|] == xs;
    assert forall j :: 0 <= j < |xs| ==> (xs + [x])[j] == xs[j];
    assert (xs + [x])[|xs|] == x;
  }

  /** Exactly one of the two commands is named. */
  predicate OneCommand(argv: seq<string>)
  {
    Mentions(argv, START) != Mentions(argv, STOP)
  }

  /** The last command word in `argv`, or `cmd` when there is none. */
  function LastCommand(argv: seq<string>, cmd: string): string
    decreases |argv|
  {
    if argv == [] then cmd
    else
      var w := argv[|argv| - 1];
      if w == START || w == STOP then w else LastCommand(argv[..|argv| - 1], cmd)
  }

  /** With exactly one command word present, it is the one recorded. */
  lemma {:induction false} LastCommandIsOnly(argv: seq<string>, cmd: string)
    requires OneCommand(argv)
    ensures LastCommand(argv, cmd) == (if Mentions(argv, START) then START else STOP)
    decreases |argv|
  {
    var n := |argv|;
    var w := argv[n - 1];
    if w != START && w != STOP {
      var init := argv[..n - 1];
      assert forall i :: 0 <= i < n - 1 ==> init[i] == argv[i];
      assert Mentions(argv, START) ==> Mentions(init, START);
      assert Mentions(argv, STOP) ==> Mentions(init, STOP);
      assert Mentions(init, START) ==> Mentions(argv, START);
      assert Mentions(init, STOP) ==> Mentions(argv, STOP);
      LastCommandIsOnly(init, cmd);
    }
  }

  /** One setter: the new fields and whether option handling goes on. */
  function Apply(s: Settings, o: Opt): (Settings, bool)
  {
    match o
    case Help => (s.(hasHelp := true), true)
    case Config(a) => if a.None? then (s, false) else (s.(config := Arg(true, a.value)), true)
    case Event(a) => if a.None? then (s, false) else (s.(event := Arg(true, a.value)), true)
    case Debug => (s.(hasDebug := true), true)
    case Unknown => (s, true)
  }

  /**
   * `handleOptions`: help ends it successfully, a failing setter ends it with
   * false, and once the options run out `checkCommand` decides.
   */
  function Handle(s: Settings, opts: seq<Opt>, argv: seq<string>): (Settings, bool)
    decreases |opts|
  {
    if opts == [] then (s.(cmd := LastCommand(argv, s.cmd)), OneCommand(argv))
    else
      var (s', ok) := Apply(s, opts[0]);
      if opts[0].Help? then (s', true)
      else if !ok then (s', false)
      else Handle(s', opts[1..], argv)
  }

  /** An option that ends handling before the command check. */
  predicate Stops(o: Opt)
  {
    o.Help? || ((o.Config? || o.Event?) && o.arg.None?)
  }

  /** The index of the first option that stops handling, or `|opts|`. */
  function FirstStop(opts: seq<Opt>): (k: nat)
    ensures k <= |opts|
    ensures forall j :: 0 <= j < k ==> !Stops(opts[j])
    ensures k < |opts| ==> Stops(opts[k])
    decreases |opts|
  {
    if opts == [] then 0
    else if Stops(opts[0]) then 0
    else
      var k := FirstStop(opts[1..]);
      assert forall j :: 1 <= j < |opts| ==> opts[j] == opts[1..][j - 1];
      1 + k
  }

  /**
   * `handleOptions` succeeds iff it reaches help before any NULL argument, or
   * reaches the end of the options with exactly one of `start`/`stop` in the
   * argument vector.
   */
  lemma {:induction false} HandleOutcome(s: Settings, opts: seq<Opt>, argv: seq<string>)
    ensures var k := FirstStop(opts);
      Handle(s, opts, argv).1 <==> if k < |opts| then opts[k].Help? else OneCommand(argv)
    decreases |opts|
  {
    if opts != [] && !Stops(opts[0]) {
      HandleOutcome(Apply(s, opts[0]).0, opts[1..], argv);
    }
  }

  /** `-h` first is accepted whatever follows and whatever command is named (or not). */
  lemma {:induction false} HelpShortCircuit(s: Settings, rest: seq<Opt>, argv: seq<string>)
    ensures Handle(s, [Help] + rest, argv) == (s.(hasHelp := true), true)
  {
  }

  /** Without help the command words decide, and the recorded command is the one named. */
  lemma {:induction false} CommandDecides(s: Settings, argv: seq<string>)
    ensures Handle(s, [], argv).1 <==> OneCommand(argv)
    ensures Handle(s, [], argv).1 ==>
      Handle(s, [], argv).0.cmd == if Mentions(argv, START) then START else STOP
  {
    if OneCommand(argv) {
      LastCommandIsOnly(argv, s.cmd);
    }
  }

  /** `-d` sets the debug flag and option handling goes on. */
  lemma {:induction false} DebugContinues(s: Settings, rest: seq<Opt>, argv: seq<string>)
    ensures Handle(s, [Debug] + rest, argv) == Handle(s.(hasDebug := true), rest, argv)
  {
    assert ([Debug] + rest)[1..] == rest;
  }

  /** `-c`/`-e` fail on a NULL argument and otherwise store it and set the flag. */
  lemma {:induction false} SetterRule(s: Settings, a: Option<string>)
    ensures Apply(s, Config(a)) == if a.None? then (s, false) else (s.(config := Arg(true, a.value)), true)
    ensures Apply(s, Event(a)) == if a.None? then (s, false) else (s.(event := Arg(true, a.value)), true)
  {
  }

  class OptionHandler {
    var argv: seq<string>
    var hasHelp: bool
    var hasDebug: bool
    var hasConfig: bool
    var hasEvent: bool
    var config: string
    var event: string
    var cmd: string

    function Current(): Settings
      reads this
    {
      Settings(hasHelp, hasDebug, Arg(hasConfig, config), Arg(hasEvent, event), cmd)
    }

    constructor(args: seq<string>)
      ensures argv == args && Current() == Fresh
    {
      argv := args;
      hasHelp, hasDebug, hasConfig, hasEvent := false, false, false, false;
      config, event, cmd := "", "", "";
    }

    method SetConfig(arg: Option<string>) returns (ok: bool)
      modifies this
      ensures argv == old(argv) && (Current(), ok) == Apply(old(Current()), Config(arg))
    {
      if arg.None? {
        return false;
      }
      config := arg.value;
      hasConfig := true;
      return true;
    }

    method SetEvent(arg: Option<string>) returns (ok: bool)
      modifies this
      ensures argv == old(argv) && (Current(), ok) == Apply(old(Current()), Event(arg))
    {
      if arg.None? {
        return false;
      }
      event := arg.value;
      hasEvent := true;
      return true;
    }

    /**
     * `checkCommand`: true iff exactly one of `start` and `stop` appears;
     * the command recorded is the last such word.
     */
    method CheckCommand() returns (ok: bool)
      modifies this`cmd
      ensures ok <==> OneCommand(argv)
      ensures cmd == LastCommand(argv, old(cmd))
    {
      var start, stop := false, false;
      var i := 0;
      while i < |argv|
        invariant 0 <= i <= |argv|
        invariant start <==> Mentions(argv[..i], START)
        invariant stop <==> Mentions(argv[..i], STOP)
        invariant cmd == LastCommand(argv[..i], old(cmd))
      {
        assert argv[..i + 1] == argv[..i] + [argv[i]];
        MentionsSnoc(argv[..i], argv[i], START, old(cmd));
        MentionsSnoc(argv[..i], argv[i], STOP, old(cmd));
        if argv[i] == START {
          cmd := START;
          start := true;
        }
        if argv[i] == STOP {
          cmd := STOP;
          stop := true;
        }
        i := i + 1;
      }
      assert argv[..i] == argv;
      ok := start != stop;
    }

    /** `handleOptions`: the getopt loop over the delivered options, then the command check. */
    method HandleOptions(opts: seq<Opt>) returns (ok: bool)
      modifies this
      ensures argv == old(argv) && (Current(), ok) == Handle(old(Current()), opts, argv)
    {
      var i := 0;
      while i < |opts|
        invariant 0 <= i <= |opts| && argv == old(argv)
        invariant Handle(old(Current()), opts, argv) == Handle(Current(), opts[i..], argv)
      {
        var o := opts[i];
        assert opts[i..][1..] == opts[i + 1..];
        match o {
        case Help =>
          hasHelp := true;
          return true;
        case Config(a) =>
          ok := SetConfig(a);
          if !ok { return; }
        case Event(a) =>
          ok := SetEvent(a);
          if !ok { return; }
        case Debug =>
          hasDebug := true;
        case Unknown =>
        }
        i := i + 1;
      }
      ok := CheckCommand();
    }
  }
}
