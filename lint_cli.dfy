/** LintCli.parse: the command-line mode flags. */
module LintCli {
  import opened Wrappers
  import opened Commands

  /** The mode flags, matched exactly, case-sensitively and only as the first argument. */
  predicate IsAdviceFlag(arg: string) { arg == "--llm" || arg == "--advice" }

  predicate IsUmlFlag(arg: string) { arg == "--uml" }

  /** parse: a leading --llm/--advice or --uml selects that mode and is dropped; any
      other first argument is a target of the default LINT mode; null or no arguments
      give LINT with no targets. */
  function Parse(args: Option<seq<string>>): (c: Command)
    ensures c.mode.Some?
    ensures args.None? || args.value == [] ==> c == Command(Some(LINT), [])
    ensures args.Some? && args.value != [] ==>
      (c.mode == Some(ADVICE) <==> IsAdviceFlag(args.value[0]))
      && (c.mode == Some(UML) <==> IsUmlFlag(args.value[0]))
      && (c.targets == if IsAdviceFlag(args.value[0]) || IsUmlFlag(args.value[0])
                       then args.value[1..] else args.value)
  {
    if args.None? || |args.value| == 0 then NewCommand(Some(LINT), Some([]))
    else
      var first := args.value[0];
      var targets := if |args.value| > 1 then args.value[1..] else [];
      if first == "--llm" || first == "--advice" then NewCommand(Some(ADVICE), Some(targets))
      else if first == "--uml" then NewCommand(Some(UML), Some(targets))
      else NewCommand(Some(LINT), Some(args.value))
  }

  /** The command line that selects `mode` for `targets`. */
  function Render(mode: Mode, targets: seq<string>): seq<string>
  {
    match mode
    case LINT => targets
    case UML => ["--uml"] + targets
    case ADVICE => ["--advice"] + targets
  }

  /** Parse inverts Render, unless LINT's first target would itself read as a flag. */
  lemma ParseRender(mode: Mode, targets: seq<string>)
    requires mode == LINT && targets != [] ==> !IsAdviceFlag(targets[0]) && !IsUmlFlag(targets[0])
    ensures Parse(Some(Render(mode, targets))) == Command(Some(mode), targets)
  {
    match mode
    case LINT =>
    case UML =>
      assert (["--uml"] + targets)[1..] == targets;
    case ADVICE =>
      assert (["--advice"] + targets)[1..] == targets;
  }
}
