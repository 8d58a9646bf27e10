/** Command: the parsed command line, a mode (possibly null) and a target list. */
module Commands {
  import opened Wrappers

  datatype Mode = LINT | UML | ADVICE

  datatype Command = Command(mode: Option<Mode>, targets: seq<string>)

  /** The constructor: a null target list is stored as the empty list. */
  function NewCommand(mode: Option<Mode>, targets: Option<seq<string>>): (c: Command)
    ensures c.mode == mode
    ensures targets.None? ==> c.targets == []
    ensures targets.Some? ==> c.targets == targets.value
  {
    Command(mode, if targets.None? then [] else targets.value)
  }

  /** Command.of(mode, targets...): the varargs array as the target list (a null array
      gives the empty list). */
  function Of(mode: Option<Mode>, targets: Option<seq<string>>): (c: Command)
    ensures c.mode == mode
    ensures c.targets == (if targets.None? then [] else targets.value)
  {
    NewCommand(mode, if targets.None? then Some([]) else targets)
  }
}
