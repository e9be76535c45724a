/**
 * What a terminal command can render, the "command not found" message and
 * the rows of the help listing.
 *
 * The `Command` record type is declared in CommandList.tsx and imported by
 * CommandOutput.tsx; here it lives in this module so that the command table
 * can depend on the outputs without a cycle between modules.
 */
module CommandOutput {
  import opened Wrappers

  /** The static content panels, each a fixed piece of markup. */
  datatype Panel =
    | AboutPanel | ExperiencePanel | ProjectsPanel | SkillsPanel
    | AchievementsPanel | ContactPanel | SudoPanel | WelcomePanel | HintPanel

  /** One line of the help listing: a command's name and its description. */
  datatype HelpRow = HelpRow(name: string, description: string)

  /** What an action returns: a panel, the help listing, the AI question
   *  widget with its system prompt, a plain string, or `null`. */
  datatype Output =
    | Component(panel: Panel)
    | HelpListing(rows: seq<HelpRow>)
    | AskWidget(prompt: string)
    | Text(text: string)
    | Null

  /** The action thunk of a command, by what it renders. */
  datatype Action =
    | Render(panel: Panel)
    | ListCommands
    | Ask(prompt: string)
    | Nothing

  datatype Command = Command(name: string, description: string, action: Action)

  const NotFoundPrefix: string := "Command not found: "
  const NotFoundSuffix: string := ". Type 'help' to see available commands."

  /**
   * The message for an unknown command: the command text appears verbatim,
   * neither escaped nor truncated, between a fixed prefix and suffix.
   */
  function CommandNotFoundOutput(command: string): (msg: string)
    ensures |msg| == |NotFoundPrefix| + |command| + |NotFoundSuffix|
    ensures msg[..|NotFoundPrefix|] == NotFoundPrefix
    ensures msg[|NotFoundPrefix|..|NotFoundPrefix| + |command|] == command
    ensures msg[|NotFoundPrefix| + |command|..] == NotFoundSuffix
  {
    NotFoundPrefix + command + NotFoundSuffix
  }

  /** Recovers the command text from a "command not found" message. */
  function UnknownCommandOf(msg: string): (c: Option<string>)
    ensures c.Some? ==> |c.value| + |NotFoundPrefix| + |NotFoundSuffix| == |msg|
  {
    var fixed := |NotFoundPrefix| + |NotFoundSuffix|;
    if |msg| >= fixed
       && msg[..|NotFoundPrefix|] == NotFoundPrefix
       && msg[|msg| - |NotFoundSuffix|..] == NotFoundSuffix
    then Some(msg[|NotFoundPrefix|..|msg| - |NotFoundSuffix|])
    else None
  }

  /** The command text can be read back from its message. */
  lemma NotFoundRoundTrip(command: string)
    ensures UnknownCommandOf(CommandNotFoundOutput(command)) == Some(command)
  {
    var msg := CommandNotFoundOutput(command);
    assert msg[|msg| - |NotFoundSuffix|..] == NotFoundSuffix;
  }

  /** Distinct commands give distinct messages. */
  lemma NotFoundInjective(a: string, b: string)
    requires CommandNotFoundOutput(a) == CommandNotFoundOutput(b)
    ensures a == b
  {
    NotFoundRoundTrip(a);
    NotFoundRoundTrip(b);
  }

  /** The rows of the help listing: one per command, in the given order. */
  function HelpOutput(commands: seq<Command>): (rows: seq<HelpRow>)
    ensures |rows| == |commands|
    ensures forall i :: 0 <= i < |commands| ==>
              rows[i].name == commands[i].name && rows[i].description == commands[i].description
  {
    if commands == [] then []
    else [HelpRow(commands[0].name, commands[0].description)] + HelpOutput(commands[1..])
  }
}
