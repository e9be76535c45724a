/**
 * The command table: a record from command key to name, description and
 * action, in the order the record literal lists them.
 */
module CommandList {
  import opened Wrappers
  import opened CommandOutput

  /** The system prompt the `askai` action hands to the question widget
   *  (its opening sentence; the rest is fixed prose about the author). */
  const AskAIPrompt: string :=
    "You are an AI assistant with access to Mainak Jana's professional information."

  /** The record literal: `createCommandsList()` as a map from key to command. */
  const Commands: map<string, Command> := map[
    "about" := Command("about", "Learn more about me", Render(AboutPanel)),
    "experience" := Command("experience", "View my work experience", Render(ExperiencePanel)),
    "projects" := Command("projects", "Explore my projects", Render(ProjectsPanel)),
    "skills" := Command("skills", "View my technical skills", Render(SkillsPanel)),
    "achievements" := Command("achievements", "See my achievements", Render(AchievementsPanel)),
    "contact" := Command("contact", "Get my contact information", Render(ContactPanel)),
    "sudo" := Command("sudo", "Try to get root access", Render(SudoPanel)),
    "help" := Command("help", "Show all available commands", ListCommands),
    "askai" := Command("askai", "Ask me anything about Mainak's experience and skills", Ask(AskAIPrompt)),
    "clear" := Command("clear", "Clear the terminal", Nothing)
  ]

  /** The record's keys in insertion order, the order `Object.values` follows. */
  const Order: seq<string> :=
    ["about", "experience", "projects", "skills", "achievements",
     "contact", "sudo", "help", "askai", "clear"]

  /** `Object.values(commands)`: the commands in insertion order. */
  function Values(): (cs: seq<Command>)
    ensures |cs| == |Order|
    ensures forall i :: 0 <= i < |Order| ==> cs[i] == Commands[Order[i]]
  {
    seq(|Order|, i requires 0 <= i < |Order| => Commands[Order[i]])
  }

  /** `commands[key]`, for the record's own keys only. */
  function Lookup(key: string): (c: Option<Command>)
    ensures c.Some? <==> key in Commands
    ensures c.Some? ==> c.value == Commands[key]
  {
    if key in Commands then Some(Commands[key]) else None
  }

  /**
   * The property names every object literal inherits from `Object.prototype`;
   * indexing the record with one of them yields a truthy value that is not a
   * command.
   */
  const InheritedKeys: set<string> := {
    "constructor", "hasOwnProperty", "isPrototypeOf", "propertyIsEnumerable",
    "toLocaleString", "toString", "valueOf", "__proto__",
    "__defineGetter__", "__defineSetter__", "__lookupGetter__", "__lookupSetter__"
  }

  /** What `commands[key]` yields on the record as written: an own entry, an inherited property, or `undefined`. */
  datatype RecordEntry = Own(command: Command) | Inherited | Absent

  /** `commands[key]` with JavaScript's prototype lookup. */
  function RecordLookup(key: string): (e: RecordEntry)
    ensures e.Own? <==> key in Commands
    ensures e.Own? ==> e.command == Commands[key]
    ensures e.Inherited? <==> key in InheritedKeys
  {
    InheritedAreNotCommands();
    if key in Commands then Own(Commands[key])
    else if key in InheritedKeys then Inherited
    else Absent
  }

  /** No command key shadows an inherited property. */
  lemma InheritedAreNotCommands()
    ensures forall k :: k in InheritedKeys ==> k !in Commands
  {
  }

  /**
   * Of the inherited names, only `constructor` and `__proto__` are free of
   * upper-case letters, so only they can survive lower-casing.
   */
  lemma LowerCaseInheritedKeys(k: string)
    requires k in InheritedKeys
    requires forall i :: 0 <= i < |k| ==> !('A' <= k[i] <= 'Z')
    ensures k == "constructor" || k == "__proto__"
  {
    if k !in {"constructor", "__proto__"} {
      UpperCaseIn(k);
    }
  }

  lemma UpperCaseIn(k: string)
    requires k in InheritedKeys && k !in {"constructor", "__proto__"}
    ensures exists i :: 0 <= i < |k| && 'A' <= k[i] <= 'Z'
  {
    if k == "hasOwnProperty" { assert k[3] == 'O'; }
    else if k == "isPrototypeOf" { assert k[2] == 'P'; }
    else if k == "propertyIsEnumerable" { assert k[8] == 'I'; }
    else if k == "toLocaleString" { assert k[2] == 'L'; }
    else if k == "toString" { assert k[2] == 'S'; }
    else if k == "valueOf" { assert k[5] == 'O'; }
    else if k == "__defineGetter__" { assert k[8] == 'G'; }
    else if k == "__defineSetter__" { assert k[8] == 'S'; }
    else if k == "__lookupGetter__" { assert k[8] == 'G'; }
    else { assert k == "__lookupSetter__" && k[8] == 'S'; }
  }

  /** Running a command's action thunk. */
  function RunAction(a: Action): (out: Output)
    ensures out.Text? == false
    ensures out.Null? <==> a.Nothing?
  {
    match a
    case Render(p) => Component(p)
    case ListCommands => HelpListing(HelpOutput(Values()))
    case Ask(prompt) => AskWidget(prompt)
    case Nothing => Null
  }

  /** The table has exactly ten keys, and `Order` lists each of them once. */
  lemma TenCommands()
    ensures |Commands| == 10 && |Order| == 10
    ensures forall k :: k in Commands <==> k in Order
    ensures forall i, j :: 0 <= i < j < |Order| ==> Order[i] != Order[j]
  {
    KeysInOrder();
    OrderDistinct();
    DistinctElements(Order);
    assert Commands.Keys == set k | k in Order;
  }

  /** A sequence without repeats has as many distinct elements as entries. */
  lemma {:induction false} DistinctElements(s: seq<string>)
    requires forall i, j :: 0 <= i < j < |s| ==> s[i] != s[j]
    ensures |set k | k in s| == |s|
  {
    if s != [] {
      var rest := s[1..];
      DistinctElements(rest);
      assert (set k | k in s) == {s[0]} + (set k | k in rest);
      assert s[0] !in rest;
    }
  }

  lemma KeysInOrder()
    ensures forall k :: k in Commands <==> k in Order
  {
  }

  lemma OrderDistinct()
    ensures forall i, j :: 0 <= i < j < |Order| ==> Order[i] != Order[j]
  {
  }

  /** Each entry's name is its key. */
  lemma NamesAreKeys()
    ensures forall k :: k in Commands ==> Commands[k].name == k
  {
  }

  /** `clear`'s action renders nothing. */
  lemma ClearRendersNull()
    ensures RunAction(Commands["clear"].action) == Null
  {
  }

  /** `help` lists every command of the same table, itself included, in table order. */
  lemma HelpListsEveryCommand()
    ensures var out := RunAction(Commands["help"].action);
      && out.HelpListing?
      && |out.rows| == |Commands|
      && (forall i :: 0 <= i < |Order| ==> out.rows[i] == HelpRow(Order[i], Commands[Order[i]].description))
      && (forall k :: k in Commands ==> exists i :: 0 <= i < |out.rows| && out.rows[i].name == k)
  {
    TenCommands();
    NamesAreKeys();
    assert Commands["help"].action == ListCommands;
    var cs := Values();
    var rows := HelpOutput(cs);
    forall i | 0 <= i < |Order|
      ensures rows[i] == HelpRow(Order[i], Commands[Order[i]].description)
    {
      assert Order[i] in Commands;
      assert cs[i] == Commands[Order[i]];
    }
    forall k | k in Commands
      ensures exists i :: 0 <= i < |rows| && rows[i].name == k
    {
      var i :| 0 <= i < |Order| && Order[i] == k;
      assert rows[i].name == k;
    }
  }

  /** `askai` hands a non-empty prompt to the question widget. */
  lemma AskAIHasPrompt()
    ensures var out := RunAction(Commands["askai"].action);
      out == AskWidget(AskAIPrompt) && out.prompt != ""
  {
  }
}
