/**
 * The terminal: it normalises a submitted line, logs it, and either resets
 * the scrollback (`clear`) or appends the output of the command named by the
 * line's first word.
 */
module Terminal {
  import opened Wrappers
  import opened TextOps
  import opened CommandOutput
  import opened CommandList
  import TerminalInput

  /** One scrollback entry: the command line as logged and what it printed. */
  datatype HistoryItem = HistoryItem(command: string, output: Output)

  /** The single entry the scrollback holds right after `clear`. */
  const ClearedHistory: seq<HistoryItem> := [HistoryItem("hint", Component(HintPanel))]

  /** `cmdString.trim().toLowerCase()`: empty exactly for a blank line, and in lower case. */
  function Normalize(cmdString: string): (c: string)
    ensures c == "" <==> AllTrimmable(cmdString)
    ensures |c| <= |cmdString|
    ensures forall i :: 0 <= i < |c| ==> !('A' <= c[i] <= 'Z')
  {
    TrimBlank(cmdString);
    ToLower(Trim(cmdString))
  }

  /**
   * The output for the first word of a line: the command's action for a key
   * of the table, the "command not found" message (the only plain-text
   * output) for anything else.
   */
  function Dispatch(token: string): (out: Output)
    ensures out.Text? <==> token !in Commands
    ensures token in Commands ==> out == RunAction(Commands[token].action)
    ensures token !in Commands ==> out == Text(CommandNotFoundOutput(token))
  {
    match Lookup(token)
    case Some(command) => RunAction(command.action)
    case None => Text(CommandNotFoundOutput(token))
  }

  /**
   * The lookup as written: `commands[cmd]` also finds the properties every
   * object inherits, and for those the truthiness test passes and calling
   * the missing `action` throws (`None`). Elsewhere it agrees with `Dispatch`.
   */
  function DispatchAsWritten(token: string): (out: Option<Output>)
    ensures out.None? <==> token in InheritedKeys
    ensures token !in InheritedKeys ==> out == Some(Dispatch(token))
  {
    match RecordLookup(token)
    case Own(command) => Some(RunAction(command.action))
    case Inherited => None
    case Absent => Some(Text(CommandNotFoundOutput(token)))
  }

  /**
   * Typing `constructor` makes the lookup as written throw, where the
   * intended behaviour, which `Dispatch` models, is the "command not found"
   * message.
   */
  lemma ConstructorThrows()
    ensures Normalize("constructor") == "constructor"
    ensures DispatchAsWritten(FirstToken(Normalize("constructor"))) == None
    ensures Dispatch(FirstToken(Normalize("constructor"))) == Text(CommandNotFoundOutput("constructor"))
  {
    AnyCaseNormalizes("constructor", "constructor");
    InheritedAreNotCommands();
  }

  /** Only the lines whose first word is `constructor` or `__proto__` make the lookup as written throw. */
  lemma ThrowingLines(line: string)
    requires DispatchAsWritten(FirstToken(Normalize(line))).None?
    ensures FirstToken(Normalize(line)) in {"constructor", "__proto__"}
  {
    var t := FirstToken(Normalize(line));
    assert t in InheritedKeys;
    TokenHasNoUpper(Normalize(line));
    LowerCaseInheritedKeys(t);
  }

  lemma TokenHasNoUpper(c: string)
    requires forall i :: 0 <= i < |c| ==> !('A' <= c[i] <= 'Z')
    ensures forall i :: 0 <= i < |FirstToken(c)| ==> !('A' <= FirstToken(c)[i] <= 'Z')
  {
    var t := FirstToken(c);
    forall i | 0 <= i < |t| ensures !('A' <= t[i] <= 'Z') {
      assert t[i] == c[i];
    }
  }

  /** A line that starts and ends with a letter is only lowered by normalisation. */
  lemma LetterEndsNormalize(line: string)
    requires line != []
    requires 'a' <= line[0] <= 'z' || 'A' <= line[0] <= 'Z'
    requires 'a' <= line[|line| - 1] <= 'z' || 'A' <= line[|line| - 1] <= 'Z'
    ensures Normalize(line) == ToLower(line)
  {
    LetterEndsTrim(line);
  }

  lemma LetterEndsTrim(line: string)
    requires line != []
    requires 'a' <= line[0] <= 'z' || 'A' <= line[0] <= 'Z'
    requires 'a' <= line[|line| - 1] <= 'z' || 'A' <= line[|line| - 1] <= 'Z'
    ensures Trim(line) == line
  {
    assert !IsTrimmable(line[0]);
    assert TrimStart(line) == line;
    assert !IsTrimmable(line[|line| - 1]);
    assert TrimEnd(line) == line;
  }

  lemma {:induction false} NoSpaceWholeToken(w: string)
    requires ' ' !in w
    ensures FirstToken(w) == w
  {
    if w != [] {
      assert w[0] in w;
      assert ' ' !in w[1..] by {
        forall i | 0 <= i < |w[1..]| ensures w[1..][i] != ' ' {
          assert w[1..][i] == w[i + 1];
          assert w[i + 1] in w;
        }
      }
      NoSpaceWholeToken(w[1..]);
    }
  }

  /**
   * Normalising a word of ASCII letters only lowers it: there is nothing to
   * trim, and the lowered word has no space, so it is its own first token.
   */
  lemma LettersNormalize(w: string)
    requires forall i :: 0 <= i < |w| ==> 'a' <= w[i] <= 'z' || 'A' <= w[i] <= 'Z'
    ensures Normalize(w) == ToLower(w)
    ensures FirstToken(Normalize(w)) == ToLower(w)
  {
    if w != [] {
      LetterEndsNormalize(w);
    }
    LettersHaveNoSpace(w);
    NoSpaceWholeToken(ToLower(w));
  }

  lemma LettersHaveNoSpace(w: string)
    requires forall i :: 0 <= i < |w| ==> 'a' <= w[i] <= 'z' || 'A' <= w[i] <= 'Z'
    ensures ' ' !in ToLower(w)
  {
    var lw := ToLower(w);
    forall i | 0 <= i < |lw| ensures lw[i] != ' ' {
      assert lw[i] == LowerChar(w[i]);
    }
  }

  /** Any mix of upper and lower case of a word normalises to its lower-case form, which is the whole first token. */
  lemma AnyCaseNormalizes(w: string, lower: string)
    requires |w| == |lower|
    requires forall i :: 0 <= i < |w| ==>
               ('a' <= w[i] <= 'z' || 'A' <= w[i] <= 'Z') && LowerChar(w[i]) == lower[i]
    ensures Normalize(w) == lower
    ensures FirstToken(Normalize(w)) == lower
  {
    LettersNormalize(w);
    LowersTo(w, lower);
  }

  /** Any mix of upper and lower case of a key dispatches to that key's entry. */
  lemma AnyCaseReachesKey(w: string, key: string)
    requires key in Commands
    requires |w| == |key|
    requires forall i :: 0 <= i < |w| ==>
               ('a' <= w[i] <= 'z' || 'A' <= w[i] <= 'Z') && LowerChar(w[i]) == key[i]
    ensures Normalize(w) == key
    ensures Dispatch(FirstToken(Normalize(w))) == RunAction(Commands[key].action)
  {
    AnyCaseNormalizes(w, key);
    DispatchKey(key);
  }

  /**
   * `toLowerCase` turns the Kelvin sign into `k`, so `as\u212Aai` opens the
   * question widget just as `askai` does.
   */
  lemma KelvinSignReachesAskAI(typed: string)
    requires typed == ['a', 's', KelvinSign, 'a', 'i']
    ensures Normalize(typed) == "askai"
    ensures Dispatch(FirstToken(Normalize(typed))) == RunAction(Commands["askai"].action)
  {
    UnpaddedNormalize(typed, "askai");
    DispatchKey("askai");
  }

  /**
   * A line that neither starts nor ends with white space, and lowers
   * character by character to a text without spaces, normalises to that
   * text, which is its own first token.
   */
  lemma UnpaddedNormalize(line: string, lower: string)
    requires line != [] && !IsTrimmable(line[0]) && !IsTrimmable(line[|line| - 1])
    requires |line| == |lower|
    requires forall i :: 0 <= i < |line| ==> LowerChar(line[i]) == lower[i]
    requires ' ' !in lower
    ensures Normalize(line) == lower
    ensures FirstToken(Normalize(line)) == lower
  {
    assert TrimStart(line) == line;
    assert TrimEnd(line) == line;
    LowersTo(line, lower);
    NoSpaceWholeToken(lower);
  }

  lemma DispatchKey(key: string)
    requires key in Commands
    ensures Dispatch(key) == RunAction(Commands[key].action)
  {
  }

  lemma LowersTo(w: string, lower: string)
    requires |w| == |lower|
    requires forall i :: 0 <= i < |w| ==> LowerChar(w[i]) == lower[i]
    ensures ToLower(w) == lower
  {
  }

  /** Every key of the table is lower-case letters, so typing it dispatches to its entry. */
  lemma EveryCommandReachable()
    ensures forall k :: k in Commands ==>
              Normalize(k) == k && Dispatch(FirstToken(Normalize(k))) == RunAction(Commands[k].action)
  {
    forall k | k in Commands
      ensures Normalize(k) == k && Dispatch(FirstToken(Normalize(k))) == RunAction(Commands[k].action)
    {
      assert forall i :: 0 <= i < |k| ==> 'a' <= k[i] <= 'z';
      AnyCaseReachesKey(k, k);
    }
  }

  /** Lookup ignores case: `askAI` and `ASKAI` are both looked up as the key `askai`. */
  lemma DispatchIgnoresCase(typed: string)
    requires typed == "askAI" || typed == "ASKAI"
    ensures Normalize(typed) == "askai" && FirstToken(Normalize(typed)) == "askai"
    ensures "askai" in Commands
  {
    AnyCaseNormalizes(typed, "askai");
  }

  /**
   * A lower-case word followed by a space and lower-case arguments is kept
   * whole in the log, and only the word picks the command.
   */
  lemma WordWithArguments(w: string, args: string)
    requires w != [] && args != []
    requires forall i :: 0 <= i < |w| ==> 'a' <= w[i] <= 'z'
    requires forall i :: 0 <= i < |args| ==> 'a' <= args[i] <= 'z' || args[i] == ' '
    requires 'a' <= args[|args| - 1] <= 'z'
    ensures Normalize(w + [' '] + args) == w + [' '] + args
    ensures FirstToken(Normalize(w + [' '] + args)) == w
  {
    var line := w + [' '] + args;
    CommandLineChars(w, args);
    LetterEndsTrim(line);
    LowerUnchanged(line);
    FirstTokenOfCommandLine(w, args);
  }

  lemma CommandLineChars(w: string, args: string)
    requires w != [] && args != []
    requires forall i :: 0 <= i < |w| ==> 'a' <= w[i] <= 'z'
    requires forall i :: 0 <= i < |args| ==> 'a' <= args[i] <= 'z' || args[i] == ' '
    ensures var line := w + [' '] + args;
      && line[0] == w[0] && line[|line| - 1] == args[|args| - 1]
      && forall i :: 0 <= i < |line| ==> !('A' <= line[i] <= 'Z') && line[i] != KelvinSign
  {
    var line := w + [' '] + args;
    forall i | 0 <= i < |line| ensures !('A' <= line[i] <= 'Z') && line[i] != KelvinSign {
      if i < |w| {
        assert line[i] == w[i];
      } else if i > |w| {
        assert line[i] == args[i - |w| - 1];
      }
    }
  }

  lemma FirstTokenOfCommandLine(w: string, args: string)
    requires forall i :: 0 <= i < |w| ==> 'a' <= w[i] <= 'z'
    ensures FirstToken(w + [' '] + args) == w
  {
    assert ' ' !in w by {
      forall i | 0 <= i < |w| ensures w[i] != ' ' { }
    }
    FirstTokenOfWord(w, [' '] + args);
    assert w + [' '] + args == w + ([' '] + args);
  }

  lemma LowerUnchanged(s: string)
    requires forall i :: 0 <= i < |s| ==> !('A' <= s[i] <= 'Z') && s[i] != KelvinSign
    ensures ToLower(s) == s
  {
  }

  /** `clear all` is not `clear`: it is logged as typed and dispatches to the `clear` entry, whose output is null. */
  lemma ClearWithArguments()
    ensures Normalize("clear all") == "clear all" != "clear"
    ensures Dispatch(FirstToken(Normalize("clear all"))) == Null
  {
    assert "clear all" == "clear" + [' '] + "all";
    WordWithArguments("clear", "all");
    DispatchKey("clear");
  }

  /** The first token of a letter word followed by more text starts with the whole word. */
  lemma {:induction false} FirstTokenOfWord(w: string, rest: string)
    requires ' ' !in w
    ensures FirstToken(w + rest) == w + FirstToken(rest)
  {
    if w != [] {
      assert w[0] in w;
      assert (w + rest)[1..] == w[1..] + rest;
      assert ' ' !in w[1..] by {
        forall i | 0 <= i < |w[1..]| ensures w[1..][i] != ' ' {
          assert w[1..][i] == w[i + 1];
          assert w[i + 1] in w;
        }
      }
      FirstTokenOfWord(w[1..], rest);
    } else {
      assert w + rest == rest;
    }
  }

  /** The terminal's state, with the prompt line's history cursor. */
  class TerminalState {
    var input: string
    var history: seq<HistoryItem>
    var commandHistory: seq<string>
    const inputLine: TerminalInput.HistoryCursor

    /** The cursor stays within the command log. */
    ghost predicate Valid()
      reads this, inputLine
    {
      inputLine.Valid(commandHistory)
    }

    constructor ()
      ensures Valid() && fresh(inputLine)
      ensures input == "" && history == [] && commandHistory == []
      ensures inputLine.historyIndex == -1
    {
      input, history, commandHistory := "", [], [];
      inputLine := new TerminalInput.HistoryCursor();
    }

    /**
     * `executeCommand`: a blank line changes nothing; any other line is
     * logged normalised; exactly `clear` resets the scrollback to the hint;
     * everything else appends one entry holding the whole normalised line and
     * the output for its first word.
     */
    method ExecuteCommand(cmdString: string)
      requires Valid()
      modifies this`history, this`commandHistory
      ensures Valid()
      ensures old(commandHistory) <= commandHistory
      ensures AllTrimmable(cmdString) ==>
                history == old(history) && commandHistory == old(commandHistory)
      ensures !AllTrimmable(cmdString) ==>
                commandHistory == old(commandHistory) + [Normalize(cmdString)]
      ensures !AllTrimmable(cmdString) && Normalize(cmdString) == "clear" ==>
                history == ClearedHistory
      ensures !AllTrimmable(cmdString) && Normalize(cmdString) != "clear" ==>
                history == old(history) + [HistoryItem(Normalize(cmdString), Dispatch(FirstToken(Normalize(cmdString))))]
    {
      var cmdTrimmed := Normalize(cmdString);
      if cmdTrimmed == "" {
        return;
      }
      commandHistory := commandHistory + [cmdTrimmed];
      if cmdTrimmed == "clear" {
        history := ClearedHistory;
        return;
      }
      var cmd := FirstToken(cmdTrimmed);
      var command := Lookup(cmd);
      var output;
      if command.Some? {
        output := RunAction(command.value.action);
      } else {
        output := Text(CommandNotFoundOutput(cmd));
      }
      history := history + [HistoryItem(cmdTrimmed, output)];
    }

    /** `handleSubmit`: run the current line, then empty it. */
    method HandleSubmit()
      requires Valid()
      modifies this`history, this`commandHistory, this`input
      ensures Valid() && input == ""
      ensures old(commandHistory) <= commandHistory
      ensures AllTrimmable(old(input)) ==>
                history == old(history) && commandHistory == old(commandHistory)
      ensures !AllTrimmable(old(input)) ==>
                commandHistory == old(commandHistory) + [Normalize(old(input))]
      ensures !AllTrimmable(old(input)) && Normalize(old(input)) == "clear" ==>
                history == ClearedHistory
      ensures !AllTrimmable(old(input)) && Normalize(old(input)) != "clear" ==>
                history == old(history) + [HistoryItem(Normalize(old(input)), Dispatch(FirstToken(Normalize(old(input)))))]
    {
      ExecuteCommand(input);
      input := "";
    }

    /** Typing into the prompt line. */
    method SetInput(s: string)
      modifies this`input
      ensures input == s
    {
      input := s;
    }

    /** A key press on the prompt line, handled by the history cursor. */
    method KeyDown(key: string)
      requires Valid()
      modifies this`input, inputLine`historyIndex
      ensures Valid()
      ensures TerminalInput.Cursor(inputLine.historyIndex, input)
              == TerminalInput.Navigate(key, old(inputLine.historyIndex), commandHistory, old(input))
    {
      input := inputLine.HandleKeyDown(key, commandHistory, input);
    }
  }
}
