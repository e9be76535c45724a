/**
 * The prompt line's command-history cursor. `historyIndex` counts back
 * from the most recent command: -1 is "not browsing", 0 the latest entry,
 * `|history| - 1` the oldest.
 */
module TerminalInput {

  /** The cursor and the text of the input line after a key press. */
  datatype Cursor = Cursor(index: int, input: string)

  /** The history entry `index` steps back from the most recent one. */
  function Recall(history: seq<string>, index: int): string
    requires 0 <= index < |history|
  {
    history[|history| - 1 - index]
  }

  /**
   * `handleKeyDown` on the cursor: ArrowUp steps back while there is an older
   * entry, ArrowDown steps forward or, from the latest entry or from rest,
   * leaves browsing and clears the line; any other key changes nothing.
   */
  function Navigate(key: string, index: int, history: seq<string>, input: string): (c: Cursor)
    requires -1 <= index < |history|
    ensures -1 <= c.index < |history|
    ensures c.index >= 0 && c.index != index ==> c.input == Recall(history, c.index)
    ensures key == "ArrowUp" ==>
              if index < |history| - 1 then c.index == index + 1 else c == Cursor(index, input)
    ensures key == "ArrowDown" ==>
              if index > 0 then c.index == index - 1 else c == Cursor(-1, "")
    ensures key != "ArrowUp" && key != "ArrowDown" ==> c == Cursor(index, input)
  {
    if key == "ArrowUp" then
      if index < |history| - 1 then Cursor(index + 1, Recall(history, index + 1))
      else Cursor(index, input)
    else if key == "ArrowDown" then
      if index > 0 then Cursor(index - 1, Recall(history, index - 1))
      else Cursor(-1, "")
    else Cursor(index, input)
  }

  /** The first ArrowUp from rest shows the most recent command. */
  lemma FirstUpShowsLatest(history: seq<string>, input: string)
    requires history != []
    ensures Navigate("ArrowUp", -1, history, input) == Cursor(0, history[|history| - 1])
  {
  }

  /** ArrowDown undoes ArrowUp: back to the entry (or to the empty line) it left. */
  lemma DownUndoesUp(history: seq<string>, index: int, input: string)
    requires -1 <= index < |history| - 1
    ensures var up := Navigate("ArrowUp", index, history, input);
      Navigate("ArrowDown", up.index, history, up.input)
        == if index == -1 then Cursor(-1, "") else Cursor(index, Recall(history, index))
  {
  }

  /** `k` presses of the same key from a starting cursor. */
  function Presses(key: string, k: nat, index: int, history: seq<string>, input: string): (c: Cursor)
    requires -1 <= index < |history|
    ensures -1 <= c.index < |history|
  {
    if k == 0 then Cursor(index, input)
    else
      var c := Presses(key, k - 1, index, history, input);
      Navigate(key, c.index, history, c.input)
  }

  /**
   * From rest, `k` ArrowUp presses (k at most the history length) show the
   * k-th most recent command; further presses stay on the oldest.
   */
  lemma {:induction false} UpPresses(k: nat, history: seq<string>, input: string)
    requires 0 < k
    ensures var c := Presses("ArrowUp", k, -1, history, input);
      if k <= |history| then c == Cursor(k - 1, history[|history| - k])
      else if history == [] then c == Cursor(-1, input)
      else c == Cursor(|history| - 1, history[0])
  {
    if k > 1 {
      UpPresses(k - 1, history, input);
    }
  }

  /** The cursor of the prompt line. */
  class HistoryCursor {
    var historyIndex: int

    constructor ()
      ensures historyIndex == -1
    {
      historyIndex := -1;
    }

    /** The cursor is inside the history, or at rest. */
    ghost predicate Valid(history: seq<string>)
      reads this
    {
      -1 <= historyIndex < |history|
    }

    /** A history that only grows keeps the cursor inside it. */
    lemma StaysValid(history: seq<string>, longer: seq<string>)
      requires Valid(history) && history <= longer
      ensures Valid(longer)
    {
    }

    /** `handleKeyDown`; the new text of the input line is returned. */
    method HandleKeyDown(key: string, history: seq<string>, input: string) returns (newInput: string)
      requires Valid(history)
      modifies this`historyIndex
      ensures Valid(history)
      ensures Cursor(historyIndex, newInput) == Navigate(key, old(historyIndex), history, input)
    {
      newInput := input;
      if key == "ArrowUp" {
        if historyIndex < |history| - 1 {
          var newIndex := historyIndex + 1;
          historyIndex := newIndex;
          newInput := history[|history| - 1 - newIndex];
        }
      } else if key == "ArrowDown" {
        if historyIndex > 0 {
          var newIndex := historyIndex - 1;
          historyIndex := newIndex;
          newInput := history[|history| - 1 - newIndex];
        } else {
          historyIndex := -1;
          newInput := "";
        }
      }
    }
  }
}
