# Portfolio terminal — a Dafny model

This project models the logic of a portfolio website built around a fake
terminal. A visitor types commands. The page also has an AI question widget
behind a rate limiter and an animated particle background. The model covers:

- **Command line** (`Terminal`): a submitted line is trimmed and lower-cased.
  A blank line is ignored. Any other line goes into the command log. The
  exact line `clear` resets the scrollback to a single hint entry. Any other
  line appends one scrollback entry: the whole normalised line, paired with
  the output of the command named by its first space-separated word, or the
  "command not found" message.
- **Command table** (`CommandList`, `CommandOutput`): the ten commands, their
  descriptions and what each renders. It also covers the help listing, which
  lists the table's own entries in insertion order, and the "command not
  found" message.
- **Prompt-line history** (`TerminalInput`): ArrowUp and ArrowDown walk back
  and forth through the command log. A cursor counts back from the newest
  entry, and -1 means the visitor is not browsing.
- **AI question widget** (`AskCommand`):
  - a sliding-log rate limiter of 10 requests per 60 000 ms, shared by every
    widget;
  - the Enter-key gate that consults it before a question is sent;
  - the precedence of what the widget shows: loading, then error, then
    response, then the question input.
- **Particle background** (`ParticlesBackground`, and `ParticleCanvas` for the component's state):
  - how many particles a window gets and how each is drawn from random
    numbers;
  - the move-and-bounce step of every animation frame;
  - the pair loop that decides which particles are joined by a line, and at
    what opacity.

`TextOps` holds the string operations these use: `trim`, `toLowerCase` and
the first word of `split(" ")`. `Wrappers` holds `Option`.

Objects whose fields change in place are classes:
- `AskCommand.RateLimiter`;
- `AskCommand.AskPanel`, for the widget's React state;
- `Terminal.TerminalState`;
- `TerminalInput.HistoryCursor`;
- `ParticleCanvas.ParticleField`.

Each of their methods is proved against a pure specification function:
`Admit`, `Navigate`, `Normalize`/`Dispatch`, `Spawned`, `AdvanceAll` and
`LinksOver`. The lemmas beside those functions state what the source
promises.

## Model

| member | source | states |
|---|---|---|
| TextOps.Trim | src/components/terminal/Terminal.tsx:67 | Never longer than the input, and never longer than the input with only its leading whitespace dropped. |
| TextOps.TrimStartDrops | src/components/terminal/Terminal.tsx:67 | Dropping leading whitespace keeps a suffix of the input that does not start with whitespace. Everything dropped is whitespace. |
| TextOps.TrimEndDrops | src/components/terminal/Terminal.tsx:67 | Dropping trailing whitespace keeps a prefix of the input that does not end with whitespace. Everything dropped is whitespace. |
| TextOps.TrimBlank | src/components/terminal/Terminal.tsx:67-69 | `trim` gives the empty string exactly when the input is all whitespace, using the full JavaScript whitespace set. |
| TextOps.TrimEnds | src/components/terminal/Terminal.tsx:67 | A non-empty trimmed string neither starts nor ends with whitespace. |
| TextOps.TrimIsInfix | src/components/terminal/Terminal.tsx:67 | The trimmed string is one contiguous slice of the input, starting right after its leading whitespace. |
| TextOps.TrimIdempotent | src/components/terminal/Terminal.tsx:67 | Trimming twice is trimming once. |
| TextOps.LowerChar | src/components/terminal/Terminal.tsx:67 | An upper-case ASCII letter maps to the same letter in lower case. The Kelvin sign U+212A maps to `k`. Every other character is unchanged, whitespace stays whitespace, and no upper-case ASCII letter comes out. |
| TextOps.ToLower | src/components/terminal/Terminal.tsx:67 | Same length; every character is lowered one by one. |
| TextOps.ToLowerIdempotent | src/components/terminal/Terminal.tsx:67 | Lowering twice is lowering once. |
| TextOps.FirstToken | src/components/terminal/Terminal.tsx:84 | The first element of `split(" ")`: the longest prefix without a space. |
| CommandOutput.CommandNotFoundOutput | src/components/terminal/CommandOutput.tsx:470-472 | The message is the fixed prefix, then the command text verbatim, then the fixed suffix. |
| CommandOutput.UnknownCommandOf | src/components/terminal/CommandOutput.tsx:471-472 | The inverse parse reads back a command whose length matches the message. |
| CommandOutput.NotFoundRoundTrip | src/components/terminal/CommandOutput.tsx:471-472 | The command text can always be recovered from its message. |
| CommandOutput.NotFoundInjective | src/components/terminal/CommandOutput.tsx:471-472 | Different unknown commands give different messages. |
| CommandOutput.HelpOutput | src/components/terminal/CommandOutput.tsx:390-408 | One row per command, in the given order, with that command's name and description. |
| CommandList.Values | src/components/terminal/CommandOutput.tsx:399 | `Object.values` lists the table's entries in insertion order. |
| CommandList.Lookup | src/components/terminal/Terminal.tsx:85-88 | Finds a command exactly for a key of the table, and then it is that key's entry. |
| CommandList.RecordLookup | src/components/terminal/Terminal.tsx:85 | With JavaScript's prototype lookup: an own entry exactly for the table's keys, and an inherited truthy value exactly for the `Object.prototype` names. |
| CommandList.InheritedAreNotCommands | src/components/terminal/CommandList.tsx:25-107 | No command key shadows an inherited property name. |
| CommandList.LowerCaseInheritedKeys | src/components/terminal/Terminal.tsx:67-85 | Of the inherited names, only `constructor` and `__proto__` contain no upper-case letter. |
| CommandList.RunAction | src/components/terminal/CommandList.tsx:29-105 | No action renders a plain string. Only `clear`'s action renders null. |
| CommandList.TenCommands | src/components/terminal/CommandList.tsx:25-107 | The table has exactly ten keys, and the insertion order lists each of them exactly once. |
| CommandList.NamesAreKeys | src/components/terminal/CommandList.tsx:26-106 | Every entry's name is its own key. |
| CommandList.ClearRendersNull | src/components/terminal/CommandList.tsx:102-106 | `clear`'s action renders null. |
| CommandList.HelpListsEveryCommand | src/components/terminal/CommandList.tsx:61-65 | `help` renders a listing with one row per command of the same table, itself included, in table order. Every key appears in it. |
| CommandList.AskAIHasPrompt | src/components/terminal/CommandList.tsx:66-100 | `askai` renders the question widget with its non-empty system prompt. |
| Terminal.Normalize | src/components/terminal/Terminal.tsx:67-71 | The normalised line is empty exactly for a blank line. It is no longer than the input and contains no upper-case letter. |
| Terminal.Dispatch | src/components/terminal/Terminal.tsx:84-92 | The output is plain text exactly when the word is not a command: the "not found" message for that word. For a command, the output is what its action renders. |
| Terminal.DispatchAsWritten | src/components/terminal/Terminal.tsx:84-92 | The lookup as written throws exactly for the inherited property names, and agrees with `Dispatch` everywhere else. |
| Terminal.ConstructorThrows | src/components/terminal/Terminal.tsx:85-89 | Typing `constructor` throws where the "command not found" message is intended. |
| Terminal.ThrowingLines | src/components/terminal/Terminal.tsx:67-89 | Only lines whose first word is `constructor` or `__proto__` reach the throwing path. |
| Terminal.AnyCaseNormalizes | src/components/terminal/Terminal.tsx:67-84 | A word of ASCII letters, typed in any case, normalises to its lower-case form, and that form is the whole first word. |
| Terminal.LettersNormalize | src/components/terminal/Terminal.tsx:67-84 | For a word of ASCII letters, normalising is just lowering: nothing is trimmed, and the lowered word contains no space, so it is its own first word. |
| Terminal.UnpaddedNormalize | src/components/terminal/Terminal.tsx:67-84 | A line with no white space at either end that lowers, character by character, to a text without spaces normalises to that text, which is also its whole first word. |
| Terminal.KelvinSignReachesAskAI | src/components/terminal/Terminal.tsx:67-89 | `as\u212Aai`, spelled with the Kelvin sign, normalises to `askai` and opens the question widget. |
| Terminal.AnyCaseReachesKey | src/components/terminal/Terminal.tsx:67-92 | Any upper/lower-case spelling of a command key dispatches to that key's entry. |
| Terminal.EveryCommandReachable | src/components/terminal/Terminal.tsx:66-92 | Typing any key of the table reaches that key's entry. |
| Terminal.DispatchIgnoresCase | src/components/terminal/Terminal.tsx:67-89 | `askAI` and `ASKAI` both normalise to `askai`, which is their whole first word and a key of the table. |
| Terminal.WordWithArguments | src/components/terminal/Terminal.tsx:67-84 | A lower-case word followed by arguments is logged whole. Only the word selects the command. |
| Terminal.ClearWithArguments | src/components/terminal/Terminal.tsx:76-92 | `clear all` is not the reset. It appends an entry whose output is `clear`'s null. |
| Terminal.TerminalState.constructor | src/components/terminal/Terminal.tsx:10-12 | Empty input, empty scrollback and empty log. The cursor is at rest. |
| Terminal.TerminalState.ExecuteCommand | src/components/terminal/Terminal.tsx:66-101 | A blank line changes nothing. Any other line is appended to the log normalised. Exactly `clear` resets the scrollback to the hint. Anything else appends the line with its output from the corrected `Dispatch`. The history cursor stays valid. For a first word `constructor` or `__proto__` this is the intended not-found entry; the source throws there instead (see Findings). |
| Terminal.TerminalState.HandleSubmit | src/components/terminal/Terminal.tsx:103-107 | Executes the current line as `ExecuteCommand` does, then empties it. For a first word `constructor` or `__proto__` the source throws before emptying the line; the model follows the intended behaviour (see Findings). |
| Terminal.TerminalState.SetInput | src/components/terminal/Terminal.tsx:10 | The prompt line holds the typed text. |
| Terminal.TerminalState.KeyDown | src/components/terminal/TerminalInput.tsx:20-39 | The cursor and the prompt line move as `Navigate` says. |
| TerminalInput.Navigate | src/components/terminal/TerminalInput.tsx:20-39 | Covers each key. ArrowUp steps back while an older entry exists, otherwise nothing changes. ArrowDown steps forward, or from the newest entry or from rest leaves browsing with an empty line. Any other key changes nothing. A moved cursor shows the entry it points at. |
| TerminalInput.FirstUpShowsLatest | src/components/terminal/TerminalInput.tsx:21-27 | The first ArrowUp from rest shows the most recent command. |
| TerminalInput.DownUndoesUp | src/components/terminal/TerminalInput.tsx:20-39 | ArrowDown after ArrowUp returns to the previous entry, or to the empty line from rest. |
| TerminalInput.Presses | src/components/terminal/TerminalInput.tsx:20-39 | Any number of presses keeps the cursor in range. |
| TerminalInput.UpPresses | src/components/terminal/TerminalInput.tsx:21-27 | The k-th ArrowUp from rest shows the k-th most recent command. After that the cursor stays on the oldest. |
| TerminalInput.HistoryCursor.constructor | src/components/terminal/TerminalInput.tsx:18 | The cursor starts at rest (-1). |
| TerminalInput.HistoryCursor.StaysValid | src/components/terminal/TerminalInput.tsx:23-33 | A log that only grows keeps a valid cursor valid. |
| TerminalInput.HistoryCursor.HandleKeyDown | src/components/terminal/TerminalInput.tsx:20-39 | The new cursor and text are exactly `Navigate`'s. |
| AskCommand.Recent | src/components/terminal/AskCommand.tsx:17-19 | Keeps only entries with `now - t < window`, each of them, in their original order. |
| AskCommand.RecentCounts | src/components/terminal/AskCommand.tsx:17-19 | Every copy of an in-window timestamp survives and no copy of an expired one does, so the survivors' count is the in-window count. |
| AskCommand.Admit | src/components/terminal/AskCommand.tsx:14-27 | Admitted exactly when the in-window count is below the budget. A denial stores the survivors only. An admission appends `now`. The budget bounds the log. With a positive window, every entry is inside the window. |
| AskCommand.Replay | src/components/terminal/AskCommand.tsx:14-27 | One verdict per call. |
| AskCommand.ReplayConcat | src/components/terminal/AskCommand.tsx:14-27 | Replaying two call series in turn is replaying their concatenation. |
| AskCommand.ReplayBounded | src/components/terminal/AskCommand.tsx:14-27 | Whatever the call times, the log never exceeds the budget. |
| AskCommand.AdmitAscending | src/components/terminal/AskCommand.tsx:17-25 | A call no earlier than every entry keeps the log sorted. |
| AskCommand.ReplayAscending | src/components/terminal/AskCommand.tsx:17-25 | Non-decreasing call times keep the log sorted. |
| AskCommand.RecentKeepsNow | src/components/terminal/AskCommand.tsx:17-19 | Entries stamped now are all in the window. |
| AskCommand.Burst | src/components/terminal/AskCommand.tsx:14-27 | In a burst at one instant, call i is admitted iff the in-window count plus i is below the budget. The log ends at the budget, or earlier. |
| AskCommand.BurstStep | src/components/terminal/AskCommand.tsx:14-27 | On a log whose in-window entries are m entries stamped now, a call at now is admitted iff m is under the budget. The new log is those entries, plus one more when admitted. |
| AskCommand.FullWindowLater | src/components/terminal/AskCommand.tsx:17-25 | After a full budget of calls at one instant, a call one whole window later is also admitted. |
| AskCommand.RecentOfExpired | src/components/terminal/AskCommand.tsx:17-19 | Entries older than the window are all dropped. |
| AskCommand.DenialsConsumeNothing | src/components/terminal/AskCommand.tsx:21-23 | Denials record nothing. Once the window has passed, a full budget is admitted again, and then one call is denied. |
| AskCommand.ConfiguredLimiter | src/components/terminal/AskCommand.tsx:30-31 | With 10 per 60 000 ms: ten calls at one instant pass and the eleventh is denied. A call 60 000 ms later passes, whether or not the denied eleventh came before it. |
| AskCommand.BurstPastBudget | src/components/terminal/AskCommand.tsx:14-27 | A burst one call past the budget: the budget passes, the extra call is denied, and the log holds only the admitted calls. |
| AskCommand.LaterCallAdmitted | src/components/terminal/AskCommand.tsx:17-25 | With a positive budget, a call one whole window after every logged entry passes. |
| AskCommand.DeniedThenLater | src/components/terminal/AskCommand.tsx:14-27 | After a burst one call past the budget, a call one window later passes: the denied call cost nothing. |
| AskCommand.RateLimiter.constructor | src/components/terminal/AskCommand.tsx:4-12 | Empty log with the given budget and window. |
| AskCommand.RateLimiter.CanMakeRequest | src/components/terminal/AskCommand.tsx:14-27 | The verdict and the new log are exactly `Admit`'s. The log stays within budget. |
| AskCommand.NewConfiguredLimiter | src/components/terminal/AskCommand.tsx:31 | The shared limiter: 10 requests per 60 000 ms, empty log. |
| AskCommand.SystemPrompt | src/components/terminal/AskCommand.tsx:74-76 | The given prompt when non-empty, otherwise the fallback persona. Never empty. |
| AskCommand.AskPanel.constructor | src/components/terminal/AskCommand.tsx:38-42 | All state empty, so the widget shows the question input. |
| AskCommand.AskPanel.View | src/components/terminal/AskCommand.tsx:151-190 | Loading wins over an error, an error over a response. The input shows only when all three are absent. |
| AskCommand.AskPanel.SetUserQuestion | src/components/terminal/AskCommand.tsx:182 | The input holds the typed question. |
| AskCommand.AskPanel.HandleKeyDown | src/components/terminal/AskCommand.tsx:44-57 | Only Enter with a non-blank question consults the limiter. A denial sets the rate-limit error and starts nothing. An admission starts loading, clears the error and the response, and sends the trimmed question. |
| ParticlesBackground.ParticleCount | src/components/ParticlesBackground.tsx:36 | At most 100 particles. Exactly 100 from 2000 px up. Below that, the count is the number of whole 20 px strips. |
| ParticlesBackground.NarrowWindowIsEmpty | src/components/ParticlesBackground.tsx:36 | A window under 20 px gets no particles. |
| ParticlesBackground.CountMonotone | src/components/ParticlesBackground.tsx:36 | A wider window never gets fewer particles. |
| ParticlesBackground.ColorIndex | src/components/ParticlesBackground.tsx:59 | `floor(r * 5)` indexes the palette. |
| ParticlesBackground.SizeOf | src/components/ParticlesBackground.tsx:39 | Size is in [1, 3). |
| ParticlesBackground.SpeedOf | src/components/ParticlesBackground.tsx:44-45 | Speed is in [-0.25, 0.25). |
| ParticlesBackground.CoordinateOf | src/components/ParticlesBackground.tsx:41-42 | A coordinate is on the canvas, and short of its far edge when the canvas has one. |
| ParticlesBackground.ScaleWithin | src/components/ParticlesBackground.tsx:41-42 | A draw scaled to an extent lies in [0, extent], and below it when the extent is positive. |
| ParticlesBackground.Spawn | src/components/ParticlesBackground.tsx:39-59 | A new particle has size in [1, 3), speeds in [-0.25, 0.25), a position on the canvas and a palette colour. |
| ParticlesBackground.Spawned | src/components/ParticlesBackground.tsx:38-48 | One particle per draw, in order. |
| ParticlesBackground.Advance | src/components/ParticlesBackground.tsx:72-81 | Each coordinate moves by its speed once. A speed is reversed iff the moved coordinate is off the canvas on that axis (or the speed is zero). Speed magnitudes, size and colour are unchanged. |
| ParticlesBackground.AdvanceAll | src/components/ParticlesBackground.tsx:65-82 | The same particles, in the same order, each moved once. |
| ParticlesBackground.AxisStep | src/components/ParticlesBackground.tsx:72-81 | One axis's move keeps it within one step of the canvas, heading back when outside. |
| ParticlesBackground.SpawnInBand | src/components/ParticlesBackground.tsx:39-46 | A new particle starts inside that band. |
| ParticlesBackground.AdvanceKeepsBand | src/components/ParticlesBackground.tsx:72-81 | A frame's move keeps a particle inside the band. |
| ParticlesBackground.Frames | src/components/ParticlesBackground.tsx:65-87 | Any number of frames keeps the particle count. |
| ParticlesBackground.FramesKeepBand | src/components/ParticlesBackground.tsx:65-87 | After any number of frames, every particle is at most one step off the canvas and heading back when off it. Size, colour and speed magnitudes are unchanged. |
| ParticlesBackground.Alpha | src/components/ParticlesBackground.tsx:91-104 | The opacity is in (0, 0.2] for distances in [0, 120). It is 0.2 at distance 0 and 0 at distance 120. |
| ParticlesBackground.AlphaDecreasing | src/components/ParticlesBackground.tsx:104 | Closer pairs get strictly more opaque lines. |
| ParticlesBackground.Row | src/components/ParticlesBackground.tsx:94 | The inner loop visits j - i pairs for row i. |
| ParticlesBackground.RowPairs | src/components/ParticlesBackground.tsx:94 | The k-th pair of row i is (i, i + k). |
| ParticlesBackground.RowMembers | src/components/ParticlesBackground.tsx:94 | Row i of the inner loop, up to j, visits exactly the pairs (i, k) with i ≤ k < j. |
| ParticlesBackground.PairsBeforeMembers | src/components/ParticlesBackground.tsx:93-94 | After i outer rounds, the visited pairs are exactly those with first index below i and i ≤ j < n. |
| ParticlesBackground.ExaminedMembers | src/components/ParticlesBackground.tsx:93-94 | The loops visit exactly the pairs with 0 ≤ i ≤ j < n, self-pairs included. |
| ParticlesBackground.PairsBeforeCount | src/components/ParticlesBackground.tsx:93-94 | After i outer rounds, i(2n - i + 1)/2 pairs have been visited. |
| ParticlesBackground.ExaminedCount | src/components/ParticlesBackground.tsx:93-94 | n(n + 1)/2 pairs are visited in all. |
| ParticlesBackground.PairsBeforeOrdered | src/components/ParticlesBackground.tsx:93-94 | Pairs are visited in strictly row-major order. |
| ParticlesBackground.RowOrdered | src/components/ParticlesBackground.tsx:94 | One row is visited in increasing j. |
| ParticlesBackground.ExaminedOnce | src/components/ParticlesBackground.tsx:93-94 | No pair is visited twice. |
| ParticlesBackground.LinksOver | src/components/ParticlesBackground.tsx:93-111 | At most one line per visited pair. |
| ParticlesBackground.LinksOverMembers | src/components/ParticlesBackground.tsx:95-104 | A line is drawn for a visited pair iff its distance is below 120, and the line's opacity is `Alpha` of that distance. |
| ParticlesBackground.LinksOverLast | src/components/ParticlesBackground.tsx:93-111 | Visiting one more pair adds at most that pair's line, at the end. |
| ParticlesBackground.LinksOverAppend | src/components/ParticlesBackground.tsx:93-111 | The lines over two runs of pairs are the lines of the first run followed by those of the second. |
| ParticlesBackground.RowLinksOver | src/components/ParticlesBackground.tsx:94-110 | The lines one inner loop draws are the lines over the pairs of its row. |
| ParticlesBackground.RowsLinks | src/components/ParticlesBackground.tsx:93-111 | One more outer round adds the lines of row i after those of the earlier rows. |
| ParticlesBackground.ConnectRow | src/components/ParticlesBackground.tsx:94-110 | The inner loop for particle i returns exactly `RowLinks` of row i, which `RowLinksOver` shows are the lines over the pairs (i, j), i ≤ j < n, in increasing j. |
| ParticlesBackground.ExaminedWithin | src/components/ParticlesBackground.tsx:93-96 | Every visited pair names two existing particles. |
| ParticlesBackground.SelfLinks | src/components/ParticlesBackground.tsx:94-104 | Each particle is paired with itself at distance 0. It gets a zero-length line of opacity 0.2. |
| ParticlesBackground.ConnectedIffClose | src/components/ParticlesBackground.tsx:90-112 | A line joins i and j iff i ≤ j < n and their distance is below 120, with opacity `Alpha` of it. For a non-negative distance that opacity is in (0, 0.2]. |
| ParticleCanvas.ParticleField.constructor | src/components/ParticlesBackground.tsx:114-116 | On mount, the canvas takes the window size and is filled from the draws. |
| ParticleCanvas.ParticleField.ResizeCanvas | src/components/ParticlesBackground.tsx:25-32 | The canvas takes the window size. The particles are re-created from the draws, and every one is on the canvas. |
| ParticleCanvas.ParticleField.InitParticles | src/components/ParticlesBackground.tsx:34-49 | The list is emptied and refilled with exactly `ParticleCount(innerWidth)` new particles, one per draw. No old particle survives. |
| ParticleCanvas.ParticleField.Tick | src/components/ParticlesBackground.tsx:65-82 | Every particle is moved once in place. None is added, dropped or reordered. The band invariant holds. |
| ParticleCanvas.ParticleField.ConnectParticles | src/components/ParticlesBackground.tsx:90-112 | The nested loops draw exactly `LinksOver` of all pairs i ≤ j, in loop order. |
| ParticleCanvas.ParticleField.DrawFrame | src/components/ParticlesBackground.tsx:62-88 | One frame: move every particle, then draw the lines for the new positions. |

## Left out

- The chat-completion request in `fetchResponse` (AskCommand.tsx:59-149) is not modelled. It covers network I/O, the JSON body, the API key and the async error path. `AskCommand.AskPanel.HandleKeyDown` returns the question it would send instead.
- `Date.now()` is not read. The clock reading is the `now` parameter of `CanMakeRequest` and `HandleKeyDown`.
- `Math.random()` is not modelled: the draws are parameters assumed in [0, 1). `Math.sqrt` is not modelled either: distance is a function parameter. Positions and speeds are exact reals, so IEEE-754 rounding is not modelled.
- Canvas drawing, `requestAnimationFrame`/`cancelAnimationFrame`, the resize listener and its cleanup are left out, because they are browser plumbing. A line is modelled as the record `Link(i, j, alpha)`.
- The JSX content panels are modelled as the constants of `Panel`, because they are static markup. The header, the scrollback rendering and the page layout are left out for the same reason.
- The welcome timer, scroll-to-bottom and click-to-focus effects (Terminal.tsx:17-64) are left out. They are timers and DOM.
- TextOps.ToLower: lowers ASCII `A`-`Z` and the Kelvin sign U+212A (to `k`) only. JavaScript's `toLowerCase` also lowers other Unicode letters, such as `À` to `à` and `İ` to the two characters `i` and U+0307. Apart from the Kelvin sign, none of them lowers to ASCII letters alone (`İ` keeps U+0307 after its `i`), so no further spelling reaches a command. But such a line is logged, and shown in the "command not found" message, with those letters unlowered.
- CommandList.AskAIPrompt and AskCommand.FallbackPrompt hold only the opening sentence of their long prompt texts. The model only relies on them being non-empty.
- `onResponseReceived` callbacks and the `isTypingAnimation` flag are left out. They carry no logic of the modelled operations.
- Terminal.TerminalState.ExecuteCommand: React's queued state updates (`setCommandHistory`, `setHistory`) are modelled as immediate assignments. Batching and re-render timing are not modelled.
- ParticleCanvas.ParticleField.Tick: mutating particle objects in place is modelled as replacing sequence elements. Aliasing of the particle objects is not modelled.
- ParticleCanvas.ParticleField.InitParticles: the window width and the canvas width are kept as the separate `innerWidth` and `width`, as in the source. The model requires at least as many draws as particles.
- The state of `AskCommand.AskPanel` after the request completes (response or error set, loading cleared) is not modelled. It belongs to the left-out `fetchResponse`.

## Findings

| source | as written | input that shows it | evidently intended | confidence | as-written member | corrected member |
|---|---|---|---|---|---|---|
| src/components/terminal/Terminal.tsx:85-89 | `commands[cmd]` also finds the properties every object inherits from `Object.prototype`. That value is truthy, so `command.action()` is called on something without an `action` and throws a TypeError. No scrollback entry is appended. | the line `constructor` (likewise `__proto__`) | `Command not found: constructor. Type 'help' to see available commands.`, as for any other unknown word | high; not executed | Terminal.DispatchAsWritten, Terminal.ConstructorThrows | Terminal.Dispatch |
