/**
 * The AI question widget: a sliding-log rate limiter shared by every widget,
 * the Enter-key gate in front of the chat request, and which view the
 * widget shows. Clock readings are passed in as `now` (milliseconds).
 */
module AskCommand {
  import opened Wrappers
  import opened TextOps

  /** Requests per window and window length of the shared limiter: 10 per minute. */
  const ConfiguredMaxRequests: int := 10
  const ConfiguredTimeWindow: int := 60 * 1000

  const RateLimitMessage: string :=
    "Rate limit exceeded. Please wait a moment before trying again."

  /** The opening sentence of the persona prompt used when no prompt is given. */
  const FallbackPrompt: string :=
    "I am Morpheus, a guide in the digital realm."

  /** `a` is `b` with some entries dropped, the rest in their original order. */
  ghost predicate IsSubsequence(a: seq<int>, b: seq<int>)
    decreases |b|
  {
    if a == [] then true
    else if b == [] then false
    else (a[0] == b[0] && IsSubsequence(a[1..], b[1..])) || IsSubsequence(a, b[1..])
  }

  predicate Ascending(s: seq<int>) {
    forall i, j :: 0 <= i < j < |s| ==> s[i] <= s[j]
  }

  /**
   * The timestamps that survive `filter` at time `now`: exactly the entries
   * with `now - t < window`, in their original order.
   */
  function Recent(log: seq<int>, now: int, window: int): (kept: seq<int>)
    ensures |kept| <= |log|
    ensures forall t :: t in kept <==> t in log && now - t < window
    ensures IsSubsequence(kept, log)
  {
    if log == [] then []
    else if now - log[0] < window then [log[0]] + Recent(log[1..], now, window)
    else Recent(log[1..], now, window)
  }

  /**
   * The filter keeps every copy of an in-window timestamp and no copy of an
   * expired one, so the survivors' count is the in-window count.
   */
  lemma {:induction false} RecentCounts(log: seq<int>, now: int, window: int)
    ensures forall t :: multiset(Recent(log, now, window))[t]
                        == if now - t < window then multiset(log)[t] else 0
  {
    if log != [] {
      RecentCounts(log[1..], now, window);
      assert log == [log[0]] + log[1..];
    }
  }

  /** The outcome of one admission check: the verdict and the new log. */
  datatype Decision = Decision(admitted: bool, log: seq<int>)

  /**
   * One `canMakeRequest` at time `now`. It is denied exactly when the
   * in-window count has reached the budget; a denial records nothing, an
   * admission appends `now` to the survivors.
   */
  function Admit(log: seq<int>, now: int, maxRequests: int, window: int): (d: Decision)
    ensures d.admitted <==> |Recent(log, now, window)| < maxRequests
    ensures |d.log| == |Recent(log, now, window)| + (if d.admitted then 1 else 0)
    ensures d.log[..|Recent(log, now, window)|] == Recent(log, now, window)
    ensures d.admitted ==> d.log[|d.log| - 1] == now
    ensures |log| <= maxRequests ==> |d.log| <= maxRequests
    ensures window > 0 ==> forall t :: t in d.log ==> now - t < window
  {
    var kept := Recent(log, now, window);
    if |kept| >= maxRequests then Decision(false, kept)
    else
      assert (kept + [now])[..|kept|] == kept;
      Decision(true, kept + [now])
  }

  /** The verdicts of a series of calls, and the log they leave behind. */
  datatype Trace = Trace(verdicts: seq<bool>, log: seq<int>)

  /** Calls `canMakeRequest` once at each time of `nows`, in order. */
  function Replay(log: seq<int>, nows: seq<int>, maxRequests: int, window: int): (tr: Trace)
    ensures |tr.verdicts| == |nows|
    decreases |nows|
  {
    if nows == [] then Trace([], log)
    else
      var d := Admit(log, nows[0], maxRequests, window);
      var rest := Replay(d.log, nows[1..], maxRequests, window);
      Trace([d.admitted] + rest.verdicts, rest.log)
  }

  /** `n` copies of `x`. */
  function Repeat<T>(x: T, n: nat): (s: seq<T>)
    ensures |s| == n && forall i :: 0 <= i < n ==> s[i] == x
  {
    if n == 0 then [] else [x] + Repeat(x, n - 1)
  }

  /** Replaying two series one after the other is replaying their concatenation. */
  lemma {:induction false} ReplayConcat(log: seq<int>, a: seq<int>, b: seq<int>, maxRequests: int, window: int)
    ensures var first := Replay(log, a, maxRequests, window);
      var second := Replay(first.log, b, maxRequests, window);
      Replay(log, a + b, maxRequests, window) == Trace(first.verdicts + second.verdicts, second.log)
    decreases |a|
  {
    if a == [] {
      assert a + b == b;
    } else {
      var d := Admit(log, a[0], maxRequests, window);
      assert (a + b)[0] == a[0];
      assert (a + b)[1..] == a[1..] + b;
      ReplayConcat(d.log, a[1..], b, maxRequests, window);
      var restA := Replay(d.log, a[1..], maxRequests, window);
      var second := Replay(restA.log, b, maxRequests, window);
      var restAB := Replay(d.log, a[1..] + b, maxRequests, window);
      assert restAB == Trace(restA.verdicts + second.verdicts, second.log);
      assert Replay(log, a, maxRequests, window) == Trace([d.admitted] + restA.verdicts, restA.log);
      assert Replay(log, a + b, maxRequests, window) == Trace([d.admitted] + restAB.verdicts, restAB.log);
      assert [d.admitted] + (restA.verdicts + second.verdicts) == ([d.admitted] + restA.verdicts) + second.verdicts;
    }
  }

  /** A log that starts within budget stays within budget, whatever the call times. */
  lemma {:induction false} ReplayBounded(log: seq<int>, nows: seq<int>, maxRequests: int, window: int)
    requires |log| <= maxRequests
    ensures |Replay(log, nows, maxRequests, window).log| <= maxRequests
    decreases |nows|
  {
    if nows != [] {
      ReplayBounded(Admit(log, nows[0], maxRequests, window).log, nows[1..], maxRequests, window);
    }
  }

  /** Dropped entries keep the order of the rest. */
  lemma {:induction false} SubsequenceAscending(a: seq<int>, b: seq<int>)
    requires IsSubsequence(a, b) && Ascending(b)
    ensures Ascending(a)
    decreases |b|
  {
    if a != [] {
      if a[0] == b[0] && IsSubsequence(a[1..], b[1..]) {
        SubsequenceAscending(a[1..], b[1..]);
        SubsequenceMembers(a[1..], b[1..]);
        forall j | 0 < j < |a| ensures a[0] <= a[j] {
          assert a[j] == a[1..][j - 1];
          assert a[j] in b[1..];
          var k :| 0 <= k < |b[1..]| && b[1..][k] == a[j];
          assert b[k + 1] == a[j];
        }
      } else {
        SubsequenceAscending(a, b[1..]);
      }
    }
  }

  lemma {:induction false} SubsequenceMembers(a: seq<int>, b: seq<int>)
    requires IsSubsequence(a, b)
    ensures forall t :: t in a ==> t in b
    decreases |b|
  {
    if a != [] {
      assert b == [b[0]] + b[1..];
      if a[0] == b[0] && IsSubsequence(a[1..], b[1..]) {
        SubsequenceMembers(a[1..], b[1..]);
        assert a == [a[0]] + a[1..];
      } else {
        SubsequenceMembers(a, b[1..]);
      }
    }
  }

  /** One call at a time no earlier than every entry keeps the log ascending. */
  lemma AdmitAscending(log: seq<int>, now: int, maxRequests: int, window: int)
    requires Ascending(log)
    requires forall t :: t in log ==> t <= now
    ensures Ascending(Admit(log, now, maxRequests, window).log)
    ensures forall t :: t in Admit(log, now, maxRequests, window).log ==> t <= now
  {
    var kept := Recent(log, now, window);
    SubsequenceAscending(kept, log);
    var d := Admit(log, now, maxRequests, window);
    if d.admitted {
      assert d.log == kept + [now];
      forall i, j | 0 <= i < j < |d.log| ensures d.log[i] <= d.log[j] {
        assert d.log[i] == kept[i];
        assert kept[i] in log;
        if j < |kept| {
          assert d.log[j] == kept[j];
        }
      }
    }
  }

  /** With non-decreasing call times the log stays sorted ascending. */
  lemma {:induction false} ReplayAscending(log: seq<int>, nows: seq<int>, maxRequests: int, window: int)
    requires Ascending(log) && Ascending(nows)
    requires nows != [] ==> forall t :: t in log ==> t <= nows[0]
    ensures Ascending(Replay(log, nows, maxRequests, window).log)
    decreases |nows|
  {
    if nows != [] {
      AdmitAscending(log, nows[0], maxRequests, window);
      var d := Admit(log, nows[0], maxRequests, window);
      if |nows| > 1 {
        assert nows[0] <= nows[1];
      }
      ReplayAscending(d.log, nows[1..], maxRequests, window);
    }
  }

  /** Entries stamped at the current instant are all in the window. */
  lemma {:induction false} RecentKeepsNow(n: nat, now: int, window: int)
    requires window > 0
    ensures Recent(Repeat(now, n), now, window) == Repeat(now, n)
  {
    if n > 0 {
      RecentKeepsNow(n - 1, now, window);
      assert Repeat(now, n)[1..] == Repeat(now, n - 1);
    }
  }

  /**
   * From a log whose in-window part is `m` calls at instant `now`, a burst of
   * `k` calls at that instant is admitted exactly while the budget lasts:
   * call `i` is admitted iff `m + i < maxRequests`.
   */
  lemma {:induction false} Burst(log: seq<int>, m: nat, k: nat, now: int, maxRequests: int, window: int)
    requires window > 0 && m <= maxRequests
    requires Recent(log, now, window) == Repeat(now, m)
    ensures var tr := Replay(log, Repeat(now, k), maxRequests, window);
      && (forall i :: 0 <= i < k ==> (tr.verdicts[i] <==> m + i < maxRequests))
      && (k > 0 ==> tr.log == Repeat(now, if m + k <= maxRequests then m + k else maxRequests))
    decreases k
  {
    if k > 0 {
      BurstStep(log, m, now, maxRequests, window);
      var d := Admit(log, now, maxRequests, window);
      var m' := if m < maxRequests then m + 1 else m;
      Burst(d.log, m', k - 1, now, maxRequests, window);
      ReplayRepeatHead(log, now, k, maxRequests, window);
      var rest := Replay(d.log, Repeat(now, k - 1), maxRequests, window);
      BudgetVerdicts([d.admitted] + rest.verdicts, m, maxRequests);
    }
  }

  /**
   * Verdicts that start with "`m` under budget" and continue with the verdicts
   * for `m + 1` (or `m`, once the budget is spent) say, at each position `i`,
   * whether `m + i` is under budget.
   */
  lemma BudgetVerdicts(v: seq<bool>, m: nat, maxRequests: int)
    requires v != [] && m <= maxRequests
    requires v[0] <==> m < maxRequests
    requires var m' := if m < maxRequests then m + 1 else m;
      forall i :: 0 <= i < |v| - 1 ==> (v[1..][i] <==> m' + i < maxRequests)
    ensures forall i :: 0 <= i < |v| ==> (v[i] <==> m + i < maxRequests)
  {
    forall i | 0 < i < |v| ensures v[i] <==> m + i < maxRequests {
      assert v[i] == v[1..][i - 1];
    }
  }

  /** One call at `now` on a log of `m` entries at `now`: admitted iff `m` is under budget. */
  lemma BurstStep(log: seq<int>, m: nat, now: int, maxRequests: int, window: int)
    requires window > 0 && m <= maxRequests
    requires Recent(log, now, window) == Repeat(now, m)
    ensures var d := Admit(log, now, maxRequests, window);
      && (d.admitted <==> m < maxRequests)
      && d.log == Repeat(now, if m < maxRequests then m + 1 else m)
      && Recent(d.log, now, window) == d.log
  {
    var d := Admit(log, now, maxRequests, window);
    var m' := if m < maxRequests then m + 1 else m;
    if m < maxRequests {
      assert d.log == Repeat(now, m) + [now];
    }
    assert d.log == Repeat(now, m');
    RecentKeepsNow(m', now, window);
  }

  /** The first of `k` calls at `now`, then the other `k - 1`. */
  lemma ReplayRepeatHead(log: seq<int>, now: int, k: nat, maxRequests: int, window: int)
    requires k > 0
    ensures var d := Admit(log, now, maxRequests, window);
      var rest := Replay(d.log, Repeat(now, k - 1), maxRequests, window);
      Replay(log, Repeat(now, k), maxRequests, window) == Trace([d.admitted] + rest.verdicts, rest.log)
  {
    assert Repeat(now, k)[1..] == Repeat(now, k - 1);
  }

  /** Every entry older than the window is dropped. */
  lemma {:induction false} RecentOfExpired(log: seq<int>, now: int, window: int)
    requires forall t :: t in log ==> now - t >= window
    ensures Recent(log, now, window) == []
  {
    if log != [] {
      assert log[0] in log;
      forall t | t in log[1..] ensures now - t >= window {
        var i :| 0 <= i < |log[1..]| && log[1..][i] == t;
        assert log[i + 1] in log;
      }
      RecentOfExpired(log[1..], now, window);
    }
  }

  /**
   * Denials consume no budget: once every recorded entry has left the window,
   * however many calls were denied before, the next `maxRequests` calls at
   * one instant are admitted and the one after them is denied.
   */
  lemma DenialsConsumeNothing(log: seq<int>, now: int, maxRequests: nat, window: int)
    requires window > 0
    requires forall t :: t in log ==> now - t >= window
    ensures Replay(log, Repeat(now, maxRequests + 1), maxRequests, window).verdicts
            == Repeat(true, maxRequests) + [false]
  {
    RecentOfExpired(log, now, window);
    Burst(log, 0, maxRequests + 1, now, maxRequests, window);
  }

  /**
   * The configured limiter (10 requests per 60000 ms): ten calls at one
   * instant are admitted, an eleventh at that instant is denied, and a call
   * 60000 ms later is admitted again.
   */
  lemma ConfiguredLimiter(now: int)
    ensures Replay([], Repeat(now, 11), ConfiguredMaxRequests, ConfiguredTimeWindow).verdicts
            == Repeat(true, 10) + [false]
    ensures Replay([], Repeat(now, 10) + [now + 60000], ConfiguredMaxRequests, ConfiguredTimeWindow).verdicts
            == Repeat(true, 11)
    ensures Replay([], Repeat(now, 11) + [now + 60000], ConfiguredMaxRequests, ConfiguredTimeWindow).verdicts
            == Repeat(true, 10) + [false] + [true]
  {
    DenialsConsumeNothing([], now, 10, 60000);
    FullWindowLater(now, 10, 60000);
    DeniedThenLater(now, 10, 60000);
  }

  /**
   * A burst one call past the budget: the budget is admitted, the extra call
   * is denied, and the log holds the admitted calls only.
   */
  lemma BurstPastBudget(now: int, maxRequests: nat, window: int)
    requires window > 0
    ensures Replay([], Repeat(now, maxRequests + 1), maxRequests, window)
            == Trace(Repeat(true, maxRequests) + [false], Repeat(now, maxRequests))
  {
    assert Recent([], now, window) == Repeat(now, 0);
    Burst([], 0, maxRequests + 1, now, maxRequests, window);
    DenialsConsumeNothing([], now, maxRequests, window);
  }

  /** A call one whole window after every logged entry is admitted, when the budget is positive. */
  lemma LaterCallAdmitted(log: seq<int>, later: int, maxRequests: int, window: int)
    requires maxRequests > 0
    requires forall t :: t in log ==> later - t >= window
    ensures Replay(log, [later], maxRequests, window).verdicts == [true]
  {
    RecentOfExpired(log, later, window);
    assert Admit(log, later, maxRequests, window).admitted;
    assert [later][1..] == [];
  }

  /**
   * After a burst one call past the budget, a call one whole window later is
   * admitted: the denied call left nothing in the log.
   */
  lemma DeniedThenLater(now: int, maxRequests: nat, window: int)
    requires window > 0 && maxRequests > 0
    ensures Replay([], Repeat(now, maxRequests + 1) + [now + window], maxRequests, window).verdicts
            == Repeat(true, maxRequests) + [false] + [true]
  {
    BurstPastBudget(now, maxRequests, window);
    var first := Replay([], Repeat(now, maxRequests + 1), maxRequests, window);
    LaterCallAdmitted(first.log, now + window, maxRequests, window);
    ReplayConcat([], Repeat(now, maxRequests + 1), [now + window], maxRequests, window);
  }

  /**
   * After a full budget is spent at one instant, a call one whole window
   * later is admitted.
   */
  lemma FullWindowLater(now: int, maxRequests: nat, window: int)
    requires window > 0 && maxRequests > 0
    ensures Replay([], Repeat(now, maxRequests) + [now + window], maxRequests, window).verdicts
            == Repeat(true, maxRequests + 1)
  {
    var first := Replay([], Repeat(now, maxRequests), maxRequests, window);
    assert Recent([], now, window) == Repeat(now, 0);
    Burst([], 0, maxRequests, now, maxRequests, window);
    assert first.verdicts == Repeat(true, maxRequests);
    assert first.log == Repeat(now, maxRequests);
    assert forall t :: t in first.log ==> now + window - t >= window;
    RecentOfExpired(first.log, now + window, window);
    ReplayConcat([], Repeat(now, maxRequests), [now + window], maxRequests, window);
    var last := Replay(first.log, [now + window], maxRequests, window);
    assert Admit(first.log, now + window, maxRequests, window).admitted;
    assert [now + window][1..] == [];
    assert last.verdicts == [true];
    assert Repeat(true, maxRequests + 1) == Repeat(true, maxRequests) + [true] by {
      RepeatSnoc(true, maxRequests);
    }
  }

  lemma {:induction false} RepeatSnoc<T>(x: T, n: nat)
    ensures Repeat(x, n + 1) == Repeat(x, n) + [x]
  {
    if n > 0 {
      RepeatSnoc(x, n - 1);
    }
  }

  /** The sliding-log limiter; its budget and window never change. */
  class RateLimiter {
    var timestamps: seq<int>
    const maxRequests: int
    const timeWindow: int

    /** The log never holds more than the budget. */
    ghost predicate Valid()
      reads this
    {
      timestamps == [] || |timestamps| <= maxRequests
    }

    constructor (maxRequests: int, timeWindow: int)
      ensures this.maxRequests == maxRequests && this.timeWindow == timeWindow
      ensures timestamps == [] && Valid()
    {
      this.maxRequests := maxRequests;
      this.timeWindow := timeWindow;
      timestamps := [];
    }

    /** `canMakeRequest` with the clock reading `now`. */
    method CanMakeRequest(now: int) returns (ok: bool)
      requires Valid()
      modifies this`timestamps
      ensures Valid()
      ensures ok <==> |Recent(old(timestamps), now, timeWindow)| < maxRequests
      ensures timestamps == if ok then Recent(old(timestamps), now, timeWindow) + [now]
                            else Recent(old(timestamps), now, timeWindow)
      ensures Decision(ok, timestamps) == Admit(old(timestamps), now, maxRequests, timeWindow)
      ensures timeWindow > 0 ==> forall t :: t in timestamps ==> now - t < timeWindow
    {
      timestamps := Recent(timestamps, now, timeWindow);
      if |timestamps| >= maxRequests {
        return false;
      }
      timestamps := timestamps + [now];
      return true;
    }
  }

  /** The module-level limiter every question widget shares. */
  method NewConfiguredLimiter() returns (limiter: RateLimiter)
    ensures fresh(limiter) && limiter.Valid() && limiter.timestamps == []
    ensures limiter.maxRequests == 10 && limiter.timeWindow == 60000
  {
    limiter := new RateLimiter(ConfiguredMaxRequests, ConfiguredTimeWindow);
  }

  /** `prompt || fallback`: the system prompt sent with a question. */
  function SystemPrompt(prompt: Option<string>): (p: string)
    ensures p != ""
    ensures prompt.Some? && prompt.value != "" ==> p == prompt.value
    ensures prompt.None? || prompt.value == "" ==> p == FallbackPrompt
  {
    if prompt.Some? && prompt.value != "" then prompt.value else FallbackPrompt
  }

  /** What the widget shows; earlier cases take precedence. */
  datatype View = Thinking | ErrorText(message: string) | ResponseText(text: string) | QuestionPrompt

  /** The question widget's state. */
  class AskPanel {
    var response: string
    var isLoading: bool
    var error: string
    var userQuestion: string
    const prompt: Option<string>
    const limiter: RateLimiter

    constructor (limiter: RateLimiter, prompt: Option<string>)
      ensures this.limiter == limiter && this.prompt == prompt
      ensures response == "" && !isLoading && error == "" && userQuestion == ""
      ensures View() == QuestionPrompt
    {
      this.limiter := limiter;
      this.prompt := prompt;
      response, isLoading, error, userQuestion := "", false, "", "";
    }

    /** Loading wins over an error, an error over a response; the question
     *  input is shown only when there is none of the three. */
    function View(): (v: View)
      reads this
      ensures v == Thinking <==> isLoading
      ensures v.ErrorText? <==> !isLoading && error != ""
      ensures v.ErrorText? ==> v.message == error
      ensures v.ResponseText? ==> v.text == response && response != ""
      ensures v == QuestionPrompt <==> !isLoading && error == "" && response == ""
    {
      if isLoading then Thinking
      else if error != "" then ErrorText(error)
      else if response != "" then ResponseText(response)
      else QuestionPrompt
    }

    /** Typing into the question input. */
    method SetUserQuestion(q: string)
      modifies this`userQuestion
      ensures userQuestion == q
    {
      userQuestion := q;
    }

    /**
     * `handleKeyDown`: only Enter with a non-blank question consults the
     * limiter. A denial shows the rate-limit error and starts nothing; an
     * admission starts loading, clears error and response, and hands the
     * trimmed question to the chat request (returned as `asked`).
     */
    method HandleKeyDown(key: string, now: int) returns (asked: Option<string>)
      requires limiter.Valid()
      modifies this`isLoading, this`error, this`response, limiter`timestamps
      ensures limiter.Valid()
      ensures userQuestion == old(userQuestion)
      ensures !(key == "Enter" && Trim(userQuestion) != "") ==>
                && asked == None
                && unchanged(this) && unchanged(limiter)
      ensures key == "Enter" && Trim(userQuestion) != "" ==>
                var d := Admit(old(limiter.timestamps), now, limiter.maxRequests, limiter.timeWindow);
                && limiter.timestamps == d.log
                && (!d.admitted ==>
                      && error == RateLimitMessage
                      && isLoading == old(isLoading) && response == old(response)
                      && asked == None)
                && (d.admitted ==>
                      && isLoading && error == "" && response == ""
                      && asked == Some(Trim(userQuestion)))
      ensures asked.Some? ==> View() == Thinking
      ensures key == "Enter" && Trim(userQuestion) != "" && asked.None? && !isLoading ==>
                View() == ErrorText(RateLimitMessage)
    {
      asked := None;
      var question := Trim(userQuestion);
      if key == "Enter" && question != "" {
        var ok := limiter.CanMakeRequest(now);
        if !ok {
          error := RateLimitMessage;
          return;
        }
        isLoading, error, response := true, "", "";
        asked := Some(question);
      }
    }
  }
}
