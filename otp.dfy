/**
 * The fresh-OTP wait shared by run_kyriba_workflow.js, kyriba_automation.js and
 * kyriba_automation_4.js: read the "Code refreshes in N seconds" timer, take the
 * code only when more than 45 seconds remain, otherwise wait N + 5 seconds and
 * read again, at most three times. The OTP page is a sequence of readings, one
 * per timer read; waiting is recorded, not performed.
 */
module Otp {
  import opened Base
  import opened JsText

  const MaxAttempts: nat := 3
  const FreshThreshold: nat := 45
  const MarginSeconds: nat := 5

  /** How a script turns the timer text into seconds when the text holds no digits. */
  datatype TimerParse =
    | ZeroWhenNoDigits   // the two automation scripts: `secondsMatch ? parseInt(secondsMatch[1]) : 0`
    | ThrowWhenNoDigits  // the workflow runner: `timerText.match(/(\d+)/)[1]` throws on a null match

  /** What the page shows at one read: the timer text and the text of the code element. */
  datatype OtpReading = OtpReading(timerText: string, codeText: string)

  datatype OtpOutcome =
    | Fresh(code: string)   // a trimmed, non-empty code read with more than 45 s left
    | NoFreshOtp            // `if (!otpNumber) throw ...`
    | TimerUnreadable       // the runner's TypeError on a timer without digits

  /** The outcome, the waits performed (in ms, as passed to `waitForTimeout`) and the number of timer reads. */
  datatype OtpRun = OtpRun(outcome: OtpOutcome, waitsMs: seq<nat>, timerReads: nat)

  /** Messages of the errors the scripts throw when no code was obtained. */
  const RunnerNoOtpMessage: string := "Failed to get OTP"
  const ScriptNoOtpMessage: string := "Failed to get a fresh OTP after multiple attempts"
  /** The message Node gives the TypeError of indexing a null match. */
  const NullMatchMessage: string := "Cannot read properties of null (reading '1')"

  /** The seconds a script reads from the timer text; `None` where the runner throws. */
  function RemainingSeconds(timerText: string, parse: TimerParse): Option<nat> {
    match FirstDigitRun(timerText)
    case Some(digits) => Some(DigitsValue(digits))
    case None => if parse.ZeroWhenNoDigits? then Some(0) else None
  }

  /** One timer read as the loop sees it: the parsed seconds and the trimmed code text. */
  datatype TimerRead = TimerRead(seconds: Option<nat>, code: string)

  function ReadAt(r: OtpReading, parse: TimerParse): TimerRead {
    TimerRead(RemainingSeconds(r.timerText, parse), Trim(r.codeText))
  }

  function ReadPage(page: seq<OtpReading>, parse: TimerParse): (seen: seq<TimerRead>)
    ensures |seen| == |page|
    ensures forall i :: 0 <= i < |page| ==> seen[i] == ReadAt(page[i], parse)
  {
    seq(|page|, i requires 0 <= i < |page| => ReadAt(page[i], parse))
  }

  predicate IsStale(t: TimerRead) {
    t.seconds.Some? && t.seconds.value <= FreshThreshold
  }

  predicate IsFresh(t: TimerRead) {
    t.seconds.Some? && t.seconds.value > FreshThreshold
  }

  function WaitMs(seconds: nat): nat {
    (seconds + MarginSeconds) * 1000
  }

  /** The loop from attempt number `a` on: the specification of `AwaitFreshOtp`. */
  function LoopFrom(seen: seq<TimerRead>, a: nat): OtpRun
    requires a <= MaxAttempts <= |seen|
    decreases MaxAttempts - a
  {
    if a == MaxAttempts then OtpRun(NoFreshOtp, [], a)
    else match seen[a].seconds
      case None => OtpRun(TimerUnreadable, [], a + 1)
      case Some(s) =>
        if s > FreshThreshold then
          OtpRun(if seen[a].code == [] then NoFreshOtp else Fresh(seen[a].code), [], a + 1)
        else
          var rest := LoopFrom(seen, a + 1);
          rest.(waitsMs := [WaitMs(s)] + rest.waitsMs)
  }

  function OtpSpec(page: seq<OtpReading>, parse: TimerParse): OtpRun
    requires |page| >= MaxAttempts
  {
    LoopFrom(ReadPage(page, parse), 0)
  }

  /** The `while (attempts < maxAttempts)` loop followed by the `if (!otpNumber)` check. */
  method AwaitFreshOtp(page: seq<OtpReading>, parse: TimerParse) returns (run: OtpRun)
    requires |page| >= MaxAttempts
    ensures run == OtpSpec(page, parse)
  {
    var seen := ReadPage(page, parse);
    run := AwaitOnReads(seen);
  }

  /** The loop over the reads the page yields, one per attempt. */
  method AwaitOnReads(seen: seq<TimerRead>) returns (run: OtpRun)
    requires |seen| >= MaxAttempts
    ensures run == LoopFrom(seen, 0)
  {
    var otpNumber: Option<string> := None;
    var attempts := 0;
    var waits: seq<nat> := [];
    while attempts < MaxAttempts
      invariant attempts <= MaxAttempts && otpNumber.None?
      invariant LoopFrom(seen, 0) == LoopFrom(seen, attempts).(waitsMs := waits + LoopFrom(seen, attempts).waitsMs)
    {
      var read := seen[attempts];
      if read.seconds.None? {
        run := OtpRun(TimerUnreadable, waits, attempts + 1);
        return;
      }
      if read.seconds.value > FreshThreshold {
        otpNumber := Some(read.code);
        break;
      }
      waits := waits + [WaitMs(read.seconds.value)];
      attempts := attempts + 1;
    }
    var timerReads := if otpNumber.Some? then attempts + 1 else attempts;
    if otpNumber.None? || otpNumber.value == [] {
      run := OtpRun(NoFreshOtp, waits, timerReads);
    } else {
      run := OtpRun(Fresh(otpNumber.value), waits, timerReads);
    }
  }

  /** The loop reads the timer at most three times and waits once after every read that did not stop it. */
  lemma {:induction false} LoopBounds(seen: seq<TimerRead>, a: nat)
    requires a <= MaxAttempts <= |seen|
    ensures var run := LoopFrom(seen, a);
      && a <= run.timerReads <= MaxAttempts
      && (|run.waitsMs| == run.timerReads - a || (run.timerReads > a && |run.waitsMs| == run.timerReads - a - 1))
      && (a < MaxAttempts ==>
            ((|run.waitsMs| == run.timerReads - a) <==>
             (run.timerReads == MaxAttempts && run.outcome == NoFreshOtp && IsStale(seen[MaxAttempts - 1]))))
    decreases MaxAttempts - a
  {
    if a < MaxAttempts {
      match seen[a].seconds
      case None =>
      case Some(s) =>
        if s <= FreshThreshold {
          LoopBounds(seen, a + 1);
        }
    }
  }

  lemma OtpBounds(page: seq<OtpReading>, parse: TimerParse)
    requires |page| >= MaxAttempts
    ensures var run := OtpSpec(page, parse);
      && run.timerReads <= MaxAttempts && |run.waitsMs| <= MaxAttempts
      && (|run.waitsMs| == run.timerReads || |run.waitsMs| + 1 == run.timerReads)
  {
    LoopBounds(ReadPage(page, parse), 0);
  }

  /** Every wait follows a read showing at most 45 seconds, and lasts that many seconds plus five. */
  lemma {:induction false} LoopWaits(seen: seq<TimerRead>, a: nat)
    requires a <= MaxAttempts <= |seen|
    ensures var run := LoopFrom(seen, a);
      && a + |run.waitsMs| <= MaxAttempts
      && forall i :: a <= i < a + |run.waitsMs| ==>
           IsStale(seen[i]) && run.waitsMs[i - a] == WaitMs(seen[i].seconds.value)
    decreases MaxAttempts - a
  {
    if a < MaxAttempts {
      match seen[a].seconds
      case None =>
      case Some(s) =>
        if s <= FreshThreshold {
          LoopWaits(seen, a + 1);
        }
    }
  }

  lemma OtpWaitsFollowStaleReads(page: seq<OtpReading>, parse: TimerParse)
    requires |page| >= MaxAttempts
    ensures var run := OtpSpec(page, parse);
      forall i :: 0 <= i < |run.waitsMs| ==>
        IsStale(ReadAt(page[i], parse)) && run.waitsMs[i] == WaitMs(RemainingSeconds(page[i].timerText, parse).value)
  {
    var seen := ReadPage(page, parse);
    LoopWaits(seen, 0);
    var run := LoopFrom(seen, 0);
    forall i | 0 <= i < |run.waitsMs|
      ensures IsStale(ReadAt(page[i], parse)) && run.waitsMs[i] == WaitMs(RemainingSeconds(page[i].timerText, parse).value)
    {
      assert seen[i] == ReadAt(page[i], parse);
    }
  }

  /** A code is taken only from a read showing more than 45 seconds, the first such read; it is trimmed and non-empty. */
  lemma {:induction false} LoopFreshOnlyAbove(seen: seq<TimerRead>, a: nat)
    requires a <= MaxAttempts <= |seen|
    ensures var run := LoopFrom(seen, a);
      run.outcome.Fresh? ==>
        && a < run.timerReads <= MaxAttempts && |run.waitsMs| == run.timerReads - 1 - a
        && IsFresh(seen[run.timerReads - 1])
        && run.outcome.code == seen[run.timerReads - 1].code && run.outcome.code != []
        && forall i :: a <= i < run.timerReads - 1 ==> IsStale(seen[i])
    decreases MaxAttempts - a
  {
    if a < MaxAttempts {
      match seen[a].seconds
      case None =>
      case Some(s) =>
        if s <= FreshThreshold {
          LoopFreshOnlyAbove(seen, a + 1);
        }
    }
  }

  lemma OtpFreshOnlyAbove45(page: seq<OtpReading>, parse: TimerParse)
    requires |page| >= MaxAttempts
    ensures var run := OtpSpec(page, parse);
      run.outcome.Fresh? ==>
        && RemainingSeconds(page[run.timerReads - 1].timerText, parse).Some?
        && RemainingSeconds(page[run.timerReads - 1].timerText, parse).value > FreshThreshold
        && run.outcome.code == Trim(page[run.timerReads - 1].codeText) && run.outcome.code != []
        && |run.waitsMs| == run.timerReads - 1
        && forall i :: 0 <= i < run.timerReads - 1 ==> IsStale(ReadAt(page[i], parse))
  {
    var seen := ReadPage(page, parse);
    LoopFreshOnlyAbove(seen, 0);
    var run := LoopFrom(seen, 0);
    if run.outcome.Fresh? {
      assert seen[run.timerReads - 1] == ReadAt(page[run.timerReads - 1], parse);
      StaleOnPage(page, parse, run.timerReads - 1);
    }
  }

  /** The first `k` reads are stale on the page exactly when they are stale as the loop sees them. */
  lemma StaleOnPage(page: seq<OtpReading>, parse: TimerParse, k: nat)
    requires k <= |page|
    ensures (forall i :: 0 <= i < k ==> IsStale(ReadPage(page, parse)[i]))
        <==> (forall i :: 0 <= i < k ==> IsStale(ReadAt(page[i], parse)))
  {
    var seen := ReadPage(page, parse);
    forall i | 0 <= i < k ensures seen[i] == ReadAt(page[i], parse) {
    }
  }

  /** Conversely, the first read with more than 45 seconds left, after stale seen only, yields its code. */
  lemma {:induction false} LoopTakesFirstFresh(seen: seq<TimerRead>, a: nat, j: nat)
    requires a <= j < MaxAttempts <= |seen|
    requires forall i :: a <= i < j ==> IsStale(seen[i])
    requires IsFresh(seen[j])
    ensures var run := LoopFrom(seen, a);
      && run.timerReads == j + 1 && |run.waitsMs| == j - a
      && run.outcome == (if seen[j].code == [] then NoFreshOtp else Fresh(seen[j].code))
    decreases j - a
  {
    if a < j {
      assert IsStale(seen[a]);
      LoopTakesFirstFresh(seen, a + 1, j);
    }
  }

  lemma OtpTakesFirstFreshRead(page: seq<OtpReading>, parse: TimerParse, j: nat)
    requires |page| >= MaxAttempts && j < MaxAttempts
    requires forall i :: 0 <= i < j ==> IsStale(ReadAt(page[i], parse))
    requires IsFresh(ReadAt(page[j], parse))
    ensures var run := OtpSpec(page, parse);
      && run.timerReads == j + 1 && |run.waitsMs| == j
      && run.outcome == (if Trim(page[j].codeText) == [] then NoFreshOtp else Fresh(Trim(page[j].codeText)))
  {
    var seen := ReadPage(page, parse);
    forall i | 0 <= i < j ensures IsStale(seen[i]) {
      assert seen[i] == ReadAt(page[i], parse);
    }
    assert seen[j] == ReadAt(page[j], parse);
    LoopTakesFirstFresh(seen, 0, j);
  }

  /** Three stale seen: the loop gives up after three seen and three waits. */
  lemma {:induction false} LoopGivesUp(seen: seq<TimerRead>, a: nat)
    requires a <= MaxAttempts <= |seen|
    requires forall i :: a <= i < MaxAttempts ==> IsStale(seen[i])
    ensures var run := LoopFrom(seen, a);
      run.outcome == NoFreshOtp && run.timerReads == MaxAttempts && |run.waitsMs| == MaxAttempts - a
    decreases MaxAttempts - a
  {
    if a < MaxAttempts {
      assert IsStale(seen[a]);
      LoopGivesUp(seen, a + 1);
    }
  }

  lemma OtpFailsWhenAllStale(page: seq<OtpReading>, parse: TimerParse)
    requires |page| >= MaxAttempts
    requires forall i :: 0 <= i < MaxAttempts ==> IsStale(ReadAt(page[i], parse))
    ensures var run := OtpSpec(page, parse);
      run.outcome == NoFreshOtp && run.timerReads == MaxAttempts && |run.waitsMs| == MaxAttempts
  {
    var seen := ReadPage(page, parse);
    forall i | 0 <= i < MaxAttempts ensures IsStale(seen[i]) {
      assert seen[i] == ReadAt(page[i], parse);
    }
    LoopGivesUp(seen, 0);
  }

  /** Every wait lasts at least the five-second margin. */
  lemma {:induction false} LoopWaitsAtLeastMargin(seen: seq<TimerRead>, a: nat)
    requires a <= MaxAttempts <= |seen|
    ensures forall w :: w in LoopFrom(seen, a).waitsMs ==> w >= WaitMs(0)
    decreases MaxAttempts - a
  {
    if a < MaxAttempts {
      match seen[a].seconds
      case None =>
      case Some(s) =>
        if s <= FreshThreshold {
          LoopWaitsAtLeastMargin(seen, a + 1);
        }
    }
  }

  lemma OtpWaitsAtLeastMargin(page: seq<OtpReading>, parse: TimerParse)
    requires |page| >= MaxAttempts
    ensures forall w :: w in OtpSpec(page, parse).waitsMs ==> w >= WaitMs(0)
  {
    LoopWaitsAtLeastMargin(ReadPage(page, parse), 0);
  }

  /** With the zero fallback no read is unreadable: a timer without digits counts as 0 s left, a stale read. */
  lemma ZeroFallbackReadsZero(r: OtpReading)
    ensures ReadAt(r, ZeroWhenNoDigits).seconds.Some?
    ensures FirstDigitRun(r.timerText).None? ==>
      IsStale(ReadAt(r, ZeroWhenNoDigits)) && WaitMs(ReadAt(r, ZeroWhenNoDigits).seconds.value) == 5000
  {
  }

  lemma {:induction false} LoopNeverUnreadable(seen: seq<TimerRead>, a: nat)
    requires a <= MaxAttempts <= |seen|
    requires forall i :: a <= i < MaxAttempts ==> seen[i].seconds.Some?
    ensures LoopFrom(seen, a).outcome != TimerUnreadable
    decreases MaxAttempts - a
  {
    if a < MaxAttempts {
      LoopNeverUnreadable(seen, a + 1);
    }
  }

  lemma ZeroFallbackNeverThrows(page: seq<OtpReading>)
    requires |page| >= MaxAttempts
    ensures OtpSpec(page, ZeroWhenNoDigits).outcome != TimerUnreadable
  {
    LoopNeverUnreadable(ReadPage(page, ZeroWhenNoDigits), 0);
  }

  /** The runner, without the fallback, throws at the first timer without digits. */
  lemma {:induction false} LoopStopsAtUnreadable(seen: seq<TimerRead>, a: nat, j: nat)
    requires a <= j < MaxAttempts <= |seen|
    requires forall i :: a <= i < j ==> IsStale(seen[i])
    requires seen[j].seconds.None?
    ensures LoopFrom(seen, a).outcome == TimerUnreadable && LoopFrom(seen, a).timerReads == j + 1
    decreases j - a
  {
    if a < j {
      assert IsStale(seen[a]);
      LoopStopsAtUnreadable(seen, a + 1, j);
    }
  }

  lemma RunnerThrowsOnDigitlessTimer(page: seq<OtpReading>, j: nat)
    requires |page| >= MaxAttempts && j < MaxAttempts
    requires forall i :: 0 <= i < j ==> IsStale(ReadAt(page[i], ThrowWhenNoDigits))
    requires FirstDigitRun(page[j].timerText).None?
    ensures OtpSpec(page, ThrowWhenNoDigits).outcome == TimerUnreadable
    ensures OtpSpec(page, ThrowWhenNoDigits).timerReads == j + 1
  {
    var seen := ReadPage(page, ThrowWhenNoDigits);
    forall i | 0 <= i < j ensures IsStale(seen[i]) {
      assert seen[i] == ReadAt(page[i], ThrowWhenNoDigits);
    }
    assert seen[j] == ReadAt(page[j], ThrowWhenNoDigits);
    LoopStopsAtUnreadable(seen, 0, j);
  }

  /** The error an automation script throws when the wait gives no code (both use the zero fallback). */
  function ScriptOtp(run: OtpRun): (r: Result<string>)
    requires run.outcome != TimerUnreadable
    ensures r.Ok? <==> run.outcome.Fresh?
    ensures r.Err? ==> r.message == ScriptNoOtpMessage
  {
    if run.outcome.Fresh? then Ok(run.outcome.code) else Err(ScriptNoOtpMessage)
  }

  /** The error the runner's `try` block raises when the wait gives no code. */
  function RunnerOtp(run: OtpRun): (r: Result<string>)
    ensures r.Ok? <==> run.outcome.Fresh?
    ensures run.outcome == NoFreshOtp ==> r == Err(RunnerNoOtpMessage)
    ensures run.outcome == TimerUnreadable ==> r == Err(NullMatchMessage)
  {
    match run.outcome
    case Fresh(code) => Ok(code)
    case NoFreshOtp => Err(RunnerNoOtpMessage)
    case TimerUnreadable => Err(NullMatchMessage)
  }

  /** A script whose three reads all find a stale code gives up with its own message. */
  lemma ScriptFailsWhenAllStale(page: seq<OtpReading>)
    requires |page| >= MaxAttempts
    requires forall i :: 0 <= i < MaxAttempts ==> IsStale(ReadAt(page[i], ZeroWhenNoDigits))
    ensures ScriptOtp(OtpSpec(page, ZeroWhenNoDigits)) == Err(ScriptNoOtpMessage)
  {
    OtpFailsWhenAllStale(page, ZeroWhenNoDigits);
  }

  /** A script returns the trimmed code of its first fresh read, when that code is not blank. */
  lemma ScriptTakesFirstFreshCode(page: seq<OtpReading>, j: nat)
    requires |page| >= MaxAttempts && j < MaxAttempts
    requires forall i :: 0 <= i < j ==> IsStale(ReadAt(page[i], ZeroWhenNoDigits))
    requires IsFresh(ReadAt(page[j], ZeroWhenNoDigits))
    ensures Trim(page[j].codeText) != [] ==> ScriptOtp(OtpSpec(page, ZeroWhenNoDigits)) == Ok(Trim(page[j].codeText))
    ensures Trim(page[j].codeText) == [] ==> ScriptOtp(OtpSpec(page, ZeroWhenNoDigits)) == Err(ScriptNoOtpMessage)
  {
    OtpTakesFirstFreshRead(page, ZeroWhenNoDigits, j);
  }
}
