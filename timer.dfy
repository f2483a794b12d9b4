/**
 * The countdown of `src/components/Timer.js`: `duration * 60` seconds, one
 * tick per scheduled interval, the terminal callback when the count is at
 * or below zero, `MM:SS` rendering and the colour threshold. Real time is
 * not modelled: a tick is a step.
 */
module Timer {
  import opened Strings

  /** What the component holds: the seconds left, whether a tick is
      scheduled, and how often `onTimeUp` has been called. */
  datatype Countdown = Countdown(secondsLeft: int, ticking: bool, timeUpCalls: nat)

  /** The effect run after every change of `secondsLeft`: at or below zero
      `onTimeUp` is called and no tick is scheduled; otherwise one is. */
  function Settle(secondsLeft: int, timeUpCalls: nat): (c: Countdown)
    ensures c.secondsLeft == secondsLeft
    ensures c.ticking <==> secondsLeft > 0
    ensures c.timeUpCalls == if secondsLeft > 0 then timeUpCalls else timeUpCalls + 1
  {
    if secondsLeft <= 0 then Countdown(secondsLeft, false, timeUpCalls + 1)
    else Countdown(secondsLeft, true, timeUpCalls)
  }

  function Start(duration: int): Countdown {
    Settle(duration * 60, 0)
  }

  /** A tick decreases the count by one and re-runs the effect; without a
      scheduled tick nothing happens. */
  function Step(c: Countdown): (r: Countdown)
    ensures c.ticking ==> r.secondsLeft == c.secondsLeft - 1
    ensures !c.ticking ==> r == c
  {
    if c.ticking then Settle(c.secondsLeft - 1, c.timeUpCalls) else c
  }

  function Steps(c: Countdown, k: nat): Countdown
    decreases k
  {
    if k == 0 then c else Steps(Step(c), k - 1)
  }

  /** From a positive duration, the count goes down one per tick, the
      callback fires exactly once when it reaches zero, and no tick follows. */
  lemma {:induction false} CountdownRun(duration: int, k: nat)
    requires duration > 0
    ensures Steps(Start(duration), k) ==
            if k < duration * 60 then Countdown(duration * 60 - k, true, 0)
            else Countdown(0, false, 1)
  {
    StepsFrom(duration * 60, k);
  }

  lemma {:induction false} StepsFrom(n: int, k: nat)
    requires n > 0
    ensures Steps(Settle(n, 0), k) == if k < n then Countdown(n - k, true, 0) else Countdown(0, false, 1)
  {
    if k > 0 {
      if n == 1 {
        StepsStopped(Countdown(0, false, 1), k - 1);
      } else {
        StepsFrom(n - 1, k - 1);
      }
    }
  }

  lemma {:induction false} StepsStopped(c: Countdown, k: nat)
    requires !c.ticking
    ensures Steps(c, k) == c
  {
    if k > 0 {
      StepsStopped(c, k - 1);
    }
  }

  /** A zero or negative duration calls back at once and never ticks. */
  lemma NonPositiveDuration(duration: int, k: nat)
    requires duration <= 0
    ensures Steps(Start(duration), k) == Countdown(duration * 60, false, 1)
  {
    StepsStopped(Start(duration), k);
  }

  class CountdownTimer {
    var secondsLeft: int
    var ticking: bool
    var timeUpCalls: nat

    function State(): Countdown
      reads this
    {
      Countdown(secondsLeft, ticking, timeUpCalls)
    }

    /** Mounting: the initial count and the first run of the effect. */
    constructor (duration: int)
      ensures State() == Start(duration)
    {
      secondsLeft := duration * 60;
      timeUpCalls := 0;
      ticking := duration * 60 > 0;
      if duration * 60 <= 0 {
        timeUpCalls := 1;
      }
    }

    /** The scheduled interval fires: the old tick is cleaned up and the
        effect runs again for the new count. */
    method Tick()
      modifies this
      ensures State() == Step(old(State()))
    {
      if ticking {
        secondsLeft := secondsLeft - 1;
        ticking := false;
        if secondsLeft <= 0 {
          timeUpCalls := timeUpCalls + 1;
        } else {
          ticking := true;
        }
      }
    }

    /** The effect also re-runs when the `onTimeUp` callback is a new function:
        at or below zero it is called again. */
    method CallbackChanged()
      modifies this
      ensures State() == Settle(old(secondsLeft), old(timeUpCalls))
    {
      ticking := false;
      if secondsLeft <= 0 {
        timeUpCalls := timeUpCalls + 1;
      } else {
        ticking := true;
      }
    }

    /** Unmounting clears the pending tick, so later ticks and callbacks
        cannot happen. */
    method Unmount()
      modifies this`ticking
      ensures !ticking
      ensures Steps(State(), 1) == State()
    {
      ticking := false;
    }
  }

  /** JavaScript's `%` for a positive divisor: the sign follows the dividend. */
  function JsRem(a: int, b: int): (r: int)
    requires b > 0
    ensures a >= 0 ==> 0 <= r < b && r == a % b
  {
    if a >= 0 then a % b else -((-a) % b)
  }

  /** `formatTime()`: minutes (`Math.floor`) and seconds (`%`), each padded
      to two characters with `0`. */
  function FormatTime(secondsLeft: int): string {
    var minutes := secondsLeft / 60;   // floor division, the divisor being positive
    var seconds := JsRem(secondsLeft, 60);
    PadStart(IntToString(minutes), 2, '0') + ":" + PadStart(IntToString(seconds), 2, '0')
  }

  /** A padded rendering of `n` reads back as `n`; below 100 it is exactly
      two characters. */
  lemma PaddedReadsBack(n: nat)
    ensures var p := PadStart(NatToString(n), 2, '0');
            |p| >= 2 && AllDigits(p) && DigitsValue(p) == n && (n < 100 ==> |p| == 2)
  {
    var s := NatToString(n);
    var p := PadStart(s, 2, '0');
    LeadingZerosValue(|p| - |s|, s);
    NatToStringRoundTrip(n);
    PaddedDigits(s, 2);
    if n < 100 { NatToStringShort(n); }
  }

  /** Two padded digit strings joined by a colon split back into themselves. */
  lemma ColonSplit(mm: string, ss: string, minutes: int, seconds: int)
    requires |mm| >= 2 && AllDigits(mm) && DigitsValue(mm) == minutes
    requires |ss| == 2 && AllDigits(ss) && DigitsValue(ss) == seconds
    ensures var t := mm + ":" + ss;
            && |t| >= 5 && t[|t| - 3] == ':'
            && AllDigits(t[..|t| - 3]) && AllDigits(t[|t| - 2..])
            && DigitsValue(t[..|t| - 3]) == minutes && DigitsValue(t[|t| - 2..]) == seconds
  {
    var t := mm + ":" + ss;
    assert t[..|t| - 3] == mm;
    assert t[|t| - 2..] == ss;
  }

  lemma FormatTimeNonNegative(secondsLeft: nat)
    ensures FormatTime(secondsLeft)
            == PadStart(NatToString(secondsLeft / 60), 2, '0') + ":" + PadStart(NatToString(secondsLeft % 60), 2, '0')
  {
  }

  /** For a non-negative count the rendering is `MM:SS`: two or more minute
      digits, exactly two second digits below 60, and the two read back to
      the count. */
  lemma FormatTimeReadsBack(secondsLeft: nat)
    ensures var t := FormatTime(secondsLeft);
            && |t| >= 5 && t[|t| - 3] == ':'
            && AllDigits(t[..|t| - 3]) && AllDigits(t[|t| - 2..])
            && DigitsValue(t[|t| - 2..]) < 60
            && DigitsValue(t[..|t| - 3]) * 60 + DigitsValue(t[|t| - 2..]) == secondsLeft
  {
    var minutes: nat := secondsLeft / 60;
    var seconds: nat := secondsLeft % 60;
    PaddedReadsBack(minutes);
    PaddedReadsBack(seconds);
    var mm := PadStart(NatToString(minutes), 2, '0');
    var ss := PadStart(NatToString(seconds), 2, '0');
    FormatTimeNonNegative(secondsLeft);
    ColonSplit(mm, ss, minutes, seconds);
  }

  /** `timeColor`: red exactly in the last minute (or below zero), white otherwise. */
  function TimeColor(secondsLeft: int): (c: string)
    ensures c == "text-red-500" <==> secondsLeft < 60
    ensures c == "text-white" <==> secondsLeft >= 60
  {
    if secondsLeft < 60 then "text-red-500" else "text-white"
  }
}
