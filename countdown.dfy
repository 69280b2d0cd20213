/** The one-second countdown shared by the silence and meditation screens: the effect
    that, while a session is active, takes one second off the timer and completes the
    session when it reaches zero, and `formatTime`, the `mm:ss` display. */
module Countdown {
  import opened Js
  import opened Text

  /** The two screen fields the countdown effect reads and writes. */
  datatype Clock = Clock(isActive: bool, timer: nat)

  /** One run of the effect: active with time left, one second less; active at zero,
      the session completes and the clock stops; inactive, it does nothing. */
  function Tick(c: Clock): (c': Clock)
    ensures c'.timer <= c.timer
    ensures c.isActive && c.timer > 0 ==> c' == Clock(true, c.timer - 1)
    ensures c.isActive && c.timer == 0 ==> c' == Clock(false, 0)
    ensures !c.isActive ==> c' == c
  {
    if c.isActive && c.timer > 0 then Clock(true, c.timer - 1)
    else if c.isActive then Clock(false, 0)
    else c
  }

  /** The completion step, taken when `Tick` stops an active clock. */
  predicate Completes(c: Clock) {
    c.isActive && c.timer == 0
  }

  /** n runs of the effect, one per elapsed second. */
  function Ticks(c: Clock, n: nat): Clock
    decreases n
  {
    if n == 0 then c else Ticks(Tick(c), n - 1)
  }

  /** A session started with d seconds still runs, with d - k seconds left, after k
      ticks for every k up to d. */
  lemma {:induction false} CountsDown(d: nat, k: nat)
    requires k <= d
    ensures Ticks(Clock(true, d), k) == Clock(true, d - k)
    decreases k
  {
    if k > 0 {
      assert Tick(Clock(true, d)) == Clock(true, d - 1);
      CountsDown(d - 1, k - 1);
    }
  }

  /** The session completes exactly one tick after the timer reaches zero, and from
      then on the clock stays stopped at zero. */
  lemma {:induction false} CompletesAfter(d: nat, extra: nat)
    ensures Ticks(Clock(true, d), d + 1 + extra) == Clock(false, 0)
  {
    CountsDown(d, d);
    TicksAfter(Clock(true, d), d, 1 + extra);
    StaysStopped(Clock(false, 0), extra);
    assert Ticks(Clock(true, 0), 1 + extra) == Ticks(Clock(false, 0), extra);
  }

  lemma {:induction false} TicksAfter(c: Clock, m: nat, n: nat)
    ensures Ticks(c, m + n) == Ticks(Ticks(c, m), n)
    decreases m
  {
    if m > 0 {
      TicksAfter(Tick(c), m - 1, n);
    }
  }

  /** An inactive clock is never changed by the effect. */
  lemma {:induction false} StaysStopped(c: Clock, n: nat)
    requires !c.isActive
    ensures Ticks(c, n) == c
    decreases n
  {
    if n > 0 {
      StaysStopped(Tick(c), n - 1);
    }
  }

  /** `formatTime(seconds)`: whole minutes and the remaining seconds, each padded to
      two digits, separated by a colon. */
  function FormatTime(seconds: nat): string {
    Padded2Pair(seconds / 60, ':', seconds % 60)
  }

  /** The display reads back as the time it shows: the colon sits third from the end,
      minutes * 60 + seconds is the input, and below 100 minutes the text is `mm:ss`. */
  lemma FormatTimeRoundTrip(seconds: nat)
    ensures var r := FormatTime(seconds);
      |r| >= 5 && r[|r| - 3] == ':'
      && AllDigits(r[..|r| - 3]) && AllDigits(r[|r| - 2..])
      && ParseNat(r[..|r| - 3]) * 60 + ParseNat(r[|r| - 2..]) == seconds
      && ParseNat(r[|r| - 2..]) < 60
      && (seconds < 6000 <==> |r| == 5)
  {
    var minutes, rest := seconds / 60, seconds % 60;
    assert minutes * 60 + rest == seconds && rest < 60;
    assert seconds < 6000 <==> minutes < 100;
    Padded2PairRoundTrip(minutes, ':', rest);
  }
}
