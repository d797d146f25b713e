/**
 * The focus timer of src/components/PomodoroTimer.jsx: a 30-minute work
 * phase and a 5-minute break, a penalty for abandoning a started work
 * phase, the hyper-growth flag it publishes, and the `MM:SS` display.
 * Each one-second interval firing and each effect run is one method call.
 */
module Pomodoro {
  import opened Wrappers
  import GameContext

  datatype Mode = Work | Break

  const WorkMinutes := 30
  const BreakMinutes := 5
  const WorkSeconds := WorkMinutes * 60
  const BreakSeconds := BreakMinutes * 60
  /** Coins lost for abandoning a started work phase. */
  const CancelPenalty := 5

  /**
   * The `questbloom_hyper_growth` flag after the storage effect runs:
   * set while a work phase runs, cleared while the timer is stopped, and left
   * as it was while a break runs.
   */
  function HyperGrowthAfter(flag: bool, isActive: bool, mode: Mode): (f: bool)
    ensures isActive && mode == Work ==> f
    ensures !isActive ==> !f
    ensures isActive && mode == Break ==> f == flag
  {
    if isActive then (if mode == Work then true else flag) else false
  }

  /** Running the effect again with the same state changes nothing. */
  lemma HyperGrowthIdempotent(flag: bool, isActive: bool, mode: Mode)
    ensures HyperGrowthAfter(HyperGrowthAfter(flag, isActive, mode), isActive, mode)
            == HyperGrowthAfter(flag, isActive, mode)
  {
  }

  class PomodoroTimer {
    const game: GameContext.Game
    var mode: Mode
    var timeLeft: int
    var isActive: bool
    /** The hyper-growth flag last written to local storage. */
    var hyperGrowth: bool

    /**
     * The time left stays within the phase's length, a break only runs while
     * the timer is active (a stopped timer is always in work mode), and the
     * published flag is on exactly while the timer runs, breaks included.
     */
    ghost predicate Valid()
      reads this
    {
      && 0 <= timeLeft <= WorkSeconds
      && (mode == Break ==> isActive && timeLeft <= BreakSeconds)
      && hyperGrowth == isActive
    }

    /** Mounting: work mode, 30:00, stopped; the effect writes `false`. */
    constructor (game: GameContext.Game)
      ensures Valid() && this.game == game
      ensures mode == Work && timeLeft == 1800 && !isActive && !hyperGrowth
    {
      this.game := game;
      mode := Work;
      timeLeft := WorkSeconds;
      isActive := false;
      hyperGrowth := HyperGrowthAfter(false, false, Work);
    }

    /** One firing of the interval, which runs only while active with time left. */
    method Tick()
      requires Valid() && isActive && timeLeft > 0
      modifies this
      ensures Valid()
      ensures timeLeft == old(timeLeft) - 1
      ensures mode == old(mode) && isActive == old(isActive) && hyperGrowth == old(hyperGrowth)
    {
      timeLeft := timeLeft - 1;
      hyperGrowth := HyperGrowthAfter(hyperGrowth, isActive, mode);
    }

    /**
     * `handleComplete`, called when an active phase reaches 0: work turns
     * into a 5-minute break that keeps running; a break turns back into a
     * stopped 30-minute work phase.
     */
    method HandleComplete()
      requires Valid() && isActive && timeLeft == 0
      modifies this
      ensures Valid()
      ensures old(mode) == Work ==> mode == Break && timeLeft == 300 && isActive
      ensures old(mode) == Break ==> mode == Work && timeLeft == 1800 && !isActive
    {
      if mode == Work {
        mode := Break;
        timeLeft := BreakSeconds;
      } else {
        mode := Work;
        timeLeft := WorkSeconds;
        isActive := false;
      }
      hyperGrowth := HyperGrowthAfter(hyperGrowth, isActive, mode);
    }

    /**
     * One step of the timer effect: a tick while active with time left, the
     * phase change while active at 0, nothing while stopped.
     */
    method Advance()
      requires Valid()
      modifies this
      ensures Valid()
      ensures old(isActive) && old(timeLeft) > 0 ==>
        timeLeft == old(timeLeft) - 1 && mode == old(mode) && isActive
      ensures old(isActive) && old(timeLeft) == 0 && old(mode) == Work ==>
        mode == Break && timeLeft == 300 && isActive
      ensures old(isActive) && old(timeLeft) == 0 && old(mode) == Break ==>
        mode == Work && timeLeft == 1800 && !isActive
      ensures !old(isActive) ==> mode == old(mode) && timeLeft == old(timeLeft) && !isActive
    {
      if isActive && timeLeft > 0 {
        Tick();
      } else if isActive && timeLeft == 0 {
        HandleComplete();
      }
    }

    /**
     * `togglePlay`. Stopping a work phase that has started first asks for
     * confirmation (`confirmed`); declining changes nothing, accepting costs
     * 5 coins if the player has them. Every stop that goes ahead resets the
     * timer to a stopped 30-minute work phase. Starting only sets the timer
     * running.
     */
    method TogglePlay(confirmed: bool)
      requires Valid()
      modifies this, game
      ensures Valid()
      ensures game.tasks == old(game.tasks) && game.inventory == old(game.inventory)
      ensures var earlyCancel := old(isActive) && old(mode) == Work && old(timeLeft) < WorkSeconds;
        && (earlyCancel && !confirmed ==>
              mode == old(mode) && timeLeft == old(timeLeft) && isActive && game.profile == old(game.profile))
        && (old(isActive) && !(earlyCancel && !confirmed) ==>
              mode == Work && timeLeft == 1800 && !isActive)
        && game.profile == old(game.profile).(coins :=
              if earlyCancel && confirmed && old(game.profile.coins) >= CancelPenalty
              then old(game.profile.coins) - 5 else old(game.profile.coins))
      ensures !old(isActive) ==> isActive && mode == old(mode) == Work && timeLeft == old(timeLeft)
      ensures old(game.profile.coins) >= 0 ==> game.profile.coins >= 0
    {
      if isActive {
        if mode == Work && timeLeft < WorkSeconds {
          if !confirmed {
            return;
          }
          if game.profile.coins >= CancelPenalty {
            game.UpdateProfileCoins(game.profile.coins - CancelPenalty);
          }
        }
        isActive := false;
        mode := Work;
        timeLeft := WorkSeconds;
      } else {
        isActive := true;
      }
      hyperGrowth := HyperGrowthAfter(hyperGrowth, isActive, mode);
    }
  }

  /** The decimal digit `d` as a character. */
  function DigitChar(d: nat): char
    requires d < 10
  {
    ('0' as int + d) as char
  }

  predicate IsDigit(c: char) {
    '0' <= c <= '9'
  }

  function DigitValue(c: char): nat
    requires IsDigit(c)
  {
    (c as int - '0' as int) as nat
  }

  lemma DigitCharValue(d: nat)
    requires d < 10
    ensures IsDigit(DigitChar(d)) && DigitValue(DigitChar(d)) == d
  {
  }

  lemma DigitValueChar(c: char)
    requires IsDigit(c)
    ensures DigitValue(c) < 10 && DigitChar(DigitValue(c)) == c
  {
  }

  /** Splitting `60 * q + r` with `r < 60` into minutes and seconds gives back `q` and `r`. */
  lemma MinutesSeconds(q: nat, r: nat)
    requires r < 60
    ensures (60 * q + r) / 60 == q && (60 * q + r) % 60 == r
  {
  }

  /** `n.toString()` for a natural number. */
  function NatToString(n: nat): (s: string)
    ensures |s| >= 1
  {
    if n < 10 then [DigitChar(n)] else NatToString(n / 10) + [DigitChar(n % 10)]
  }

  predicate AllDigits(s: string) {
    forall i :: 0 <= i < |s| ==> IsDigit(s[i])
  }

  /** The number a string of decimal digits denotes. */
  function DecimalValue(s: string): nat
    requires AllDigits(s)
  {
    if s == [] then 0 else 10 * DecimalValue(s[..|s| - 1]) + DigitValue(s[|s| - 1])
  }

  /** `n.toString()` prints decimal digits, with no leading zero, that denote `n`. */
  lemma {:induction false} NatToStringDigits(n: nat)
    ensures AllDigits(NatToString(n))
    ensures n > 0 ==> NatToString(n)[0] != '0'
    ensures DecimalValue(NatToString(n)) == n
  {
    var s := NatToString(n);
    if n < 10 {
      DigitCharValue(n);
    } else {
      NatToStringDigits(n / 10);
      DigitCharValue(n % 10);
      assert s[..|s| - 1] == NatToString(n / 10);
    }
  }

  /** `s.padStart(2, '0')`. */
  function PadStart2(s: string): (r: string)
    ensures |r| == if |s| >= 2 then |s| else 2
  {
    if |s| >= 2 then s else seq(2 - |s|, _ => '0') + s
  }

  /** Padding puts zeros, and nothing else, in front of `s`. */
  lemma PadStart2Zeros(s: string)
    ensures PadStart2(s) == seq(|PadStart2(s)| - |s|, _ => '0') + s
  {
    if |s| >= 2 {
      assert seq(0, _ => '0') + s == s;
    }
  }

  /** `formatTime(seconds)`: minutes and seconds, each padded to two digits. */
  function FormatTime(seconds: nat): (r: string)
    ensures |r| >= 5
  {
    PadStart2(NatToString(seconds / 60)) + ":" + PadStart2(NatToString(seconds % 60))
  }

  /** Reads an `MM:SS` display back into seconds; anything else is rejected. */
  function ParseTime(t: string): Option<nat> {
    if |t| == 5 && t[2] == ':' && IsDigit(t[0]) && IsDigit(t[1]) && IsDigit(t[3]) && IsDigit(t[4])
    then Some(60 * (10 * DigitValue(t[0]) + DigitValue(t[1])) + 10 * DigitValue(t[3]) + DigitValue(t[4]))
    else None
  }

  /** A number below 100 prints, padded, as its tens digit then its units digit. */
  lemma PaddedTwoDigits(n: nat)
    requires n < 100
    ensures PadStart2(NatToString(n)) == [DigitChar(n / 10), DigitChar(n % 10)]
  {
    if n < 10 {
      assert NatToString(n) == [DigitChar(n)];
      assert seq(1, _ => '0') == [DigitChar(0)];
    } else {
      assert NatToString(n / 10) == [DigitChar(n / 10)];
    }
  }

  /** The display of `60 * q + r` minutes-and-seconds below 100 minutes, digit by digit. */
  lemma FormatTimeDigits(q: nat, r: nat)
    requires q < 100 && r < 60
    ensures FormatTime(60 * q + r) == [DigitChar(q / 10), DigitChar(q % 10), ':', DigitChar(r / 10), DigitChar(r % 10)]
  {
    MinutesSeconds(q, r);
    PaddedTwoDigits(q);
    PaddedTwoDigits(r);
  }

  /**
   * Below 100 minutes (every time the timer can show) the display has 5
   * characters and reads back as the same number of seconds.
   */
  lemma FormatTimeRoundTrip(seconds: nat)
    requires seconds < 6000
    ensures |FormatTime(seconds)| == 5
    ensures ParseTime(FormatTime(seconds)) == Some(seconds)
  {
    var m, s := seconds / 60, seconds % 60;
    FormatTimeDigits(m, s);
    DigitCharValue(m / 10);
    DigitCharValue(m % 10);
    DigitCharValue(s / 10);
    DigitCharValue(s % 10);
  }

  /** Conversely, every `MM:SS` text whose seconds are below 60 is the display of what it reads as. */
  lemma ParseTimeFormats(t: string)
    requires ParseTime(t).Some? && DigitValue(t[3]) < 6
    ensures FormatTime(ParseTime(t).value) == t
  {
    var a, b, c, d := DigitValue(t[0]), DigitValue(t[1]), DigitValue(t[3]), DigitValue(t[4]);
    DigitValueChar(t[0]);
    DigitValueChar(t[1]);
    DigitValueChar(t[3]);
    DigitValueChar(t[4]);
    assert (10 * a + b) / 10 == a && (10 * a + b) % 10 == b;
    assert (10 * c + d) / 10 == c && (10 * c + d) % 10 == d;
    FormatTimeDigits(10 * a + b, 10 * c + d);
    assert t == [t[0], t[1], ':', t[3], t[4]];
  }

  /** Every time the timer holds is shown as a 5-character `MM:SS`. */
  lemma TimerDisplay(timer: PomodoroTimer)
    requires timer.Valid()
    ensures |FormatTime(timer.timeLeft)| == 5
    ensures ParseTime(FormatTime(timer.timeLeft)) == Some(timer.timeLeft)
  {
    FormatTimeRoundTrip(timer.timeLeft);
  }
}
