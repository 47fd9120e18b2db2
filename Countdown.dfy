/** The reset countdown shown in the duplicate-claim dialog: the time left
    until the earliest claim lapses, written as zero-padded `HH:MM:SS`. */
module Countdown {
  import opened Wrappers
  import opened Text
  import opened ClaimCache

  /** `timestamp + twoHoursInMs - now`: milliseconds until the claim lapses. */
  function TimeLeft(timestamp: int, now: int): int {
    timestamp + ResetWindow - now
  }

  /** The three numbers the countdown shows. */
  datatype Clock = Clock(hours: nat, minutes: nat, seconds: nat)

  /** The floor divisions of `updateCountdown` for a positive `timeLeft`:
      whole hours, the minutes and the seconds of what remains. */
  function ClockOf(timeLeft: int): (c: Clock)
    requires timeLeft > 0
    ensures c.minutes < 60 && c.seconds < 60
    ensures c.hours * 3600 + c.minutes * 60 + c.seconds == timeLeft / 1000
  {
    var h := timeLeft / 3600000;
    var r := timeLeft % 3600000;
    var m := r / 60000;
    var r2 := r % 60000;
    var s := r2 / 1000;
    var r3 := r2 % 1000;
    assert timeLeft == (h * 60 + m) * 60000 + r2;
    assert timeLeft % 60000 == r2;
    assert timeLeft == (h * 3600 + m * 60 + s) * 1000 + r3;
    Clock(h, m, s)
  }

  /** The text of the countdown element after one tick. */
  function Display(timeLeft: int): string {
    if timeLeft <= 0 then "00:00:00"
    else
      var c := ClockOf(timeLeft);
      Pad2(c.hours) + ":" + Pad2(c.minutes) + ":" + Pad2(c.seconds)
  }

  /** One tick of `updateCountdown`: the text shown and whether this tick is
      the one that stops the interval and closes the dialog. */
  datatype Tick = Tick(text: string, expired: bool)

  function UpdateCountdown(timestamp: int, now: int): (t: Tick)
    ensures t.expired <==> now >= timestamp + ResetWindow
  {
    var left := TimeLeft(timestamp, now);
    Tick(Display(left), left <= 0)
  }

  /** The number two digit characters write. */
  function TwoDigits(hi: char, lo: char): nat
    requires IsDigit(hi) && IsDigit(lo)
  {
    DigitValue(hi) * 10 + DigitValue(lo)
  }

  /** Reads an `HH:MM:SS` text back as a number of seconds. */
  function ReadClock(s: string): Option<nat> {
    if && |s| == 8 && s[2] == ':' && s[5] == ':'
       && IsDigit(s[0]) && IsDigit(s[1]) && IsDigit(s[3]) && IsDigit(s[4]) && IsDigit(s[6]) && IsDigit(s[7])
    then Some(TwoDigits(s[0], s[1]) * 3600 + TwoDigits(s[3], s[4]) * 60 + TwoDigits(s[6], s[7]))
    else None
  }

  // ---------------------------------------------------------------------------

  lemma ReadClockParts(a: string, b: string, c: string)
    requires |a| == 2 && |b| == 2 && |c| == 2
    requires AllDigits(a) && AllDigits(b) && AllDigits(c)
    ensures ReadClock(a + ":" + b + ":" + c)
         == Some(TwoDigits(a[0], a[1]) * 3600 + TwoDigits(b[0], b[1]) * 60 + TwoDigits(c[0], c[1]))
  {
    var s := a + ":" + b + ":" + c;
    assert s == [a[0], a[1], ':', b[0], b[1], ':', c[0], c[1]];
  }

  /** Below 100 hours the countdown text reads back as the whole seconds left,
      and as zero once the time is up: it never shows a negative duration. */
  lemma DisplayReadsBack(timeLeft: int)
    requires timeLeft < 100 * 3600000
    ensures ReadClock(Display(timeLeft)) == Some(if timeLeft <= 0 then 0 else timeLeft / 1000)
  {
    if timeLeft <= 0 {
      ReadClockParts("00", "00", "00");
      assert "00" + ":" + "00" + ":" + "00" == "00:00:00";
    } else {
      var c := ClockOf(timeLeft);
      assert c.hours < 100;
      ReadClockParts(Pad2(c.hours), Pad2(c.minutes), Pad2(c.seconds));
    }
  }

  /** For a claim recorded in the past the countdown starts at two hours or less. */
  lemma PastClaimWithinTwoHours(timestamp: int, now: int)
    requires timestamp <= now && TimeLeft(timestamp, now) > 0
    ensures var c := ClockOf(TimeLeft(timestamp, now));
            c.hours <= 2 && (c.hours == 2 ==> c.minutes == 0 && c.seconds == 0)
  {
    var c := ClockOf(TimeLeft(timestamp, now));
    assert TimeLeft(timestamp, now) / 1000 <= 7200;
  }

  /** Five seconds before the window closes the countdown shows `00:00:05`. */
  lemma FiveSecondsLeft(now: int)
    ensures UpdateCountdown(now - (ResetWindow - 5000), now) == Tick("00:00:05", false)
  {
    assert TimeLeft(now - (ResetWindow - 5000), now) == 5000;
    assert ClockOf(5000) == Clock(0, 0, 5);
  }

  /** At exactly two hours the countdown reads zero and stops, while the sweep,
      whose test is strict, still keeps the claim that blocks the key. */
  lemma ZeroWhileStillClaimed(m: Store, key: string, t: int)
    requires t != 0
    ensures UpdateCountdown(t, t + ResetWindow) == Tick("00:00:00", true)
    ensures IsClaimed(Swept(m[key := Record(t, true)], t + ResetWindow), key)
  {
    ClaimHoldsWithinWindow(m, key, t, t + ResetWindow);
  }
}
