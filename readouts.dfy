/**
 * The read-only queries both managers answer: the index of the current lyric
 * line, the "m:ss/m:ss" progress text and the progress ratio.
 */
module Readouts {
  import opened Wrappers
  import opened LyricModels
  import opened Decimal

  /* ---------- current line ---------- */

  /** Line i is current at time t: it has started and it is the last line or the next one has not. */
  predicate IsWindowAt(lines: seq<LyricLine>, i: int, t: int)
    requires 0 <= i < |lines|
  {
    lines[i].time <= t && (i == |lines| - 1 || lines[i + 1].time > t)
  }

  /** The first current line at index k or later, or -1 when there is none. */
  function LineSearchFrom(lines: seq<LyricLine>, t: int, k: nat): (r: int)
    requires k <= |lines|
    ensures r == -1 ==> forall j :: k <= j < |lines| ==> !IsWindowAt(lines, j, t)
    ensures r != -1 ==>
      k <= r < |lines| && IsWindowAt(lines, r, t) && forall j :: k <= j < r ==> !IsWindowAt(lines, j, t)
    decreases |lines| - k
  {
    if k == |lines| then -1
    else if IsWindowAt(lines, k, t) then k
    else LineSearchFrom(lines, t, k + 1)
  }

  /** `GetCurrentLineIndex` of a manager: -1 without a lyric or without progress, else the first window at the pushed time. */
  function LineIndex(lyric: Option<LyricData>, progress: Option<ProgressData>): int {
    if lyric.None? || progress.None? then -1
    else LineSearchFrom(lyric.value.lines, progress.value.time, 0)
  }

  /** The loop of `GetCurrentLineIndex`, shared by both managers: it returns the first window at the pushed time. */
  method CurrentLineIndex(lyric: Option<LyricData>, progress: Option<ProgressData>) returns (r: int)
    ensures r == LineIndex(lyric, progress)
  {
    if lyric.None? || progress.None? {
      return -1;
    }
    var lines := lyric.value.lines;
    var t := progress.value.time;
    var i := 0;
    while i < |lines|
      invariant 0 <= i <= |lines|
      invariant LineSearchFrom(lines, t, i) == LineSearchFrom(lines, t, 0)
    {
      if lines[i].time <= t && (i == |lines| - 1 || lines[i + 1].time > t) {
        return i;
      }
      i := i + 1;
    }
    return -1;
  }

  predicate Sorted(lines: seq<LyricLine>) {
    forall i, j :: 0 <= i <= j < |lines| ==> lines[i].time <= lines[j].time
  }

  /** On lines in time order the search finds a line exactly when the first line has started. */
  lemma SortedSearch(lines: seq<LyricLine>, t: int)
    requires Sorted(lines)
    ensures var r := LineSearchFrom(lines, t, 0);
      (r != -1 <==> |lines| > 0 && lines[0].time <= t)
      && (r != -1 ==> forall j :: 0 <= j < |lines| && IsWindowAt(lines, j, t) ==> j == r)
  {
    var r := LineSearchFrom(lines, t, 0);
    if |lines| > 0 && lines[0].time <= t {
      var last := LastStarted(lines, t, 0);
      assert IsWindowAt(lines, last, t);
    }
    if r != -1 {
      forall j | 0 <= j < |lines| && IsWindowAt(lines, j, t)
        ensures j == r
      {
      }
    }
  }

  /** The last line at index k or later that has started, when line k has. */
  lemma {:induction false} LastStarted(lines: seq<LyricLine>, t: int, k: nat) returns (last: nat)
    requires k < |lines| && lines[k].time <= t
    ensures k <= last < |lines| && IsWindowAt(lines, last, t)
    decreases |lines| - k
  {
    if k == |lines| - 1 || lines[k + 1].time > t {
      last := k;
    } else {
      last := LastStarted(lines, t, k + 1);
    }
  }

  /* ---------- progress text ---------- */

  /** C#'s integer division, which truncates toward zero. */
  function Quot(a: int, b: int): (q: int)
    requires b > 0
    ensures a >= 0 ==> q == a / b
    ensures a < 0 ==> q == -((-a) / b)
  {
    if a >= 0 then a / b else -((-a) / b)
  }

  /** C#'s `%`, whose result takes the sign of the dividend. */
  function Rem(a: int, b: int): (r: int)
    requires b > 0
    ensures a >= 0 ==> 0 <= r < b
    ensures a < 0 ==> -b < r <= 0
    ensures a == b * Quot(a, b) + r
  {
    a - b * Quot(a, b)
  }

  /**
   * `(int)TimeSpan.FromMilliseconds(ms).TotalMinutes` and
   * `TimeSpan.Seconds` formatted "D2", joined by ':'. Both parts truncate
   * toward zero, so a negative time shows a negative seconds field.
   */
  function FormatTime(ms: int): string {
    ShowInt(Quot(ms, 60000)) + ":" + FormatD2(Rem(Quot(ms, 1000), 60))
  }

  /** `GetFormattedTime`: "0:00/0:00" without progress, else position and duration. */
  function FormattedTime(progress: Option<ProgressData>): string {
    match progress
    case None => "0:00/0:00"
    case Some(p) => FormatTime(p.time) + "/" + FormatTime(p.duration)
  }

  /** Reading "m:ss" back: whole minutes, a colon, two digits below 60; gives seconds. */
  function ParseClock(s: string): Option<int> {
    if |s| >= 4 && s[|s| - 3] == ':' && AllDigits(s[..|s| - 3]) && AllDigits(s[|s| - 2..])
      && DigitsValue(s[|s| - 2..]) < 60
    then Some(DigitsValue(s[..|s| - 3]) * 60 + DigitsValue(s[|s| - 2..]))
    else None
  }

  lemma PadTwoValue(n: nat)
    requires n < 100
    ensures |PadTwo(n)| == 2 && DigitsValue(PadTwo(n)) == n
  {
    if n < 10 {
      var s := PadTwo(n);
      assert s == ['0', DigitChar(n)];
      assert s[..1] == "0" && s[..1][..0] == [];
      assert DigitsValue(s[..1]) == 0;
    } else {
      var s := PadTwo(n);
      assert ShowNat(n / 10) == [DigitChar(n / 10)];
      assert s == [DigitChar(n / 10)] + [DigitChar(n % 10)];
      assert s[..1] == [DigitChar(n / 10)];
      assert s[..1][..0] == [];
      assert DigitsValue(s[..1]) == n / 10;
    }
  }

  /** Whole minutes and the seconds within the minute make up the whole seconds. */
  lemma MinutesAndSeconds(ms: nat)
    ensures (ms / 60000) * 60 + (ms / 1000) % 60 == ms / 1000
  {
    var q := ms / 1000;
    var m := q / 60;
    assert q == 60 * m + q % 60;
    assert ms == 1000 * q + ms % 1000;
    assert ms == 60000 * m + (1000 * (q % 60) + ms % 1000);
    assert 0 <= 1000 * (q % 60) + ms % 1000 < 60000;
    assert ms / 60000 == m;
  }

  /** The text of a non-negative time: minutes, ':', the seconds within the minute as two digits. */
  lemma FormatTimeShape(ms: nat)
    ensures (ms / 1000) % 60 < 60
    ensures FormatTime(ms) == ShowNat(ms / 60000) + ":" + PadTwo((ms / 1000) % 60)
  {
  }

  /** Reading back minutes and seconds written as "m:ss". */
  lemma ParseClockShown(m: nat, sec: nat)
    requires sec < 60
    ensures ParseClock(ShowNat(m) + ":" + PadTwo(sec)) == Some(m * 60 + sec)
  {
    PadTwoValue(sec);
    DigitsValueShowNat(m);
    var s := ShowNat(m) + ":" + PadTwo(sec);
    assert s[..|s| - 3] == ShowNat(m);
    assert s[|s| - 2..] == PadTwo(sec);
  }

  /** A non-negative time reads back as its whole seconds: the text loses only the milliseconds. */
  lemma FormatTimeRoundTrip(ms: int)
    requires ms >= 0
    ensures ParseClock(FormatTime(ms)) == Some(ms / 1000)
  {
    FormatTimeShape(ms);
    ParseClockShown(ms / 60000, (ms / 1000) % 60);
    MinutesAndSeconds(ms);
  }

  /** Times in different seconds are shown differently. */
  lemma FormatTimeSeparates(a: int, b: int)
    requires a >= 0 && b >= 0 && a / 1000 != b / 1000
    ensures FormatTime(a) != FormatTime(b)
  {
    FormatTimeRoundTrip(a);
    FormatTimeRoundTrip(b);
  }

  /** With progress, the text shows the position's and the duration's whole seconds, split at '/'. */
  lemma FormattedTimeShowsBoth(p: ProgressData)
    requires p.time >= 0 && p.duration >= 0
    ensures var s := FormattedTime(Some(p));
      exists k :: 0 <= k < |s| && s[k] == '/'
        && ParseClock(s[..k]) == Some(p.time / 1000)
        && ParseClock(s[k + 1..]) == Some(p.duration / 1000)
  {
    var s := FormattedTime(Some(p));
    var k := |FormatTime(p.time)|;
    assert s[..k] == FormatTime(p.time);
    assert s[k + 1..] == FormatTime(p.duration);
    FormatTimeRoundTrip(p.time);
    FormatTimeRoundTrip(p.duration);
  }

  /** The text shown without progress is the text of a zero position and zero duration. */
  lemma NoProgressLooksLikeZero()
    ensures FormattedTime(None) == FormattedTime(Some(ProgressData(0, 0)))
  {
    ZeroShown();
    assert "0:00" + "/" + "0:00" == "0:00/0:00";
  }

  lemma ZeroShown()
    ensures FormatTime(0) == "0:00"
  {
    assert DigitChar(0) == '0';
    assert ShowNat(0) == "0";
    assert Quot(0, 60000) == 0 && Quot(0, 1000) == 0 && Rem(0, 60) == 0;
    assert ShowInt(0) == "0";
    assert PadTwo(0) == "0" + "0";
    assert FormatD2(0) == "00";
    assert "0" + ":" + "00" == "0:00";
  }

  /* ---------- progress ratio ---------- */

  /** A single-precision quotient, with its infinities and NaN. */
  datatype Ratio = Finite(value: real) | PositiveInfinity | NegativeInfinity | NaN

  /**
   * `GetProgress`: 0 without progress, else position / duration. The
   * source divides by the duration without a guard, so a zero duration
   * yields an infinity or NaN.
   */
  function ProgressRatio(progress: Option<ProgressData>): (r: Ratio)
    ensures progress.None? ==> r == Finite(0.0)
    ensures progress.Some? && progress.value.duration != 0 ==>
      r.Finite? && r.value * progress.value.duration as real == progress.value.time as real
    ensures progress.Some? && progress.value.duration == 0 ==> !r.Finite?
  {
    match progress
    case None => Finite(0.0)
    case Some(p) =>
      if p.duration != 0 then Finite(p.time as real / p.duration as real)
      else if p.time > 0 then PositiveInfinity
      else if p.time < 0 then NegativeInfinity
      else NaN
  }
}
