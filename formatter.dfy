/**
 * The arithmetic behind the terminal display (src/cli/formatter.ts): the time-remaining text,
 * the progress-bar cell counts, the colour and status bands, the minutes left in a session
 * and the plan labels. Colours, digit grouping and `toFixed` are not modelled.
 */
module Formatter {
  import opened Types
  import opened Text
  import opened Time
  import opened JsMath
  import opened TokenCalculator

  // ------------------------------------------------------------ formatTimeRemaining

  /** JavaScript's `a % b` for a positive `b`: the remainder takes the sign of `a`. */
  function JsRem(a: int, b: int): (r: int)
    requires b > 0
    ensures a >= 0 ==> 0 <= r < b && a == (a / b) * b + r
    ensures a < 0 ==> -b < r <= 0
  {
    if a >= 0 then a % b else -((-a) % b)
  }

  /** `formatTimeRemaining`: "Hh Mm" when there is at least one whole hour, else "Mm". */
  function FormatTimeRemaining(minutes: int): (s: string)
    ensures |s| >= 2 && s[|s| - 1] == 'm'
    ensures 'h' in s <==> minutes >= 60
  {
    var hours := minutes / 60;
    var mins := JsRem(minutes, 60);
    if hours > 0 then IntToString(hours) + "h " + IntToString(mins) + "m"
    else IntToString(mins) + "m"
  }

  predicate AllDigits(s: string)
  {
    forall i :: 0 <= i < |s| ==> '0' <= s[i] <= '9'
  }

  /** Reads "Hh Mm" or "Mm" back into minutes. */
  function ReadTimeRemaining(s: string): Option<int>
  {
    if |s| == 0 || s[|s| - 1] != 'm' then None
    else ReadClock(s[..|s| - 1])
  }

  /** Reads "Hh M" or "M", the text before the final 'm'. */
  function ReadClock(body: string): Option<int>
  {
    if 'h' in body then ReadHoursMinutes(body, IndexOf(body, 'h'))
    else if AllDigits(body) then Some(ParseNat(body))
    else None
  }

  /** Reads "Hh M" whose 'h' is at `k`. */
  function ReadHoursMinutes(body: string, k: nat): Option<int>
    requires k < |body|
  {
    if k + 2 <= |body| && body[k + 1] == ' ' then ReadParts(body[..k], body[k + 2..]) else None
  }

  /** The minutes of an hour count and a minute count, both written in digits. */
  function ReadParts(hours: string, mins: string): Option<int>
  {
    if AllDigits(hours) && AllDigits(mins) then Some(60 * ParseNat(hours) + ParseNat(mins)) else None
  }

  /** The text is unambiguous: reading it back gives the minutes, for every non-negative count. */
  lemma {:induction false} ReadFormatTimeRemaining(minutes: int)
    requires minutes >= 0
    ensures ReadTimeRemaining(FormatTimeRemaining(minutes)) == Some(minutes)
  {
    var hours, mins := minutes / 60, minutes % 60;
    assert minutes == 60 * hours + mins;
    var hs, ms := NatToString(hours), NatToString(mins);
    ParseNatToString(mins);
    FormatTimeRemainingParts(minutes);
    if minutes >= 60 {
      ParseNatToString(hours);
      ReadWithHours(hs, ms);
      assert ReadTimeRemaining(FormatTimeRemaining(minutes)) == Some(60 * hours + mins);
    } else {
      assert hours == 0;
      ReadMinutesOnly(ms);
      assert ReadTimeRemaining(FormatTimeRemaining(minutes)) == Some(mins);
    }
  }

  /** For a non-negative count the text is the decimal hours and minutes around the unit letters. */
  lemma {:induction false} FormatTimeRemainingParts(minutes: int)
    requires minutes >= 0
    ensures minutes >= 60 ==>
      FormatTimeRemaining(minutes) == NatToString(minutes / 60) + "h " + NatToString(minutes % 60) + "m"
    ensures minutes < 60 ==> FormatTimeRemaining(minutes) == NatToString(minutes % 60) + "m"
  {
    assert JsRem(minutes, 60) == minutes % 60;
  }

  lemma {:induction false} ReadWithHours(hs: string, ms: string)
    requires AllDigits(hs) && AllDigits(ms)
    ensures ReadTimeRemaining(hs + "h " + ms + "m") == Some(60 * ParseNat(hs) + ParseNat(ms))
  {
    var body := hs + "h " + ms;
    assert hs + "h " + ms + "m" == body + "m";
    assert (body + "m")[..|body|] == body;
    ReadHoursAndMinutes(hs, ms);
  }

  lemma {:induction false} ReadMinutesOnly(ms: string)
    requires AllDigits(ms)
    ensures ReadTimeRemaining(ms + "m") == Some(ParseNat(ms))
  {
    assert (ms + "m")[..|ms|] == ms;
    assert 'h' !in ms;
  }

  lemma {:induction false} ReadHoursAndMinutes(hs: string, ms: string)
    requires AllDigits(hs) && AllDigits(ms)
    ensures ReadClock(hs + "h " + ms) == Some(60 * ParseNat(hs) + ParseNat(ms))
  {
    var body := hs + "h " + ms;
    FirstHAfterDigits(hs, ms);
    ReadClockWithH(body);
    SplitAroundH(hs, ms);
    ReadPartsOfDigits(hs, ms);
  }

  lemma {:induction false} ReadClockWithH(body: string)
    requires 'h' in body
    ensures ReadClock(body) == ReadHoursMinutes(body, IndexOf(body, 'h'))
  {
  }

  lemma {:induction false} ReadPartsOfDigits(hs: string, ms: string)
    requires AllDigits(hs) && AllDigits(ms)
    ensures ReadParts(hs, ms) == Some(60 * ParseNat(hs) + ParseNat(ms))
  {
  }

  /** The 'h' after the hour digits is the first one. */
  lemma {:induction false} FirstHAfterDigits(hs: string, ms: string)
    requires AllDigits(hs)
    ensures 'h' in hs + "h " + ms && IndexOf(hs + "h " + ms, 'h') == |hs|
  {
    var body := hs + "h " + ms;
    assert body[|hs|] == 'h';
    assert body[..|hs|] == hs;
    IndexOfFirst(body, 'h', |hs|);
  }

  lemma {:induction false} SplitAroundH(hs: string, ms: string)
    ensures ReadHoursMinutes(hs + "h " + ms, |hs|) == ReadParts(hs, ms)
  {
    var body := hs + "h " + ms;
    assert body[..|hs|] == hs;
    assert body[|hs| + 2..] == ms;
    assert body[|hs| + 1] == ' ';
  }

  /** The examples the tests pin. */
  lemma TimeRemainingExamples()
    ensures FormatTimeRemaining(150) == "2h 30m"
    ensures FormatTimeRemaining(45) == "45m"
    ensures FormatTimeRemaining(0) == "0m"
  {
    assert IntToString(30) == "30" by { assert NatToString(30) == NatToString(3) + [DigitChar(0)]; }
    assert IntToString(45) == "45" by { assert NatToString(45) == NatToString(4) + [DigitChar(5)]; }
    assert IntToString(2) == "2" && IntToString(0) == "0";
    assert JsRem(150, 60) == 30 && JsRem(45, 60) == 45 && JsRem(0, 60) == 0;
  }

  // ------------------------------------------------------------ formatProgressBar

  /** The filled and empty cell counts of `formatProgressBar(percentage, width)`. */
  function ProgressCells(percentage: real, width: int): (int, int)
  {
    var filled := Min(Round(percentage / 100.0 * width as real), width);
    (filled, Max(width - filled, 0))
  }

  /**
   * For a non-negative percentage the bar has exactly `width` cells, none of them filled
   * at 0% and all of them from 100% on.
   */
  lemma {:induction false} ProgressCellsFill(percentage: real, width: int)
    requires width >= 0 && percentage >= 0.0
    ensures var cells := ProgressCells(percentage, width);
      0 <= cells.0 <= width && cells.0 + cells.1 == width
    ensures percentage >= 100.0 ==> ProgressCells(percentage, width) == (width, 0)
    ensures percentage == 0.0 ==> ProgressCells(percentage, width) == (0, width)
  {
    var x := percentage / 100.0 * width as real;
    RoundWhole(0);
    RoundMonotone(0.0, x);
    if percentage >= 100.0 {
      assert x >= width as real;
      RoundWhole(width);
      RoundMonotone(width as real, x);
    }
  }

  function Min(a: int, b: int): int { if a <= b then a else b }

  function Max(a: int, b: int): int { if a >= b then a else b }

  /** A higher percentage never fills fewer cells. */
  lemma {:induction false} ProgressCellsMonotone(p: real, q: real, width: int)
    requires width >= 0 && p <= q
    ensures ProgressCells(p, width).0 <= ProgressCells(q, width).0
  {
    assert p / 100.0 * width as real <= q / 100.0 * width as real;
    RoundMonotone(p / 100.0 * width as real, q / 100.0 * width as real);
  }

  /** A quarter of 20 cells is 5; the default 40 cells are all empty at 0% and all filled at 150%. */
  lemma ProgressCellsExamples()
    ensures ProgressCells(25.0, 20) == (5, 15)
    ensures ProgressCells(0.0, 40) == (0, 40)
    ensures ProgressCells(150.0, 40) == (40, 0)
  {
    RoundWhole(5);
    RoundWhole(0);
  }

  // ------------------------------------------------------------ colour and status bands

  datatype Band = Green | Yellow | Red

  /** The bar colour of `formatProgressBar`. */
  function BarColor(percentage: real): (b: Band)
    ensures b == Red <==> percentage >= 90.0
    ensures b == Green <==> percentage < 50.0
  {
    if percentage >= 90.0 then Red else if percentage >= 50.0 then Yellow else Green
  }

  /** The status marker of `formatTokenStatus`. */
  function StatusMarker(percentage: real): (m: string)
    ensures m == "\U{1F534}" <==> percentage >= 90.0
    ensures m == "\U{1F7E2}" <==> percentage < 50.0
  {
    if percentage >= 90.0 then "\U{1F534}" else if percentage >= 50.0 then "\U{1F7E1}" else "\U{1F7E2}"
  }

  /** The colour the marker shows. */
  function MarkerBand(m: string): Band
  {
    if m == "\U{1F534}" then Red else if m == "\U{1F7E1}" then Yellow else Green
  }

  /**
   * The bar colour, the status marker and `getTokenStatus` cut the percentages at the same
   * two places, 50 and 90.
   */
  lemma {:induction false} BandsAgree(percentage: real)
    ensures MarkerBand(StatusMarker(percentage)) == BarColor(percentage)
    ensures BarColor(percentage) == Red <==> TokenStatus(percentage) == Critical
    ensures BarColor(percentage) == Yellow <==> TokenStatus(percentage) == Warning
    ensures BarColor(percentage) == Green <==> TokenStatus(percentage) == Safe
  {
    assert "\U{1F7E1}" != "\U{1F534}";
  }

  // ------------------------------------------------------------ formatSessionInfo

  /** `max(0, floor((endTime - now) / 60000))`. */
  function RemainingMinutes(endTime: int, now: int): (m: int)
    ensures m >= 0
    ensures endTime <= now ==> m == 0
    ensures endTime > now ==> m * MINUTE_MS <= endTime - now < (m + 1) * MINUTE_MS
  {
    Max(0, (endTime - now) / MINUTE_MS)
  }

  /** The floor here and the truncation of `differenceInMinutes` agree once negatives are clamped to 0. */
  lemma {:induction false} RemainingMinutesIsClampedDifference(endTime: int, now: int)
    ensures RemainingMinutes(endTime, now) == Max(0, MinutesBetween(endTime, now))
  {
  }

  datatype SessionInfo = NoActiveSession | SessionEnds(endTime: int, remaining: string)

  /** `formatSessionInfo`: no block gives the no-session text; otherwise the end and the time left. */
  function FormatSessionInfo(activeBlock: Option<SessionBlock>, now: int): (info: SessionInfo)
    ensures activeBlock.None? <==> info == NoActiveSession
    ensures activeBlock.Some? ==>
      info.endTime == activeBlock.value.endTime
      && ReadTimeRemaining(info.remaining) == Some(RemainingMinutes(activeBlock.value.endTime, now))
  {
    match activeBlock
    case None => NoActiveSession
    case Some(b) =>
      ReadFormatTimeRemaining(RemainingMinutes(b.endTime, now));
      SessionEnds(b.endTime, FormatTimeRemaining(RemainingMinutes(b.endTime, now)))
  }

  // ------------------------------------------------------------ formatPlan

  /** `formatPlan`: the fixed label of each plan. */
  function FormatPlan(plan: Plan): (text: string)
    ensures plan == Pro ==> text == "Claude Pro (~7k tokens)"
    ensures plan == Max5 ==> text == "Claude Max5 (~35k tokens)"
    ensures plan == Max20 ==> text == "Claude Max20 (~140k tokens)"
    ensures plan == CustomMax ==> text == "Custom Max (auto-detected)"
  {
    match plan
    case Pro => "Claude Pro (~7k tokens)"
    case Max5 => "Claude Max5 (~35k tokens)"
    case Max20 => "Claude Max20 (~140k tokens)"
    case CustomMax => "Custom Max (auto-detected)"
  }

  /** No two plans share a label, so the label tells the plan. */
  lemma {:induction false} FormatPlanInjective(p: Plan, q: Plan)
    requires FormatPlan(p) == FormatPlan(q)
    ensures p == q
  {
    assert |FormatPlan(Pro)| == 23 && |FormatPlan(Max5)| == 25;
    assert |FormatPlan(Max20)| == 27 && |FormatPlan(CustomMax)| == 26;
  }
}
