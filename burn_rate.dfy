/**
 * Trailing burn rate, projection and depletion (src/core/burnRateCalculator.ts).
 * Rates are exact reals; `now` is the clock reading the source takes with `new Date()`.
 */
module BurnRateCalculator {
  import opened Types
  import opened Time
  import opened TokenCalculator
  import opened Sessions

  /** The placeholder price of one weighted token, in dollars. */
  const COST_PER_TOKEN: real := 0.00001

  // ------------------------------------------------------------ one block's share of the last hour

  /** `isAfter(endTime, oneHourAgo) || (actualEndTime && isAfter(actualEndTime, oneHourAgo))`. */
  predicate Overlaps(b: SessionBlock, now: int)
  {
    b.endTime > now - HOUR_MS || (b.actualEndTime.Some? && b.actualEndTime.value > now - HOUR_MS)
  }

  /** The later of the block start and one hour ago. */
  function ClipStart(b: SessionBlock, now: int): int
  {
    if b.startTime > now - HOUR_MS then b.startTime else now - HOUR_MS
  }

  /** The earlier of the last record (or `now` when there is none) and `now`. */
  function ClipEnd(b: SessionBlock, now: int): int
  {
    var blockEnd := EndOr(b.actualEndTime, now);
    if blockEnd < now then blockEnd else now
  }

  /** The whole minutes of the block inside the trailing hour. */
  function WindowMinutes(b: SessionBlock, now: int): int
  {
    MinutesBetween(ClipEnd(b, now), ClipStart(b, now))
  }

  /** A block adds to the rate when it is not a gap, passes the overlap test and spans a positive number of minutes. */
  predicate Contributes(b: SessionBlock, now: int)
  {
    !b.isGap && Overlaps(b, now) && WindowMinutes(b, now) > 0
  }

  /** `durationMinutes || differenceInMinutes(actualEndTime || now, startTime)`: a zero duration is recomputed. */
  function Duration(b: SessionBlock, now: int): int
  {
    if b.durationMinutes != 0 then b.durationMinutes
    else MinutesBetween(EndOr(b.actualEndTime, now), b.startTime)
  }

  /** The block's weighted tokens in proportion to its minutes inside the hour, and 0 for a non-positive duration. */
  function ProportionalTokens(b: SessionBlock, now: int): real
  {
    var d := Duration(b, now);
    if d > 0 then (BlockWeight(b) * WindowMinutes(b, now)) as real / d as real else 0.0
  }

  // ------------------------------------------------------------ the rate

  function TotalTokens(blocks: seq<SessionBlock>, now: int): real
  {
    if blocks == [] then 0.0
    else
      var b := blocks[|blocks| - 1];
      TotalTokens(blocks[..|blocks| - 1], now) + (if Contributes(b, now) then ProportionalTokens(b, now) else 0.0)
  }

  function TotalMinutes(blocks: seq<SessionBlock>, now: int): int
  {
    if blocks == [] then 0
    else
      var b := blocks[|blocks| - 1];
      TotalMinutes(blocks[..|blocks| - 1], now) + (if Contributes(b, now) then WindowMinutes(b, now) else 0)
  }

  /** Tokens per minute over the contributing minutes (0 when there are none), and the hourly cost at the placeholder price. */
  function HourlyBurnRate(blocks: seq<SessionBlock>, now: int): (r: BurnRate)
    ensures TotalMinutes(blocks, now) > 0 ==>
              r.tokensPerMinute * TotalMinutes(blocks, now) as real == TotalTokens(blocks, now)
    ensures TotalMinutes(blocks, now) <= 0 ==> r.tokensPerMinute == 0.0
    ensures r.costPerHour == r.tokensPerMinute * 60.0 * COST_PER_TOKEN
  {
    var minutes := TotalMinutes(blocks, now);
    var tokensPerMinute := if minutes > 0 then TotalTokens(blocks, now) / minutes as real else 0.0;
    BurnRate(tokensPerMinute, tokensPerMinute * 60.0 * COST_PER_TOKEN)
  }

  /** `calculateHourlyBurnRate`: the loop accumulating tokens and minutes. */
  method CalculateHourlyBurnRate(blocks: seq<SessionBlock>, now: int) returns (rate: BurnRate)
    ensures rate == HourlyBurnRate(blocks, now)
  {
    var oneHourAgo := now - HOUR_MS;
    var totalTokens := 0.0;
    var totalMinutes := 0;
    for i := 0 to |blocks|
      invariant totalTokens == TotalTokens(blocks[..i], now)
      invariant totalMinutes == TotalMinutes(blocks[..i], now)
    {
      var block := blocks[i];
      TotalsPrefix(blocks, i + 1, now);
      if block.isGap {
        continue;
      }
      if block.endTime > oneHourAgo || (block.actualEndTime.Some? && block.actualEndTime.value > oneHourAgo) {
        var blockStart := if block.startTime > oneHourAgo then block.startTime else oneHourAgo;
        var blockEnd := EndOr(block.actualEndTime, now);
        var effectiveEnd := if blockEnd < now then blockEnd else now;
        var minutes := MinutesBetween(effectiveEnd, blockStart);
        if minutes > 0 {
          var blockTokens := CalculateBlockWeightedTokens(block);
          var blockDuration := if block.durationMinutes != 0 then block.durationMinutes
                               else MinutesBetween(EndOr(block.actualEndTime, now), block.startTime);
          var proportionalTokens := if blockDuration > 0
                                    then (blockTokens * minutes) as real / blockDuration as real else 0.0;
          totalTokens := totalTokens + proportionalTokens;
          totalMinutes := totalMinutes + minutes;
        }
      }
    }
    assert blocks[..|blocks|] == blocks;
    var tokensPerMinute := if totalMinutes > 0 then totalTokens / totalMinutes as real else 0.0;
    var tokensPerHour := tokensPerMinute * 60.0;
    rate := BurnRate(tokensPerMinute, tokensPerHour * COST_PER_TOKEN);
  }

  /** The totals over a prefix one longer add the next block's share. */
  lemma {:induction false} TotalsPrefix(blocks: seq<SessionBlock>, n: nat, now: int)
    requires 0 < n <= |blocks|
    ensures var b := blocks[n - 1];
            && TotalTokens(blocks[..n], now)
               == TotalTokens(blocks[..n - 1], now) + (if Contributes(b, now) then ProportionalTokens(b, now) else 0.0)
            && TotalMinutes(blocks[..n], now)
               == TotalMinutes(blocks[..n - 1], now) + (if Contributes(b, now) then WindowMinutes(b, now) else 0)
  {
    assert blocks[..n][..n - 1] == blocks[..n - 1];
  }

  // ------------------------------------------------------------ properties of the rate

  /** Gap blocks contribute neither tokens nor minutes: dropping them leaves both totals unchanged. */
  lemma {:induction false} GapsIgnoredInTotals(blocks: seq<SessionBlock>, now: int)
    ensures TotalTokens(WithoutGaps(blocks), now) == TotalTokens(blocks, now)
    ensures TotalMinutes(WithoutGaps(blocks), now) == TotalMinutes(blocks, now)
  {
    if blocks != [] {
      var p := blocks[..|blocks| - 1];
      var b := blocks[|blocks| - 1];
      GapsIgnoredInTotals(p, now);
      var q := WithoutGaps(p);
      if b.isGap {
        assert WithoutGaps(blocks) == q + [];
        assert q + [] == q;
      } else {
        assert WithoutGaps(blocks) == q + [b];
        assert (q + [b])[..|q + [b]| - 1] == q;
      }
    }
  }

  /** Dropping the gap blocks leaves the rate unchanged. */
  lemma {:induction false} GapsIgnored(blocks: seq<SessionBlock>, now: int)
    ensures HourlyBurnRate(WithoutGaps(blocks), now) == HourlyBurnRate(blocks, now)
  {
    GapsIgnoredInTotals(blocks, now);
  }

  /** No block has more than 60 minutes inside the trailing hour. */
  lemma {:induction false} WindowMinutesAtMostHour(b: SessionBlock, now: int)
    ensures WindowMinutes(b, now) <= 60
  {
    MinutesBetweenMonotone(ClipEnd(b, now), now, ClipStart(b, now));
    MinutesBetweenAntitone(now, now - HOUR_MS, ClipStart(b, now));
  }

  /**
   * For a block with a last record the overlap test decides nothing: it contributes
   * exactly when it is not a gap and its clipped window spans a positive number of minutes.
   */
  lemma {:induction false} OverlapTestRedundant(b: SessionBlock, now: int)
    requires b.actualEndTime.Some?
    ensures Contributes(b, now) <==> !b.isGap && WindowMinutes(b, now) > 0
  {
  }

  /** A block still open (no last record) whose end is over an hour ago never contributes, however long its clipped window. */
  lemma {:induction false} OverlapTestExcludesStaleOpenBlock(b: SessionBlock, now: int)
    requires b.actualEndTime.None? && b.endTime <= now - HOUR_MS
    ensures !Contributes(b, now)
  {
  }

  /**
   * For a finalised block with a non-negative weight the tokens it adds are between 0 and
   * its whole weight: its clipped window is never longer than its duration.
   */
  lemma {:induction false} ProportionalAtMostWeight(b: SessionBlock, now: int)
    requires Finalized(b) && BlockWeight(b) >= 0 && Contributes(b, now)
    ensures 0.0 <= ProportionalTokens(b, now) <= BlockWeight(b) as real
  {
    var d := Duration(b, now);
    var m := WindowMinutes(b, now);
    assert d == MinutesBetween(b.actualEndTime.value, b.startTime);
    MinutesBetweenMonotone(ClipEnd(b, now), b.actualEndTime.value, ClipStart(b, now));
    MinutesBetweenAntitone(b.actualEndTime.value, b.startTime, ClipStart(b, now));
    if d > 0 {
      ShareAtMostWhole(BlockWeight(b), m, d);
    }
  }

  /** `w * m / d` lies between 0 and `w` for `0 <= m <= d`. */
  lemma {:induction false} ShareAtMostWhole(w: int, m: int, d: int)
    requires w >= 0 && 0 <= m <= d && d > 0
    ensures 0.0 <= (w * m) as real / d as real <= w as real
  {
    assert w * m <= w * d by {
      assert w * (d - m) >= 0;
    }
    assert (w * m) as real <= w as real * d as real;
  }

  /** With non-negative block weights the rate and the hourly cost are never negative. */
  lemma {:induction false} BurnRateNonNegative(blocks: seq<SessionBlock>, now: int)
    requires forall b :: b in blocks ==> BlockWeight(b) >= 0
    ensures TotalTokens(blocks, now) >= 0.0 && TotalMinutes(blocks, now) >= 0
    ensures HourlyBurnRate(blocks, now).tokensPerMinute >= 0.0
    ensures HourlyBurnRate(blocks, now).costPerHour >= 0.0
  {
    TotalsNonNegative(blocks, now);
    var t, m := TotalTokens(blocks, now), TotalMinutes(blocks, now);
    var r := HourlyBurnRate(blocks, now);
    if m > 0 {
      assert r.tokensPerMinute == t / m as real;
    }
  }

  lemma {:induction false} TotalsNonNegative(blocks: seq<SessionBlock>, now: int)
    requires forall b :: b in blocks ==> BlockWeight(b) >= 0
    ensures TotalTokens(blocks, now) >= 0.0 && TotalMinutes(blocks, now) >= 0
  {
    if blocks != [] {
      var p, b := blocks[..|blocks| - 1], blocks[|blocks| - 1];
      assert blocks == p + [b];
      assert forall x :: x in p ==> x in blocks;
      TotalsNonNegative(p, now);
      if Contributes(b, now) {
        ProportionalNonNegative(b, now);
      }
    }
  }

  lemma {:induction false} ProportionalNonNegative(b: SessionBlock, now: int)
    requires BlockWeight(b) >= 0 && WindowMinutes(b, now) > 0
    ensures ProportionalTokens(b, now) >= 0.0
  {
    var d := Duration(b, now);
    if d > 0 {
      var x := BlockWeight(b) * WindowMinutes(b, now);
      assert x >= 0;
      assert ProportionalTokens(b, now) == x as real / d as real;
    }
  }


  // ------------------------------------------------------------ the examples of the tests

  /** A block finalised from 30 minutes ago up to now: the rate is its weight over 30 minutes. */
  lemma {:induction false} RecentBlockRate(b: SessionBlock, now: int)
    requires !b.isGap && b.startTime == now - 30 * MINUTE_MS && b.actualEndTime == Some(now)
    requires b.durationMinutes == 30
    ensures HourlyBurnRate([b], now).tokensPerMinute == BlockWeight(b) as real / 30.0
  {
    assert [b][..0] == [];
    assert WindowMinutes(b, now) == 30;
    assert Contributes(b, now);
    assert TotalMinutes([b], now) == 30;
    assert ProportionalTokens(b, now) == (BlockWeight(b) * 30) as real / 30.0;
    assert TotalTokens([b], now) == BlockWeight(b) as real;
  }

  /** 150 weighted tokens in the last 30 minutes burn 5 a minute; 750 (an opus block) burn 25. */
  lemma {:induction false} RecentBlockExamples(b: SessionBlock, now: int)
    requires !b.isGap && b.startTime == now - 30 * MINUTE_MS && b.actualEndTime == Some(now)
    requires b.durationMinutes == 30
    ensures BlockWeight(b) == 150 ==> HourlyBurnRate([b], now).tokensPerMinute == 5.0
    ensures BlockWeight(b) == 750 ==> HourlyBurnRate([b], now).tokensPerMinute == 25.0
  {
    RecentBlockRate(b, now);
  }

  /** A block from two hours ago to 30 minutes ago with 900 weighted tokens over 90 minutes adds 300 tokens in 30 minutes: 10 a minute. */
  lemma {:induction false} PartialOverlapExample(b: SessionBlock, now: int)
    requires !b.isGap && b.startTime == now - 120 * MINUTE_MS && b.actualEndTime == Some(now - 30 * MINUTE_MS)
    requires b.durationMinutes == 90 && BlockWeight(b) == 900
    ensures HourlyBurnRate([b], now).tokensPerMinute == 10.0
  {
    assert [b][..0] == [];
    assert WindowMinutes(b, now) == 30;
    assert Contributes(b, now) && Duration(b, now) == 90;
    assert ProportionalTokens(b, now) == (900 * 30) as real / 90.0 == 300.0;
    assert TotalMinutes([b], now) == 30;
    assert TotalTokens([b], now) == 300.0;
  }

  /**
   * An old block (two hours to 90 minutes ago) and two half-hour blocks of 450 and 600
   * weighted tokens: only the two recent ones count, 1050 tokens over 60 minutes.
   */
  lemma {:induction false} ThreeBlocksExample(stale: SessionBlock, b1: SessionBlock, b2: SessionBlock, now: int)
    requires !stale.isGap && stale.startTime == now - 120 * MINUTE_MS && stale.actualEndTime == Some(now - 90 * MINUTE_MS)
    requires stale.endTime == stale.startTime + 300 * MINUTE_MS
    requires !b1.isGap && b1.startTime == now - 60 * MINUTE_MS && b1.actualEndTime == Some(now - 30 * MINUTE_MS)
    requires b1.durationMinutes == 30 && BlockWeight(b1) == 450
    requires !b2.isGap && b2.startTime == now - 30 * MINUTE_MS && b2.actualEndTime == Some(now)
    requires b2.durationMinutes == 30 && BlockWeight(b2) == 600
    ensures HourlyBurnRate([stale, b1, b2], now).tokensPerMinute == 17.5
  {
    assert [stale, b1, b2][..2] == [stale, b1];
    assert [stale, b1][..1] == [stale];
    assert [stale][..0] == [];
    assert WindowMinutes(stale, now) == -30;
    assert WindowMinutes(b1, now) == 30;
    assert WindowMinutes(b2, now) == 30;
    assert !Contributes(stale, now) && Contributes(b1, now) && Contributes(b2, now);
    assert ProportionalTokens(b1, now) == (450 * 30) as real / 30.0 == 450.0;
    assert ProportionalTokens(b2, now) == (600 * 30) as real / 30.0 == 600.0;
    assert TotalMinutes([stale], now) == 0 && TotalTokens([stale], now) == 0.0;
    assert TotalMinutes([stale, b1], now) == 30 && TotalTokens([stale, b1], now) == 450.0;
    assert TotalMinutes([stale, b1, b2], now) == 60 && TotalTokens([stale, b1, b2], now) == 1050.0;
  }

  // ------------------------------------------------------------ projection and depletion

  /** `projectUsage`: nothing without a block, at a zero rate, or with no whole minute left in the block. */
  function ProjectUsage(activeBlock: Option<SessionBlock>, currentTokens: int, tokenLimit: int, rate: BurnRate, now: int)
    : (p: Option<UsageProjection>)
    ensures p.Some? <==> activeBlock.Some? && rate.tokensPerMinute != 0.0
                          && MinutesBetween(activeBlock.value.endTime, now) > 0
    ensures p.Some? ==>
      && p.value.remainingMinutes == MinutesBetween(activeBlock.value.endTime, now)
      && p.value.projectedTotalTokens == currentTokens as real + rate.tokensPerMinute * p.value.remainingMinutes as real
      && p.value.projectedTotalCost == p.value.projectedTotalTokens * COST_PER_TOKEN
  {
    if activeBlock.None? || rate.tokensPerMinute == 0.0 then None
    else
      var remainingMinutes := MinutesBetween(activeBlock.value.endTime, now);
      if remainingMinutes <= 0 then None
      else
        var projectedTotalTokens := currentTokens as real + rate.tokensPerMinute * remainingMinutes as real;
        Some(UsageProjection(projectedTotalTokens, projectedTotalTokens * COST_PER_TOKEN, remainingMinutes))
  }

  /** `calculateDepletionTime`: the instant (in milliseconds) at which the limit is reached at the current rate. */
  function DepletionTime(currentTokens: int, tokenLimit: int, rate: BurnRate, now: int): (t: Option<real>)
    ensures t.None? <==> rate.tokensPerMinute == 0.0 || currentTokens >= tokenLimit
    ensures t.Some? ==>
      t.value == now as real + (tokenLimit - currentTokens) as real / rate.tokensPerMinute * MINUTE_MS as real
    ensures t.Some? && rate.tokensPerMinute > 0.0 ==> t.value > now as real
  {
    if rate.tokensPerMinute == 0.0 || currentTokens >= tokenLimit then None
    else
      var remainingTokens := tokenLimit - currentTokens;
      var minutesToDepletion := remainingTokens as real / rate.tokensPerMinute;
      Some(now as real + minutesToDepletion * MINUTE_MS as real)
  }

  /**
   * Projection and depletion agree: at a positive rate and below the limit, the projected
   * total after `minutes` minutes reaches the limit exactly when the depletion time is at
   * most `minutes` minutes away.
   */
  lemma {:induction false} ProjectionMeetsDepletion(currentTokens: int, tokenLimit: int, rate: BurnRate, now: int, minutes: int)
    requires rate.tokensPerMinute > 0.0 && currentTokens < tokenLimit
    ensures var t := DepletionTime(currentTokens, tokenLimit, rate, now);
            t.Some? &&
            (currentTokens as real + rate.tokensPerMinute * minutes as real >= tokenLimit as real
             <==> t.value <= now as real + minutes as real * MINUTE_MS as real)
  {
    var r := rate.tokensPerMinute;
    var q := (tokenLimit - currentTokens) as real / r;
    assert q * r == (tokenLimit - currentTokens) as real;
    if currentTokens as real + r * minutes as real >= tokenLimit as real {
      assert r * minutes as real >= r * q;
      assert minutes as real >= q;
    } else {
      assert r * minutes as real < r * q;
      assert minutes as real < q;
    }
  }

  /** The projection for a block ending two hours from now at 10 tokens a minute from 500 tokens is 1700. */
  lemma {:induction false} ProjectionExample(b: SessionBlock, now: int)
    requires b.endTime == now + 120 * MINUTE_MS
    ensures var p := ProjectUsage(Some(b), 500, 1000, BurnRate(10.0, 0.01), now);
            p.Some? && p.value.remainingMinutes == 120 && p.value.projectedTotalTokens == 1700.0
  {
  }

  // ------------------------------------------------------------ the indicator

  /** The seven symbols of `getBurnRateIndicator`, slowest first. */
  const PAUSED: string := "\U{23F8}\U{FE0F}"
  const SNAIL: string := "\U{1F40C}"
  const WALKING: string := "\U{1F6B6}"
  const RUNNING: string := "\U{1F3C3}"
  const CAR: string := "\U{1F697}"
  const PLANE: string := "\U{2708}\U{FE0F}"
  const ROCKET: string := "\U{1F680}"

  /** The place of a symbol in the order slowest first; any other string ranks as the fastest. */
  function IndicatorRank(i: string): nat
  {
    if i == PAUSED then 0
    else if i == SNAIL then 1
    else if i == WALKING then 2
    else if i == RUNNING then 3
    else if i == CAR then 4
    else if i == PLANE then 5
    else 6
  }

  /** `getBurnRateIndicator`: 0, below 10, 50, 100, 200, 500, and the rest. */
  function BurnRateIndicator(tokensPerMinute: real): (i: string)
    ensures i == PAUSED <==> tokensPerMinute == 0.0
    ensures i == SNAIL <==> tokensPerMinute != 0.0 && tokensPerMinute < 10.0
    ensures i == WALKING <==> 10.0 <= tokensPerMinute < 50.0
    ensures i == RUNNING <==> 50.0 <= tokensPerMinute < 100.0
    ensures i == CAR <==> 100.0 <= tokensPerMinute < 200.0
    ensures i == PLANE <==> 200.0 <= tokensPerMinute < 500.0
    ensures i == ROCKET <==> 500.0 <= tokensPerMinute
  {
    SymbolsDistinct();
    if tokensPerMinute == 0.0 then PAUSED
    else if tokensPerMinute < 10.0 then SNAIL
    else if tokensPerMinute < 50.0 then WALKING
    else if tokensPerMinute < 100.0 then RUNNING
    else if tokensPerMinute < 200.0 then CAR
    else if tokensPerMinute < 500.0 then PLANE
    else ROCKET
  }

  /** The seven symbols are pairwise different, so each band shows its own. */
  lemma SymbolsDistinct()
    ensures PAUSED[0] == '\U{23F8}' && SNAIL[0] == '\U{1F40C}' && WALKING[0] == '\U{1F6B6}'
    ensures RUNNING[0] == '\U{1F3C3}' && CAR[0] == '\U{1F697}' && PLANE[0] == '\U{2708}'
    ensures ROCKET[0] == '\U{1F680}'
  {
  }

  /** A faster non-negative rate never shows a slower symbol. */
  lemma {:induction false} BurnRateIndicatorMonotone(p: real, q: real)
    requires 0.0 <= p <= q
    ensures IndicatorRank(BurnRateIndicator(p)) <= IndicatorRank(BurnRateIndicator(q))
  {
  }

  /** Negative rates (which non-negative weights never give) show the snail, above the paused symbol of 0. */
  lemma {:induction false} NegativeRateShowsSnail(p: real)
    requires p < 0.0
    ensures BurnRateIndicator(p) == SNAIL
  {
  }
}
