/**
 * Plan auto-detection from the session history (src/core/planDetector.ts).
 * The 0.8 and 0.95 factors of the source are multiplied out, so every threshold
 * is an exact integer comparison on the largest block weight M:
 * `M >= L * 0.8` is `5 * M >= 4 * L` and `M > L * 0.95` is `20 * M > 19 * L`.
 */
module PlanDetector {
  import opened Types
  import opened Text
  import opened JsMath
  import opened TokenCalculator

  /** Ordering of the plans by size; the auto-detected custom plan is not part of the ladder. */
  function Tier(p: Plan): nat
  {
    match p
    case Pro => 0
    case Max5 => 1
    case Max20 => 2
    case CustomMax => 3
  }

  // ------------------------------------------------------------ detectPlan

  /**
   * `detectPlan`. Once the source's redundant middle rung is folded in, the ladder is
   * three plain bands of the history maximum M: up to 44000 is Pro, from there up to
   * (but excluding) 704000 is Max5, and 704000 or more is Max20.
   */
  function DetectPlan(blocks: seq<SessionBlock>): (p: Plan)
    ensures p != CustomMax
    ensures p == Max20 <==> 5 * MaxHistory(blocks) >= 4 * MAX20_LIMIT
    ensures p == Max5 <==> PRO_LIMIT < MaxHistory(blocks) && 5 * MaxHistory(blocks) < 4 * MAX20_LIMIT
    ensures p == Pro <==> MaxHistory(blocks) <= PRO_LIMIT
  {
    var maxTokensUsed := MaxHistory(blocks);
    if maxTokensUsed == 0 then Pro
    else if 5 * maxTokensUsed >= 4 * MAX20_LIMIT then Max20
    else if 5 * maxTokensUsed >= 4 * MAX5_LIMIT then Max5
    else if 5 * maxTokensUsed >= 4 * PRO_LIMIT then
      if maxTokensUsed > PRO_LIMIT then Max5 else Pro
    else Pro
  }

  /** A larger history maximum never detects a smaller plan. */
  lemma {:induction false} DetectPlanMonotone(a: seq<SessionBlock>, b: seq<SessionBlock>)
    requires MaxHistory(a) <= MaxHistory(b)
    ensures Tier(DetectPlan(a)) <= Tier(DetectPlan(b))
  {
  }

  /** Gap blocks do not take part in detection: the plan is the same once they are removed. */
  lemma {:induction false} DetectPlanIgnoresGaps(blocks: seq<SessionBlock>)
    ensures DetectPlan(WithoutGaps(blocks)) == DetectPlan(blocks)
  {
    MaxHistoryWithoutGaps(blocks);
  }

  lemma {:induction false} MaxHistoryWithoutGaps(blocks: seq<SessionBlock>)
    ensures MaxHistory(WithoutGaps(blocks)) == MaxHistory(blocks)
  {
    if blocks != [] {
      var p := blocks[..|blocks| - 1];
      var b := blocks[|blocks| - 1];
      MaxHistoryWithoutGaps(p);
      var q := WithoutGaps(p);
      if b.isGap {
        assert WithoutGaps(blocks) == q + [];
        assert q + [] == q;
      } else {
        assert WithoutGaps(blocks) == q + [b];
        assert (q + [b])[..|q + [b]| - 1] == q;
      }
    }
  }

  /** A block of one record of the given model whose input and output add up to `tokens`. */
  function SingleRecordBlock(tokens: int, model: string): (b: SessionBlock)
    ensures !b.isGap && |b.entries| == 1
  {
    var e := UsageEntry(0, tokens / 2, tokens - tokens / 2, 0, 0, None, model, None, None);
    SessionBlock("block", 0, 0, None, false, false, [e], TokenCounts(tokens / 2, tokens - tokens / 2, 0, 0), 0.0, [model], 60)
  }

  /** The weight of a one-record Sonnet block is its token count. */
  lemma {:induction false} SonnetBlockWeight(tokens: int)
    ensures BlockWeight(SingleRecordBlock(tokens, SONNET_MODEL)) == tokens
  {
    SingleRecordWeight(tokens, SONNET_MODEL);
    SonnetModelIsNotOpus();
  }

  lemma {:induction false} SingleRecordWeight(tokens: int, model: string)
    ensures BlockWeight(SingleRecordBlock(tokens, model)) == Multiplier(model) * tokens
  {
    var b := SingleRecordBlock(tokens, model);
    var e := b.entries[0];
    assert b.entries == [e] && [e][..0] == [];
    assert e.inputTokens + e.outputTokens == tokens;
    assert WeightedTokens([e]) == WeightedTokens([]) + EntryWeight(e);
  }

  /** The history maximum of a single one-record Sonnet block is its token count. */
  lemma {:induction false} SingleSonnetHistory(tokens: int)
    requires tokens >= 0
    ensures MaxHistory([SingleRecordBlock(tokens, SONNET_MODEL)]) == tokens
  {
    SonnetBlockWeight(tokens);
    var bs := [SingleRecordBlock(tokens, SONNET_MODEL)];
    assert bs[..0] == [];
  }

  /** Exactly at and just over 80% of the Pro limit the plan is still Pro; 80% of Max5 is Max5. */
  lemma ThresholdExamples()
    ensures DetectPlan([SingleRecordBlock(35200, SONNET_MODEL)]) == Pro
    ensures DetectPlan([SingleRecordBlock(35300, SONNET_MODEL)]) == Pro
    ensures DetectPlan([SingleRecordBlock(176000, SONNET_MODEL)]) == Max5
  {
    SingleSonnetHistory(35200);
    SingleSonnetHistory(35300);
    SingleSonnetHistory(176000);
  }

  // ------------------------------------------------------------ analyzePlanUsage

  datatype Confidence = Low | Medium | High

  datatype PlanAnalysis = PlanAnalysis(
    detectedPlan: Plan,
    maxTokensUsed: int,
    confidence: Confidence,
    recommendation: string)

  /** The confidence ladder of `analyzePlanUsage`, with the recommendation that goes with each rung. */
  function Assess(maxTokensUsed: int): (r: (Confidence, string))
    ensures r.0 == Low <==> maxTokensUsed == 0
    ensures r.0 == Medium <==> maxTokensUsed != 0 && 5 * maxTokensUsed > 4 * PRO_LIMIT
                                && 20 * maxTokensUsed <= 19 * MAX5_LIMIT
    ensures r.0 == High <==> maxTokensUsed != 0 && (20 * maxTokensUsed > 19 * MAX5_LIMIT
                                                     || 5 * maxTokensUsed <= 4 * PRO_LIMIT)
    ensures maxTokensUsed == 0 ==> r.1 == "No usage data found. Using default Pro plan."
    ensures maxTokensUsed != 0 && 20 * maxTokensUsed > 19 * MAX20_LIMIT ==> r.1 == "Usage clearly indicates Max20 plan."
    ensures 19 * MAX5_LIMIT < 20 * maxTokensUsed <= 19 * MAX20_LIMIT ==> r.1 == "Usage clearly indicates Max5 or higher plan."
    ensures PRO_LIMIT < maxTokensUsed && 20 * maxTokensUsed <= 19 * MAX5_LIMIT
            ==> r.1 == "Usage exceeds Pro limits. Likely using Max5 or higher."
    ensures maxTokensUsed != 0 && 4 * PRO_LIMIT < 5 * maxTokensUsed && maxTokensUsed <= PRO_LIMIT
            ==> r.1 == "Usage near Pro limits. Plan detection may be uncertain."
    ensures maxTokensUsed != 0 && 5 * maxTokensUsed <= 4 * PRO_LIMIT ==> r.1 == "Usage within Pro plan limits."
  {
    if maxTokensUsed == 0 then (Low, "No usage data found. Using default Pro plan.")
    else if 20 * maxTokensUsed > 19 * MAX20_LIMIT then (High, "Usage clearly indicates Max20 plan.")
    else if 20 * maxTokensUsed > 19 * MAX5_LIMIT then (High, "Usage clearly indicates Max5 or higher plan.")
    else if maxTokensUsed > PRO_LIMIT then (Medium, "Usage exceeds Pro limits. Likely using Max5 or higher.")
    else if 5 * maxTokensUsed > 4 * PRO_LIMIT then (Medium, "Usage near Pro limits. Plan detection may be uncertain.")
    else (High, "Usage within Pro plan limits.")
  }

  /** `analyzePlanUsage`: the detected plan and the history maximum, with a confidence. */
  function AnalyzePlanUsage(blocks: seq<SessionBlock>): (a: PlanAnalysis)
    ensures a.detectedPlan == DetectPlan(blocks)
    ensures a.maxTokensUsed == MaxHistory(blocks)
    ensures a.confidence == Low <==> MaxHistory(blocks) == 0
    ensures a.confidence == Medium <==> 4 * PRO_LIMIT < 5 * MaxHistory(blocks) && 20 * MaxHistory(blocks) <= 19 * MAX5_LIMIT
  {
    var maxTokensUsed := MaxHistory(blocks);
    var (confidence, recommendation) := Assess(maxTokensUsed);
    PlanAnalysis(DetectPlan(blocks), maxTokensUsed, confidence, recommendation)
  }

  /**
   * How confidence and plan fit together: low confidence only comes with the default Pro plan,
   * high confidence above 95% of Max5 comes with Max5 or Max20, and medium confidence
   * only with Pro or Max5.
   */
  lemma {:induction false} ConfidenceMatchesPlan(blocks: seq<SessionBlock>)
    ensures var a := AnalyzePlanUsage(blocks);
      && (a.confidence == Low ==> a.detectedPlan == Pro)
      && (a.confidence == Medium ==> a.detectedPlan in {Pro, Max5})
      && (a.confidence == High && a.maxTokensUsed > PRO_LIMIT ==> a.detectedPlan in {Max5, Max20})
      && (a.confidence == High && a.maxTokensUsed <= PRO_LIMIT ==> a.detectedPlan == Pro)
  {
  }

  // ------------------------------------------------------------ estimateActualTokens

  /** How many of `entries` are Opus records. */
  function OpusCount(entries: seq<UsageEntry>): (n: nat)
    ensures n <= |entries|
  {
    if entries == [] then 0
    else OpusCount(entries[..|entries| - 1]) + (if IsOpus(entries[|entries| - 1].model) then 1 else 0)
  }

  lemma {:induction false} OpusCountSnoc(s: seq<UsageEntry>, e: UsageEntry)
    ensures OpusCount(s + [e]) == OpusCount(s) + (if IsOpus(e.model) then 1 else 0)
  {
    assert (s + [e])[..|s|] == s;
  }

  lemma {:induction false} NonGapEntriesSnoc(blocks: seq<SessionBlock>, b: SessionBlock)
    ensures NonGapEntries(blocks + [b]) == NonGapEntries(blocks) + (if b.isGap then [] else b.entries)
  {
    assert (blocks + [b])[..|blocks|] == blocks;
  }

  /** The weighted total times `total / (total + 4 * opus)`: divided by the average multiplier `1 + 4 * opus / total`. */
  function Share(weightedTokens: int, total: nat, opus: nat): real
    requires total > 0
  {
    (weightedTokens as real) * (total as real) / ((total as real) + 4.0 * (opus as real))
  }

  /** The estimate from the counts, rounded as `Math.round` does; without records the total is returned as it is. */
  function EstimateFromCounts(weightedTokens: int, total: nat, opus: nat): int
  {
    if total == 0 then weightedTokens else Round(Share(weightedTokens, total, opus))
  }

  /** The specification of `estimateActualTokens`: the counts are over the records of the non-gap blocks. */
  function EstimatedTokens(weightedTokens: int, blocks: seq<SessionBlock>): int
  {
    var entries := NonGapEntries(blocks);
    EstimateFromCounts(weightedTokens, |entries|, OpusCount(entries))
  }

  /** `estimateActualTokens`: counts Opus and all records of the non-gap blocks, then divides by the average weight. */
  method EstimateActualTokens(weightedTokens: int, blocks: seq<SessionBlock>) returns (estimate: int)
    ensures estimate == EstimatedTokens(weightedTokens, blocks)
  {
    var opusCount := 0;
    var totalCount := 0;
    for i := 0 to |blocks|
      invariant totalCount == |NonGapEntries(blocks[..i])|
      invariant opusCount == OpusCount(NonGapEntries(blocks[..i]))
    {
      var block := blocks[i];
      assert blocks[..i + 1] == blocks[..i] + [block];
      NonGapEntriesSnoc(blocks[..i], block);
      if !block.isGap {
        ghost var before := NonGapEntries(blocks[..i]);
        assert before + block.entries[..0] == before;
        for j := 0 to |block.entries|
          invariant totalCount == |before + block.entries[..j]|
          invariant opusCount == OpusCount(before + block.entries[..j])
        {
          var entry := block.entries[j];
          assert before + block.entries[..j + 1] == (before + block.entries[..j]) + [entry];
          OpusCountSnoc(before + block.entries[..j], entry);
          if IsOpus(entry.model) {
            opusCount := opusCount + 1;
          }
          totalCount := totalCount + 1;
        }
        assert block.entries[..|block.entries|] == block.entries;
      } else {
        assert NonGapEntries(blocks[..i]) + [] == NonGapEntries(blocks[..i]);
      }
    }
    assert blocks[..|blocks|] == blocks;
    if totalCount == 0 {
      return weightedTokens;
    }
    var opusRatio := (opusCount as real) / (totalCount as real);
    var averageWeight := opusRatio * 5.0 + (1.0 - opusRatio) * 1.0;
    AverageWeightIsRatio(weightedTokens, totalCount, opusCount);
    estimate := Round((weightedTokens as real) / averageWeight);
  }

  /** Dividing by the average multiplier is taking the share `total / (total + 4 * opus)`. */
  lemma {:induction false} AverageWeightIsRatio(w: int, total: nat, opus: nat)
    requires total > 0
    ensures var ratio := (opus as real) / (total as real);
      (w as real) / (ratio * 5.0 + (1.0 - ratio) * 1.0) == Share(w, total, opus)
  {
    var t := total as real;
    var o := opus as real;
    var ratio := o / t;
    var avg := ratio * 5.0 + (1.0 - ratio) * 1.0;
    assert avg == 1.0 + 4.0 * ratio;
    assert avg * t == t + 4.0 * o;
    assert avg > 0.0;
    calc {
      (w as real) / avg;
      (w as real) * t / (avg * t);
      (w as real) * t / (t + 4.0 * o);
    }
  }

  /** With no Opus record the share is the whole weighted total. */
  lemma {:induction false} ShareWithoutOpus(w: int, total: nat)
    requires total > 0
    ensures Share(w, total, 0) == w as real
  {
    var t := total as real;
    assert (w as real) * t / (t + 4.0 * 0.0) == (w as real) * t / t;
  }

  /** With only Opus records the share is a fifth of the weighted total. */
  lemma {:induction false} ShareAllOpus(w: int, total: nat)
    requires total > 0
    ensures Share(w, total, total) == w as real / 5.0
  {
    var t := total as real;
    assert t + 4.0 * t == 5.0 * t;
    assert (w as real) * t / (5.0 * t) == w as real / 5.0;
  }

  /** For a non-negative total the share lies between a fifth of it and all of it. */
  lemma {:induction false} ShareBounds(w: int, total: nat, opus: nat)
    requires total > 0 && opus <= total && w >= 0
    ensures w as real / 5.0 <= Share(w, total, opus) <= w as real
  {
    var t := total as real;
    var d := t + 4.0 * (opus as real);
    var x := Share(w, total, opus);
    assert x * d == (w as real) * t;
    assert (w as real) * t <= (w as real) * d;
    assert d <= 5.0 * t;
    assert (w as real) * d <= 5.0 * ((w as real) * t);
  }

  /** Without any Opus record (or without any record at all) the weighted total is returned unchanged. */
  lemma {:induction false} EstimateWithoutOpus(w: int, blocks: seq<SessionBlock>)
    requires OpusCount(NonGapEntries(blocks)) == 0
    ensures EstimatedTokens(w, blocks) == w
  {
    var total := |NonGapEntries(blocks)|;
    if total > 0 {
      ShareWithoutOpus(w, total);
      RoundWhole(w);
    }
  }

  /** When every record is an Opus record the estimate is the weighted total divided by 5, rounded. */
  lemma {:induction false} EstimateAllOpus(w: int, blocks: seq<SessionBlock>)
    requires NonGapEntries(blocks) != []
    requires OpusCount(NonGapEntries(blocks)) == |NonGapEntries(blocks)|
    ensures EstimatedTokens(w, blocks) == Round(w as real / 5.0)
  {
    ShareAllOpus(w, |NonGapEntries(blocks)|);
  }

  /** For a non-negative weighted total the estimate lies between the all-Opus and the no-Opus estimates. */
  lemma {:induction false} EstimateBounds(w: int, blocks: seq<SessionBlock>)
    requires w >= 0
    ensures Round(w as real / 5.0) <= EstimatedTokens(w, blocks) <= w
  {
    var entries := NonGapEntries(blocks);
    var total := |entries|;
    RoundWhole(w);
    if total > 0 {
      var x := Share(w, total, OpusCount(entries));
      ShareBounds(w, total, OpusCount(entries));
      RoundMonotone(w as real / 5.0, x);
      RoundMonotone(x, w as real);
    } else {
      RoundMonotone(w as real / 5.0, w as real);
    }
  }

  /** The records of one Opus and two Sonnet one-record blocks, in order. */
  lemma {:induction false} MixedModelsRecords(o: SessionBlock, s: SessionBlock)
    requires !o.isGap && !s.isGap && |o.entries| == 1 && |s.entries| == 1
    ensures NonGapEntries([o, s, s]) == [o.entries[0], s.entries[0], s.entries[0]]
  {
    assert [o, s, s][..2] == [o, s] && [o, s][..1] == [o] && [o][..0] == [];
    assert o.entries == [o.entries[0]] && s.entries == [s.entries[0]];
    assert NonGapEntries([o]) == [] + o.entries;
    assert NonGapEntries([o, s]) == NonGapEntries([o]) + s.entries;
    assert NonGapEntries([o, s, s]) == NonGapEntries([o, s]) + s.entries;
  }

  /** One Opus record among three is counted once. */
  lemma {:induction false} MixedModelsOpusCount(a: UsageEntry, b: UsageEntry)
    requires IsOpus(a.model) && !IsOpus(b.model)
    ensures OpusCount([a, b, b]) == 1
  {
    assert [a, b, b][..2] == [a, b] && [a, b][..1] == [a] && [a][..0] == [];
    assert OpusCount([a]) == 1;
    assert OpusCount([a, b]) == 1;
  }

  /** One Opus and two Sonnet records of 10000 tokens each: 70000 weighted tokens are 30000 actual tokens. */
  lemma MixedModelsExample()
    ensures EstimatedTokens(70000, [SingleRecordBlock(10000, OPUS_MODEL), SingleRecordBlock(10000, SONNET_MODEL),
                                    SingleRecordBlock(10000, SONNET_MODEL)]) == 30000
  {
    var o := SingleRecordBlock(10000, OPUS_MODEL);
    var s := SingleRecordBlock(10000, SONNET_MODEL);
    MixedModelsRecords(o, s);
    OpusModelIsOpus();
    SonnetModelIsNotOpus();
    assert o.entries[0].model == OPUS_MODEL && s.entries[0].model == SONNET_MODEL;
    MixedModelsOpusCount(o.entries[0], s.entries[0]);
    assert Share(70000, 3, 1) == 30000.0;
    RoundWhole(30000);
  }
}
