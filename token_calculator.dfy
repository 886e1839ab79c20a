/**
 * Token weighting and plan limits (src/core/tokenCalculator.ts).
 * A record weighs 5 times its input plus output tokens when its model name contains
 * "opus" in any letter case, and once otherwise; cache tokens never count.
 */
module TokenCalculator {
  import opened Types
  import opened Text

  const PRO_LIMIT: int := 44000
  const MAX5_LIMIT: int := 220000
  const MAX20_LIMIT: int := 880000

  /** `PLAN_LIMITS[plan]` for the three fixed plans. */
  function FixedLimit(plan: Plan): int
    requires plan != CustomMax
  {
    match plan
    case Pro => PRO_LIMIT
    case Max5 => MAX5_LIMIT
    case Max20 => MAX20_LIMIT
  }

  predicate IsOpus(model: string)
  {
    Contains(ToLower(model), "opus")
  }

  predicate IsSonnet(model: string)
  {
    Contains(ToLower(model), "sonnet")
  }

  function Multiplier(model: string): int
  {
    if IsOpus(model) then 5 else 1
  }

  function EntryWeight(e: UsageEntry): int
  {
    Multiplier(e.model) * (e.inputTokens + e.outputTokens)
  }

  /** The reference sum of the weights of `entries`. */
  function WeightedTokens(entries: seq<UsageEntry>): int
  {
    if entries == [] then 0
    else WeightedTokens(entries[..|entries| - 1]) + EntryWeight(entries[|entries| - 1])
  }

  /** `calculateWeightedTokens`: the loop with its three model branches. */
  method CalculateWeightedTokens(entries: seq<UsageEntry>) returns (totalTokens: int)
    ensures totalTokens == WeightedTokens(entries)
  {
    totalTokens := 0;
    for i := 0 to |entries|
      invariant totalTokens == WeightedTokens(entries[..i])
    {
      var entry := entries[i];
      var modelName := ToLower(entry.model);
      var baseTokens := entry.inputTokens + entry.outputTokens;
      if Contains(modelName, "opus") {
        totalTokens := totalTokens + 5 * baseTokens;
      } else if Contains(modelName, "sonnet") {
        totalTokens := totalTokens + baseTokens;
      } else {
        totalTokens := totalTokens + baseTokens;
      }
      assert entries[..i + 1][..i] == entries[..i];
    }
    assert entries[..|entries|] == entries;
  }

  /** `calculateBlockWeightedTokens`. */
  method CalculateBlockWeightedTokens(block: SessionBlock) returns (tokens: int)
    ensures tokens == WeightedTokens(block.entries)
  {
    tokens := CalculateWeightedTokens(block.entries);
  }

  function BlockWeight(block: SessionBlock): int
  {
    WeightedTokens(block.entries)
  }

  // ------------------------------------------------------------ properties of the weighting

  /** Weighting is additive over concatenated entry lists. */
  lemma {:induction false} WeightedTokensAppend(a: seq<UsageEntry>, b: seq<UsageEntry>)
    ensures WeightedTokens(a + b) == WeightedTokens(a) + WeightedTokens(b)
    decreases |b|
  {
    if b == [] {
      assert a + b == a;
    } else {
      WeightedTokensAppend(a, b[..|b| - 1]);
      assert (a + b)[..|a + b| - 1] == a + b[..|b| - 1];
    }
  }

  predicate NonNegativeCounts(e: UsageEntry)
  {
    e.inputTokens >= 0 && e.outputTokens >= 0 && e.cacheCreationTokens >= 0 && e.cacheReadTokens >= 0
  }

  function RawTokens(entries: seq<UsageEntry>): int
  {
    if entries == [] then 0
    else RawTokens(entries[..|entries| - 1]) + entries[|entries| - 1].inputTokens + entries[|entries| - 1].outputTokens
  }

  /**
   * For non-negative counts the weighted total lies between the raw input-plus-output
   * total and five times it; in particular it is never negative.
   */
  lemma {:induction false} WeightedTokensBounds(entries: seq<UsageEntry>)
    requires forall e :: e in entries ==> NonNegativeCounts(e)
    ensures 0 <= RawTokens(entries) <= WeightedTokens(entries) <= 5 * RawTokens(entries)
  {
    if entries != [] {
      var prefix := entries[..|entries| - 1];
      assert forall e :: e in prefix ==> e in entries;
      WeightedTokensBounds(prefix);
      assert NonNegativeCounts(entries[|entries| - 1]);
    }
  }

  /** Two lists that differ only in their cache counts (and timestamps, costs, ids) weigh the same. */
  lemma {:induction false} WeightedTokensIgnoresCache(a: seq<UsageEntry>, b: seq<UsageEntry>)
    requires |a| == |b|
    requires forall i :: 0 <= i < |a| ==>
      a[i].inputTokens == b[i].inputTokens && a[i].outputTokens == b[i].outputTokens && a[i].model == b[i].model
    ensures WeightedTokens(a) == WeightedTokens(b)
  {
    if a != [] {
      WeightedTokensIgnoresCache(a[..|a| - 1], b[..|b| - 1]);
    }
  }

  /** The model names the weighting tests use. */
  const OPUS_MODEL: string := "claude-3-opus-20240229"
  const SONNET_MODEL: string := "claude-3-sonnet-20240229"

  lemma OpusModelIsOpus()
    ensures IsOpus(OPUS_MODEL)
  {
    OpusModelIsLowerCase();
    ContainsAt(OPUS_MODEL, "opus", 9);
  }

  lemma OpusModelIsLowerCase()
    ensures ToLower(OPUS_MODEL) == OPUS_MODEL
  {
    ToLowerNoCapitals(OPUS_MODEL);
  }

  lemma SonnetModelIsNotOpus()
    ensures !IsOpus(SONNET_MODEL)
  {
    SonnetModelIsLowerCase();
    assert 'p' !in SONNET_MODEL;
    MissingCharNotContained(SONNET_MODEL, "opus", 'p');
  }

  lemma SonnetModelIsLowerCase()
    ensures ToLower(SONNET_MODEL) == SONNET_MODEL
  {
    ToLowerNoCapitals(SONNET_MODEL);
  }

  /** The examples the tests pin: one opus record of 100 + 50 tokens weighs 750; with a sonnet one of 200 + 100, 1050. */
  lemma OpusAndSonnetExamples()
    ensures var opus := UsageEntry(0, 100, 50, 0, 0, None, OPUS_MODEL, None, None);
            var sonnet := UsageEntry(0, 200, 100, 0, 0, None, SONNET_MODEL, None, None);
            WeightedTokens([opus]) == 750 && WeightedTokens([opus, sonnet]) == 1050
  {
    var opus := UsageEntry(0, 100, 50, 0, 0, None, OPUS_MODEL, None, None);
    var sonnet := UsageEntry(0, 200, 100, 0, 0, None, SONNET_MODEL, None, None);
    ModelWeights(opus);
    ModelWeights(sonnet);
    assert [opus][..0] == [];
    assert [opus, sonnet][..1] == [opus];
  }

  /** A record of either test model weighs 5 or 1 times its input plus output tokens. */
  lemma ModelWeights(e: UsageEntry)
    ensures e.model == OPUS_MODEL ==> EntryWeight(e) == 5 * (e.inputTokens + e.outputTokens)
    ensures e.model == SONNET_MODEL ==> EntryWeight(e) == e.inputTokens + e.outputTokens
  {
    OpusModelIsOpus();
    SonnetModelIsNotOpus();
  }

  // ------------------------------------------------------------ totals over blocks

  /** `getTotalWeightedTokens`: the weights of the non-gap blocks, summed. */
  function TotalWeightedTokens(blocks: seq<SessionBlock>): int
  {
    if blocks == [] then 0
    else
      var last := blocks[|blocks| - 1];
      TotalWeightedTokens(blocks[..|blocks| - 1]) + (if last.isGap then 0 else BlockWeight(last))
  }

  /** The blocks `filter((block) => !block.isGap)` keeps, in order. */
  function WithoutGaps(blocks: seq<SessionBlock>): seq<SessionBlock>
  {
    if blocks == [] then []
    else
      var b := blocks[|blocks| - 1];
      WithoutGaps(blocks[..|blocks| - 1]) + (if b.isGap then [] else [b])
  }

  /** The entries of the non-gap blocks, block after block. */
  function NonGapEntries(blocks: seq<SessionBlock>): seq<UsageEntry>
  {
    if blocks == [] then []
    else
      var last := blocks[|blocks| - 1];
      NonGapEntries(blocks[..|blocks| - 1]) + (if last.isGap then [] else last.entries)
  }

  /** The total is the weight of all entries of non-gap blocks taken together: gap blocks never count. */
  lemma {:induction false} TotalWeightedTokensIsWeightOfNonGapEntries(blocks: seq<SessionBlock>)
    ensures TotalWeightedTokens(blocks) == WeightedTokens(NonGapEntries(blocks))
  {
    if blocks != [] {
      var last := blocks[|blocks| - 1];
      TotalWeightedTokensIsWeightOfNonGapEntries(blocks[..|blocks| - 1]);
      WeightedTokensAppend(NonGapEntries(blocks[..|blocks| - 1]), if last.isGap then [] else last.entries);
    }
  }

  predicate IsLive(b: SessionBlock)
  {
    b.isActive && !b.isGap
  }

  /** The position of the last active non-gap block, if any. */
  function LastLiveIndex(blocks: seq<SessionBlock>): (k: Option<nat>)
    ensures k.Some? ==> k.value < |blocks| && IsLive(blocks[k.value])
                        && forall j :: k.value < j < |blocks| ==> !IsLive(blocks[j])
    ensures k.None? ==> forall j :: 0 <= j < |blocks| ==> !IsLive(blocks[j])
  {
    if blocks == [] then None
    else if IsLive(blocks[|blocks| - 1]) then Some(|blocks| - 1)
    else LastLiveIndex(blocks[..|blocks| - 1])
  }

  /** `getActiveSessionTokens`: the weight of the last active non-gap block, else 0. */
  function ActiveSessionTokens(blocks: seq<SessionBlock>): (r: int)
    ensures (forall j :: 0 <= j < |blocks| ==> !IsLive(blocks[j])) ==> r == 0
    ensures (exists j :: 0 <= j < |blocks| && IsLive(blocks[j])) ==>
      exists k :: 0 <= k < |blocks| && IsLive(blocks[k]) && r == BlockWeight(blocks[k])
                  && forall j :: k < j < |blocks| ==> !IsLive(blocks[j])
  {
    match LastLiveIndex(blocks)
    case None => 0
    case Some(k) => BlockWeight(blocks[k])
  }

  // ------------------------------------------------------------ maximum over history

  /** The reference maximum: 0, raised by the weight of every non-gap block. */
  function MaxHistory(blocks: seq<SessionBlock>): (m: int)
    ensures m >= 0
    ensures forall i :: 0 <= i < |blocks| && !blocks[i].isGap ==> BlockWeight(blocks[i]) <= m
    ensures m == 0 || exists i :: 0 <= i < |blocks| && !blocks[i].isGap && m == BlockWeight(blocks[i])
  {
    if blocks == [] then 0
    else
      var prefix := blocks[..|blocks| - 1];
      var last := blocks[|blocks| - 1];
      var m := MaxHistory(prefix);
      assert forall i :: 0 <= i < |prefix| ==> blocks[i] == prefix[i];
      if last.isGap || BlockWeight(last) <= m then m else BlockWeight(last)
  }

  /** `detectMaxTokensFromHistory`. */
  method DetectMaxTokensFromHistory(blocks: seq<SessionBlock>) returns (maxTokens: int)
    ensures maxTokens == MaxHistory(blocks)
  {
    maxTokens := 0;
    for i := 0 to |blocks|
      invariant maxTokens == MaxHistory(blocks[..i])
    {
      var block := blocks[i];
      if !block.isGap {
        var blockTokens := CalculateBlockWeightedTokens(block);
        maxTokens := if maxTokens >= blockTokens then maxTokens else blockTokens;
      }
      assert blocks[..i + 1][..i] == blocks[..i];
    }
    assert blocks[..|blocks|] == blocks;
  }

  /** When every record has non-negative counts and some non-gap block exists, the maximum is one of their weights. */
  lemma {:induction false} MaxHistoryAttained(blocks: seq<SessionBlock>, i: nat)
    requires i < |blocks| && !blocks[i].isGap
    requires forall e :: e in NonGapEntries(blocks) ==> NonNegativeCounts(e)
    ensures exists k :: 0 <= k < |blocks| && !blocks[k].isGap && MaxHistory(blocks) == BlockWeight(blocks[k])
  {
    if MaxHistory(blocks) == 0 {
      NonGapEntriesContains(blocks, i);
      WeightedTokensBounds(blocks[i].entries);
    }
  }

  lemma {:induction false} NonGapEntriesContains(blocks: seq<SessionBlock>, i: nat)
    requires i < |blocks| && !blocks[i].isGap
    ensures forall e :: e in blocks[i].entries ==> e in NonGapEntries(blocks)
  {
    if i < |blocks| - 1 {
      NonGapEntriesContains(blocks[..|blocks| - 1], i);
    }
  }

  // ------------------------------------------------------------ limits, percentage, status

  /** `determinePlanLimit`. */
  function DeterminePlanLimit(plan: Plan, blocks: seq<SessionBlock>): (limit: int)
    ensures limit > 0
    ensures plan != CustomMax ==> limit == FixedLimit(plan)
    ensures plan == CustomMax ==> limit == (if MaxHistory(blocks) > 0 then MaxHistory(blocks) else PRO_LIMIT)
  {
    if plan == CustomMax then
      var detected := MaxHistory(blocks);
      if detected > 0 then detected else PRO_LIMIT
    else FixedLimit(plan)
  }

  /** The auto-detected limit is never below the weight of any non-gap block of the history. */
  lemma {:induction false} CustomLimitCoversHistory(blocks: seq<SessionBlock>)
    ensures forall i :: 0 <= i < |blocks| && !blocks[i].isGap ==> BlockWeight(blocks[i]) <= DeterminePlanLimit(CustomMax, blocks)
  {
  }

  /** `calculateTokenPercentage`: `current / limit * 100`, capped at 100, and 0 for a zero limit. */
  function TokenPercentage(currentTokens: int, limit: int): (p: real)
    ensures limit == 0 ==> p == 0.0
    ensures p <= 100.0
    ensures limit > 0 && currentTokens >= limit ==> p == 100.0
    ensures limit > 0 && currentTokens < limit ==> p * (limit as real) == 100.0 * (currentTokens as real)
    ensures limit > 0 && currentTokens >= 0 ==> 0.0 <= p
  {
    if limit == 0 then 0.0
    else
      var raw := (currentTokens as real) / (limit as real) * 100.0;
      if raw <= 100.0 then raw else 100.0
  }

  datatype Status = Safe | Warning | Critical

  function StatusRank(s: Status): nat
  {
    match s
    case Safe => 0
    case Warning => 1
    case Critical => 2
  }

  /** `getTokenStatus`: 90 and above is critical, 50 and above a warning. */
  function TokenStatus(percentage: real): (s: Status)
    ensures s == Critical <==> percentage >= 90.0
    ensures s == Warning <==> 50.0 <= percentage < 90.0
    ensures s == Safe <==> percentage < 50.0
  {
    if percentage >= 90.0 then Critical
    else if percentage >= 50.0 then Warning
    else Safe
  }

  /** A higher percentage never gives a milder status. */
  lemma {:induction false} TokenStatusMonotone(p: real, q: real)
    requires p <= q
    ensures StatusRank(TokenStatus(p)) <= StatusRank(TokenStatus(q))
  {
  }
}
