/**
 * The records shared by the usage-accounting core (src/models/types.ts).
 * Instants are integer milliseconds since the epoch; optional fields are Options.
 */
module Types {

  datatype Option<+T> = None | Some(value: T)

  /** One billable event read from a log line. */
  datatype UsageEntry = UsageEntry(
    timestamp: int,
    inputTokens: int,
    outputTokens: int,
    cacheCreationTokens: int,
    cacheReadTokens: int,
    costUSD: Option<real>,
    model: string,
    messageId: Option<string>,
    requestId: Option<string>)

  /** The four token categories, summed per block. */
  datatype TokenCounts = TokenCounts(
    inputTokens: int,
    outputTokens: int,
    cacheCreationTokens: int,
    cacheReadTokens: int)

  const ZeroCounts := TokenCounts(0, 0, 0, 0)

  function AddCounts(c: TokenCounts, e: UsageEntry): TokenCounts
  {
    TokenCounts(c.inputTokens + e.inputTokens,
                c.outputTokens + e.outputTokens,
                c.cacheCreationTokens + e.cacheCreationTokens,
                c.cacheReadTokens + e.cacheReadTokens)
  }

  /** A session window or a gap between two of them. */
  datatype SessionBlock = SessionBlock(
    id: string,
    startTime: int,
    endTime: int,
    actualEndTime: Option<int>,
    isActive: bool,
    isGap: bool,
    entries: seq<UsageEntry>,
    tokenCounts: TokenCounts,
    costUSD: real,
    models: seq<string>,
    durationMinutes: int)

  datatype BurnRate = BurnRate(tokensPerMinute: real, costPerHour: real)

  datatype UsageProjection = UsageProjection(
    projectedTotalTokens: real,
    projectedTotalCost: real,
    remainingMinutes: int)

  datatype Plan = Pro | Max5 | Max20 | CustomMax

  /** A JavaScript value used as a condition: a string is truthy when it is non-empty. */
  predicate TruthyString(s: Option<string>)
  {
    s.Some? && s.value != ""
  }

  /** `a || b` on two optional strings. */
  function OrString(a: Option<string>, b: Option<string>): (r: Option<string>)
    ensures TruthyString(a) ==> r == a
    ensures !TruthyString(a) ==> r == b
  {
    if TruthyString(a) then a else b
  }

  /** A number is truthy when it is present and not zero. */
  predicate TruthyNumber(x: Option<real>)
  {
    x.Some? && x.value != 0.0
  }
}
