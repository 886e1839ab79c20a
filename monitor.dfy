/**
 * One refresh of the live monitor (src/cli/monitor.ts): load the records, cut them into
 * session blocks, take the first active block, compute the usage figures, and switch a Pro
 * plan to the auto-detected limit once the active block passes 44,000 weighted tokens.
 * Timers, signals, the console and the screen drawing are not modelled; the two warnings
 * the screen shows are kept as predicates on the figures.
 */
module UsageMonitor {
  import opened Types
  import opened Time
  import opened TokenCalculator
  import opened Sessions
  import opened BurnRateCalculator
  import opened DataLoader
  import opened Formatter

  /** The refresh period used when none is given, in milliseconds. */
  const DEFAULT_REFRESH_MS: int := 3000

  /** Above this many weighted tokens in the active block a Pro plan becomes custom_max. */
  const SWITCH_THRESHOLD: int := 44000

  /** `options.refreshInterval || 3000`: an absent or zero interval falls back to the default. */
  function RefreshInterval(option: Option<int>): (ms: int)
    ensures option.Some? && option.value != 0 ==> ms == option.value
    ensures option.None? || option.value == 0 ==> ms == DEFAULT_REFRESH_MS
  {
    if option.Some? && option.value != 0 then option.value else DEFAULT_REFRESH_MS
  }

  // ------------------------------------------------------------ the figures of one refresh

  /** The position of the first block that is active and not a gap, as `blocks.find` returns it. */
  function FirstLiveIndex(blocks: seq<SessionBlock>): (k: Option<nat>)
    ensures k.Some? ==> k.value < |blocks| && IsLive(blocks[k.value])
                        && forall j :: 0 <= j < k.value ==> !IsLive(blocks[j])
    ensures k.None? ==> forall j :: 0 <= j < |blocks| ==> !IsLive(blocks[j])
  {
    if blocks == [] then None
    else if IsLive(blocks[0]) then Some(0)
    else match FirstLiveIndex(blocks[1..])
      case None => None
      case Some(k) => Some(k + 1)
  }

  function ActiveBlock(blocks: seq<SessionBlock>): Option<SessionBlock>
  {
    match FirstLiveIndex(blocks)
    case None => None
    case Some(k) => Some(blocks[k])
  }

  /** The weighted tokens of the active block, or 0 without one. */
  function CurrentTokens(activeBlock: Option<SessionBlock>): int
  {
    match activeBlock
    case None => 0
    case Some(b) => BlockWeight(b)
  }

  /** The plan after the auto-switch: only Pro changes, and only to custom_max above the threshold. */
  function SwitchedPlan(plan: Plan, currentTokens: int): (p: Plan)
    ensures p != plan <==> plan == Pro && currentTokens > SWITCH_THRESHOLD
    ensures p != plan ==> p == CustomMax
  {
    if plan == Pro && currentTokens > SWITCH_THRESHOLD then CustomMax else plan
  }

  /** What `update` hands to `display`. */
  datatype Snapshot = Snapshot(
    plan: Plan,
    currentTokens: int,
    limit: int,
    percentage: real,
    burnRate: BurnRate,
    burnRateIndicator: string,
    activeBlock: Option<SessionBlock>,
    projection: Option<UsageProjection>,
    depletionTime: Option<real>)

  /**
   * The figures of one refresh over `blocks`, for the plan in force before it. The limit
   * is the one of that plan, even when the refresh switches the plan.
   */
  function SnapshotOf(plan: Plan, blocks: seq<SessionBlock>, now: int): (s: Snapshot)
    ensures s.activeBlock.None? <==> forall j :: 0 <= j < |blocks| ==> !IsLive(blocks[j])
    ensures s.activeBlock.Some? ==> exists k :: 0 <= k < |blocks| && blocks[k] == s.activeBlock.value
                                              && IsLive(blocks[k])
                                              && forall j :: 0 <= j < k ==> !IsLive(blocks[j])
    ensures s.activeBlock.None? ==> s.currentTokens == 0
    ensures s.activeBlock.Some? ==> s.currentTokens == BlockWeight(s.activeBlock.value)
    ensures s.limit == DeterminePlanLimit(plan, blocks)
    ensures s.plan == SwitchedPlan(plan, s.currentTokens)
    ensures s.percentage == TokenPercentage(s.currentTokens, s.limit)
    ensures s.burnRate == HourlyBurnRate(blocks, now)
    ensures s.burnRateIndicator == BurnRateIndicator(s.burnRate.tokensPerMinute)
    ensures s.projection == ProjectUsage(s.activeBlock, s.currentTokens, s.limit, s.burnRate, now)
    ensures s.depletionTime == DepletionTime(s.currentTokens, s.limit, s.burnRate, now)
  {
    var activeBlock := ActiveBlock(blocks);
    var currentTokens := CurrentTokens(activeBlock);
    var limit := DeterminePlanLimit(plan, blocks);
    var burnRate := HourlyBurnRate(blocks, now);
    Snapshot(SwitchedPlan(plan, currentTokens), currentTokens, limit, TokenPercentage(currentTokens, limit),
             burnRate, BurnRateIndicator(burnRate.tokensPerMinute), activeBlock,
             ProjectUsage(activeBlock, currentTokens, limit, burnRate, now),
             DepletionTime(currentTokens, limit, burnRate, now))
  }

  // ------------------------------------------------------------ the two warnings of `display`

  /** "Tokens will deplete before session reset!": a depletion time before the active block's end. */
  predicate DepletionWarning(s: Snapshot)
  {
    s.depletionTime.Some? && s.activeBlock.Some? && s.depletionTime.value < s.activeBlock.value.endTime as real
  }

  /** "Token limit nearly reached!": 90% or more of the limit. */
  predicate NearLimitWarning(s: Snapshot)
  {
    s.percentage >= 90.0
  }

  /** What the screen shows, apart from the digit-grouped totals and the burn-rate line. */
  datatype Screen = Screen(
    planLabel: string,
    statusMarker: string,
    cells: (int, int),
    sessionInfo: SessionInfo,
    depletionWarning: bool,
    nearLimitWarning: bool)

  /** `display`: a 40-cell bar and the session line, both read at `now`. */
  function Display(s: Snapshot, now: int): (screen: Screen)
    ensures screen.depletionWarning <==> DepletionWarning(s)
    ensures screen.nearLimitWarning <==> s.percentage >= 90.0
    ensures screen.nearLimitWarning <==> MarkerBand(screen.statusMarker) == Red
    ensures screen.planLabel == FormatPlan(s.plan)
  {
    BandsAgree(s.percentage);
    Screen(FormatPlan(s.plan), StatusMarker(s.percentage), ProgressCells(s.percentage, 40),
           FormatSessionInfo(s.activeBlock, now), DepletionWarning(s), NearLimitWarning(s))
  }

  // ------------------------------------------------------------ the monitor object

  class Monitor {
    var plan: Plan
    var isRunning: bool
    /** Set while a refresh timer is installed. */
    var timerInterval: Option<int>
    const refreshInterval: Option<int>
    const sessions: SessionIdentifier

    /** `new Monitor({ plan, refreshInterval })`, whose session identifier uses the default windows. */
    constructor(plan: Plan, refreshInterval: Option<int>, utcOffsetMs: int)
      ensures this.plan == plan && !isRunning && timerInterval.None?
      ensures this.refreshInterval == refreshInterval
      ensures sessions.Settings() == Config(DEFAULT_SESSION_HOURS, DEFAULT_RESET_HOURS, utcOffsetMs)
    {
      this.plan := plan;
      isRunning := false;
      timerInterval := None;
      this.refreshInterval := refreshInterval;
      sessions := new SessionIdentifier.Default(utcOffsetMs);
    }

    /**
     * `update`: the figures of one refresh over the records of `files`, read at `now`;
     * the plan field takes the switched plan and nothing else changes.
     */
    method Update(files: seq<seq<string>>, decode: string -> Option<RawUsageData>,
                  parseTime: string -> Option<int>, now: int) returns (snapshot: Snapshot)
      modifies this
      ensures snapshot == SnapshotOf(old(plan), Partition(sessions.Settings(), now, LoadUsageData(files, decode, parseTime)), now)
      ensures plan == snapshot.plan
      ensures isRunning == old(isRunning) && timerInterval == old(timerInterval)
    {
      var entries := LoadUsage(files, decode, parseTime);
      var blocks := sessions.CreateSessionBlocks(entries, now);
      var activeBlock := ActiveBlock(blocks);
      var currentTokens := 0;
      if activeBlock.Some? {
        currentTokens := CalculateBlockWeightedTokens(activeBlock.value);
      }
      var limit := DeterminePlanLimit(plan, blocks);
      var percentage := TokenPercentage(currentTokens, limit);
      var burnRate := CalculateHourlyBurnRate(blocks, now);
      var burnRateIndicator := BurnRateIndicator(burnRate.tokensPerMinute);
      if plan == Pro && currentTokens > SWITCH_THRESHOLD {
        plan := CustomMax;
      }
      var projection := ProjectUsage(activeBlock, currentTokens, limit, burnRate, now);
      var depletionTime := DepletionTime(currentTokens, limit, burnRate, now);
      snapshot := Snapshot(plan, currentTokens, limit, percentage, burnRate, burnRateIndicator,
                           activeBlock, projection, depletionTime);
    }

    /** `start`: marks the monitor running, refreshes once, and installs the refresh timer. */
    method Start(files: seq<seq<string>>, decode: string -> Option<RawUsageData>,
                 parseTime: string -> Option<int>, now: int) returns (snapshot: Snapshot)
      modifies this
      ensures isRunning
      ensures timerInterval == Some(RefreshInterval(refreshInterval))
      ensures snapshot == SnapshotOf(old(plan), Partition(sessions.Settings(), now, LoadUsageData(files, decode, parseTime)), now)
      ensures plan == snapshot.plan
    {
      isRunning := true;
      snapshot := Update(files, decode, parseTime, now);
      timerInterval := Some(RefreshInterval(refreshInterval));
    }

    /** One timer tick: a refresh while running, nothing otherwise. */
    method Tick(files: seq<seq<string>>, decode: string -> Option<RawUsageData>,
                parseTime: string -> Option<int>, now: int) returns (snapshot: Option<Snapshot>)
      modifies this
      ensures snapshot.Some? <==> old(isRunning)
      ensures !old(isRunning) ==> plan == old(plan)
      ensures snapshot.Some? ==>
        snapshot.value == SnapshotOf(old(plan), Partition(sessions.Settings(), now, LoadUsageData(files, decode, parseTime)), now)
        && plan == snapshot.value.plan
      ensures isRunning == old(isRunning) && timerInterval == old(timerInterval)
    {
      snapshot := None;
      if isRunning {
        var s := Update(files, decode, parseTime, now);
        snapshot := Some(s);
      }
    }

    /** `stop`: marks the monitor stopped and removes the timer; the plan is kept. */
    method Stop()
      modifies this
      ensures !isRunning && timerInterval.None? && plan == old(plan)
    {
      isRunning := false;
      timerInterval := None;
    }
  }

  // ------------------------------------------------------------ properties of a refresh

  /** Once custom_max, always custom_max; and a second switch with the same figures changes nothing. */
  lemma {:induction false} SwitchIsOneWay(plan: Plan, t: int, u: int)
    ensures SwitchedPlan(CustomMax, t) == CustomMax
    ensures SwitchedPlan(SwitchedPlan(plan, t), u) != plan ==> plan == Pro && SwitchedPlan(SwitchedPlan(plan, t), u) == CustomMax
    ensures SwitchedPlan(SwitchedPlan(plan, t), t) == SwitchedPlan(plan, t)
  {
  }

  /**
   * The refresh that switches the plan has measured against the Pro limit, so its figures are
   * over that limit: the bar is full, the near-limit warning is on, and there is no depletion time.
   */
  lemma {:induction false} SwitchingRefreshIsOverLimit(plan: Plan, blocks: seq<SessionBlock>, now: int)
    requires SnapshotOf(plan, blocks, now).plan != plan
    ensures var s := SnapshotOf(plan, blocks, now);
            && plan == Pro && s.plan == CustomMax
            && s.limit == PRO_LIMIT && s.currentTokens > s.limit
            && s.percentage == 100.0 && NearLimitWarning(s)
            && s.depletionTime.None? && !DepletionWarning(s)
  {
  }

  /** Without records there is no active block: no tokens, no projection and no warnings, on any plan. */
  lemma {:induction false} NoRecordsQuietSnapshot(plan: Plan, now: int)
    ensures var s := SnapshotOf(plan, [], now);
            && s.plan == plan && s.activeBlock.None? && s.currentTokens == 0 && s.percentage == 0.0
            && s.projection.None? && !DepletionWarning(s) && !NearLimitWarning(s)
  {
    var s := SnapshotOf(plan, [], now);
    assert s.limit > 0;
  }

  /**
   * The monitor takes the first active block and `getActiveSessionTokens` the last; the two
   * agree whenever at most one block is active.
   */
  lemma {:induction false} FirstAndLastActiveAgree(blocks: seq<SessionBlock>)
    requires forall i, j :: 0 <= i < j < |blocks| && IsLive(blocks[i]) ==> !IsLive(blocks[j])
    ensures CurrentTokens(ActiveBlock(blocks)) == ActiveSessionTokens(blocks)
  {
    var f := FirstLiveIndex(blocks);
    var l := LastLiveIndex(blocks);
    if f.Some? {
      assert l.Some?;
      assert f.value == l.value;
    }
  }

  /** With two active blocks the monitor shows the earlier one, where `getActiveSessionTokens` takes the later. */
  lemma {:induction false} FirstActiveIsEarlier(blocks: seq<SessionBlock>, i: nat, j: nat)
    requires i < j < |blocks| && IsLive(blocks[i]) && IsLive(blocks[j])
    ensures FirstLiveIndex(blocks).value <= i < j <= LastLiveIndex(blocks).value
  {
  }

  /** The depletion warning needs a non-zero rate, usage below the limit and an active block. */
  lemma {:induction false} DepletionWarningNeeds(s: Snapshot, plan: Plan, blocks: seq<SessionBlock>, now: int)
    requires s == SnapshotOf(plan, blocks, now) && DepletionWarning(s)
    ensures s.burnRate.tokensPerMinute != 0.0 && s.currentTokens < s.limit && s.activeBlock.Some?
  {
  }
}
