/**
 * Session windowing (src/core/sessionIdentifier.ts).
 *
 * One pass over the records keeps a mutable "current block": a record later than the
 * block's end closes it (fixing its duration), possibly emits a gap block, and opens a new
 * block aligned to a reset hour; every record is then added to the current block.
 * A final map marks the blocks whose end lies after `now` as active.
 *
 * The source aligns a block start by calling `setHours` on the record's own Date, so the
 * first record of every block ends up stamped with the block's start, and a gap block whose
 * end is that same Date ends at the new block's start although its duration was computed
 * from the record's original time. The model reproduces these effects explicitly.
 */
module Sessions {
  import opened Types
  import opened Time
  import opened Text

  /** The reset hours; the source reads the last one as a fallback, so the list is never empty. */
  type ResetHours = s: seq<nat> | |s| > 0 witness [0]

  datatype Config = Config(sessionHours: nat, resetHours: ResetHours, utcOffsetMs: int)

  const DEFAULT_SESSION_HOURS: nat := 5
  const DEFAULT_RESET_HOURS: ResetHours := [4, 9, 14, 18, 23]

  /** Every reset hour names an hour of a day. */
  predicate HoursOfDay(cfg: Config)
  {
    forall k :: 0 <= k < |cfg.resetHours| ==> cfg.resetHours[k] < 24
  }

  // ------------------------------------------------------------ reset-hour alignment

  /** `hours.filter(h => h <= hour).pop()`: the last hour in list order that is not after `hour`. */
  function LastAtOrBefore(hours: seq<nat>, hour: int): (r: Option<nat>)
    ensures r.None? <==> forall k :: 0 <= k < |hours| ==> hours[k] > hour
    ensures r.Some? ==> exists k :: 0 <= k < |hours| && hours[k] == r.value && r.value <= hour
                                    && forall j :: k < j < |hours| ==> hours[j] > hour
  {
    if hours == [] then None
    else if hours[|hours| - 1] <= hour then Some(hours[|hours| - 1])
    else
      var r := LastAtOrBefore(hours[..|hours| - 1], hour);
      assert forall k :: 0 <= k < |hours| - 1 ==> hours[..|hours| - 1][k] == hours[k];
      r
  }

  /** For ascending reset hours the hour picked is the greatest one not after `hour`. */
  lemma {:induction false} LastAtOrBeforeIsGreatest(hours: seq<nat>, hour: int)
    requires forall i, j :: 0 <= i < j < |hours| ==> hours[i] < hours[j]
    requires LastAtOrBefore(hours, hour).Some?
    ensures forall k :: 0 <= k < |hours| && hours[k] <= hour ==> hours[k] <= LastAtOrBefore(hours, hour).value
  {
    var r := LastAtOrBefore(hours, hour).value;
    var k :| 0 <= k < |hours| && hours[k] == r && r <= hour && forall j :: k < j < |hours| ==> hours[j] > hour;
    forall i | 0 <= i < |hours| && hours[i] <= hour
      ensures hours[i] <= r
    {
      if i < k {
        assert hours[i] < hours[k];
      }
    }
  }

  /**
   * `filter(...).pop() || resetHours[resetHours.length - 1]`: the hour picked, where no
   * candidate and a candidate of 0 (falsy) both fall back to the last reset hour.
   */
  function AlignedHour(cfg: Config, hour: int): (h: nat)
    ensures h in cfg.resetHours
  {
    var last := cfg.resetHours[|cfg.resetHours| - 1];
    match LastAtOrBefore(cfg.resetHours, hour)
    case None => last
    case Some(c) => if c != 0 then c else last
  }

  /** The hour picked is a non-zero reset hour not after `hour`, or the fallback. */
  lemma {:induction false} AlignedHourCases(cfg: Config, hour: int)
    ensures var h := AlignedHour(cfg, hour);
            (h != 0 && h <= hour) || h == cfg.resetHours[|cfg.resetHours| - 1]
    ensures (forall k :: 0 <= k < |cfg.resetHours| && cfg.resetHours[k] <= hour ==> cfg.resetHours[k] == 0)
            ==> AlignedHour(cfg, hour) == cfg.resetHours[|cfg.resetHours| - 1]
  {
    var r := LastAtOrBefore(cfg.resetHours, hour);
    if r.Some? {
      var k :| 0 <= k < |cfg.resetHours| && cfg.resetHours[k] == r.value && r.value <= hour
               && forall j :: k < j < |cfg.resetHours| ==> cfg.resetHours[j] > hour;
    }
  }

  /** `alignToResetHour`: the chosen hour set on the record's local calendar day. */
  function AlignedStart(cfg: Config, t: int): int
  {
    SetHours(t, AlignedHour(cfg, LocalHour(t, cfg.utcOffsetMs)), cfg.utcOffsetMs)
  }

  /** A block start is on a whole local hour, and on a reset hour when all reset hours are hours of a day. */
  lemma {:induction false} AlignedStartOnResetHour(cfg: Config, t: int)
    ensures (AlignedStart(cfg, t) + cfg.utcOffsetMs) % HOUR_MS == 0
    ensures HoursOfDay(cfg) ==> LocalHour(AlignedStart(cfg, t), cfg.utcOffsetMs) in cfg.resetHours
  {
    var h := AlignedHour(cfg, LocalHour(t, cfg.utcOffsetMs));
    SetHoursWholeHour(t, h, cfg.utcOffsetMs);
    if HoursOfDay(cfg) {
      var k :| 0 <= k < |cfg.resetHours| && cfg.resetHours[k] == h;
      SetHoursOnHour(t, h, cfg.utcOffsetMs);
    }
  }

  /**
   * When some non-zero reset hour is not after the record's local hour, the block starts
   * no later than the record; when every reset hour of a day is after it, the block starts
   * later the same day, after its own first record.
   */
  lemma {:induction false} AlignedStartBeforeOrAfter(cfg: Config, t: int)
    ensures var hour := LocalHour(t, cfg.utcOffsetMs);
            var c := LastAtOrBefore(cfg.resetHours, hour);
            c.Some? && c.value != 0 ==> AlignedStart(cfg, t) <= t
    ensures var hour := LocalHour(t, cfg.utcOffsetMs);
            var last := cfg.resetHours[|cfg.resetHours| - 1];
            LastAtOrBefore(cfg.resetHours, hour).None? && last < 24 ==> t < AlignedStart(cfg, t)
  {
    var hour := LocalHour(t, cfg.utcOffsetMs);
    var h := AlignedHour(cfg, hour);
    var c := LastAtOrBefore(cfg.resetHours, hour);
    if c.Some? && c.value != 0 {
      SetHoursNotLater(t, h, cfg.utcOffsetMs);
    }
    if c.None? && cfg.resetHours[|cfg.resetHours| - 1] < 24 {
      assert cfg.resetHours[|cfg.resetHours| - 1] > hour;
      SetHoursLater(t, h, cfg.utcOffsetMs);
    }
  }

  // ------------------------------------------------------------ block values

  /** `actualEndTime || fallback`: a Date is always truthy, so only a missing one falls back. */
  function EndOr(actualEndTime: Option<int>, fallback: int): int
  {
    match actualEndTime
    case Some(t) => t
    case None => fallback
  }

  /** The block `createNewBlock` opens for a record at instant `t`. */
  function NewBlock(cfg: Config, t: int): SessionBlock
  {
    var start := AlignedStart(cfg, t);
    SessionBlock("session_" + IntToString(start), start, start + cfg.sessionHours * HOUR_MS, None,
                 false, false, [], ZeroCounts, 0.0, [], 0)
  }

  /** `createGapBlock(start, end)`. */
  function GapBlock(startTime: int, endTime: int): (g: SessionBlock)
    ensures g.isGap && !g.isActive && g.entries == [] && g.tokenCounts == ZeroCounts
    ensures g.costUSD == 0.0 && g.models == [] && g.actualEndTime.None?
    ensures g.startTime == startTime && g.endTime == endTime
    ensures g.durationMinutes == MinutesBetween(endTime, startTime)
  {
    SessionBlock("gap_" + IntToString(startTime), startTime, endTime, None,
                 false, true, [], ZeroCounts, 0.0, [], MinutesBetween(endTime, startTime))
  }

  /** `addEntryToBlock` on a block value. */
  function AddEntry(b: SessionBlock, e: UsageEntry): SessionBlock
  {
    b.(entries := b.entries + [e],
       tokenCounts := AddCounts(b.tokenCounts, e),
       costUSD := if TruthyNumber(e.costUSD) then b.costUSD + e.costUSD.value else b.costUSD,
       models := if e.model != "" && e.model !in b.models then b.models + [e.model] else b.models,
       actualEndTime := Some(e.timestamp))
  }

  /** `finalizeBlock` on a block value: minutes from the start to the last record, else to `now`. */
  function Finalize(b: SessionBlock, now: int): SessionBlock
  {
    b.(durationMinutes := MinutesBetween(EndOr(b.actualEndTime, now), b.startTime))
  }

  /** `markActiveBlocks`: a block is active when it is not a gap and ends after `now`; nothing else changes. */
  function MarkActive(blocks: seq<SessionBlock>, now: int): (r: seq<SessionBlock>)
    ensures |r| == |blocks|
    ensures forall i :: 0 <= i < |r| ==>
      r[i].isActive == (!blocks[i].isGap && blocks[i].endTime > now) && r[i].(isActive := blocks[i].isActive) == blocks[i]
  {
    seq(|blocks|, i requires 0 <= i < |blocks| => blocks[i].(isActive := !blocks[i].isGap && blocks[i].endTime > now))
  }

  // ------------------------------------------------------------ reference sums over the records of a block

  function SumCounts(es: seq<UsageEntry>): TokenCounts
  {
    if es == [] then ZeroCounts else AddCounts(SumCounts(es[..|es| - 1]), es[|es| - 1])
  }

  /** The costs that are present and non-zero, summed. */
  function SumCost(es: seq<UsageEntry>): real
  {
    if es == [] then 0.0
    else
      var e := es[|es| - 1];
      SumCost(es[..|es| - 1]) + (if TruthyNumber(e.costUSD) then e.costUSD.value else 0.0)
  }

  /** The non-empty model names of `es`, each once, in order of first appearance. */
  function DistinctModels(es: seq<UsageEntry>): seq<string>
  {
    if es == [] then []
    else
      var m := DistinctModels(es[..|es| - 1]);
      var x := es[|es| - 1].model;
      if x != "" && x !in m then m + [x] else m
  }

  /** `models` holds no name twice, and holds exactly the non-empty model names of the records. */
  lemma {:induction false} DistinctModelsSpec(es: seq<UsageEntry>)
    ensures forall i, j :: 0 <= i < j < |DistinctModels(es)| ==> DistinctModels(es)[i] != DistinctModels(es)[j]
    ensures forall x :: x in DistinctModels(es) <==> x != "" && HasModel(es, x)
  {
    if es != [] {
      var p := es[..|es| - 1];
      DistinctModelsSpec(p);
      forall x | x != "" && HasModel(p, x)
        ensures HasModel(es, x)
      {
        var k :| 0 <= k < |p| && p[k].model == x;
        assert es[k].model == x;
      }
      forall x | x != "" && HasModel(es, x)
        ensures x in DistinctModels(es)
      {
        var k :| 0 <= k < |es| && es[k].model == x;
        if k < |p| {
          assert p[k].model == x;
        }
      }
    }
  }

  predicate HasModel(es: seq<UsageEntry>, x: string)
  {
    exists k :: 0 <= k < |es| && es[k].model == x
  }

  /** The records of a list of blocks, block after block. */
  function Flatten(blocks: seq<SessionBlock>): seq<UsageEntry>
  {
    if blocks == [] then [] else Flatten(blocks[..|blocks| - 1]) + blocks[|blocks| - 1].entries
  }

  lemma {:induction false} FlattenAppend(a: seq<SessionBlock>, b: seq<SessionBlock>)
    ensures Flatten(a + b) == Flatten(a) + Flatten(b)
    decreases |b|
  {
    if b == [] {
      assert a + b == a;
    } else {
      var b', x := b[..|b| - 1], b[|b| - 1];
      assert b == b' + [x];
      assert a + b == (a + b') + [x];
      FlattenAppend(a, b');
      FlattenSnoc(a + b', x);
      FlattenSnoc(b', x);
      ConcatAssoc(Flatten(a), Flatten(b'), x.entries);
    }
  }

  lemma {:induction false} FlattenSnoc(blocks: seq<SessionBlock>, b: SessionBlock)
    ensures Flatten(blocks + [b]) == Flatten(blocks) + b.entries
  {
    assert (blocks + [b])[..|blocks|] == blocks;
  }

  lemma {:induction false} FlattenMarkActive(blocks: seq<SessionBlock>, now: int)
    ensures Flatten(MarkActive(blocks, now)) == Flatten(blocks)
  {
    if blocks != [] {
      var p := blocks[..|blocks| - 1];
      FlattenMarkActive(p, now);
      assert MarkActive(blocks, now)[..|blocks| - 1] == MarkActive(p, now);
    }
  }

  /** A record with its timestamp forgotten, so that re-stamped records compare equal. */
  function Erase(es: seq<UsageEntry>): (r: seq<UsageEntry>)
    ensures |r| == |es|
    ensures forall i :: 0 <= i < |es| ==> r[i] == es[i].(timestamp := 0)
  {
    seq(|es|, i requires 0 <= i < |es| => es[i].(timestamp := 0))
  }

  lemma {:induction false} EraseAppend(a: seq<UsageEntry>, b: seq<UsageEntry>)
    ensures Erase(a + b) == Erase(a) + Erase(b)
  {
    assert forall i :: 0 <= i < |a + b| ==> Erase(a + b)[i] == (Erase(a) + Erase(b))[i];
  }

  // ------------------------------------------------------------ the pass, as a fold

  /** The closed blocks so far and the block still open. */
  datatype Windowing = Windowing(blocks: seq<SessionBlock>, current: Option<SessionBlock>)

  /** A new block for `e`, with `e` re-stamped to the block start as `setHours` leaves it, then added. */
  function Open(cfg: Config, blocks: seq<SessionBlock>, e: UsageEntry): Windowing
  {
    var nb := NewBlock(cfg, e.timestamp);
    Windowing(blocks, Some(AddEntry(nb, e.(timestamp := nb.startTime))))
  }

  /** One iteration of the loop of `createSessionBlocks`. */
  function Step(cfg: Config, now: int, w: Windowing, e: UsageEntry): Windowing
  {
    match w.current
    case None => Open(cfg, w.blocks, e)
    case Some(cur) =>
      if e.timestamp > cur.endTime then
        var gapMinutes := MinutesBetween(e.timestamp, EndOr(cur.actualEndTime, cur.startTime));
        var gaps :=
          if gapMinutes > cfg.sessionHours * 60 then
            // the gap ends at the record's Date, which the new block's alignment then moves
            [GapBlock(EndOr(cur.actualEndTime, cur.endTime), e.timestamp).(endTime := AlignedStart(cfg, e.timestamp))]
          else [];
        Open(cfg, w.blocks + [Finalize(cur, now)] + gaps, e)
      else Windowing(w.blocks, Some(AddEntry(cur, e)))
  }

  function Run(cfg: Config, now: int, entries: seq<UsageEntry>): Windowing
  {
    if entries == [] then Windowing([], None)
    else Step(cfg, now, Run(cfg, now, entries[..|entries| - 1]), entries[|entries| - 1])
  }

  /** The blocks once the open one, if any, is finalised and pushed. */
  function Close(w: Windowing, now: int): seq<SessionBlock>
  {
    match w.current
    case None => w.blocks
    case Some(cur) => w.blocks + [Finalize(cur, now)]
  }

  /** `createSessionBlocks` as a function of the records and the clock reading. */
  function Partition(cfg: Config, now: int, entries: seq<UsageEntry>): seq<SessionBlock>
  {
    if entries == [] then [] else MarkActive(Close(Run(cfg, now, entries), now), now)
  }

  // ------------------------------------------------------------ what every block looks like

  /** A session block as the pass builds it, before its duration is fixed and activity is marked. */
  predicate WindowOk(cfg: Config, b: SessionBlock)
  {
    && !b.isGap
    && |b.entries| > 0
    && b.id == "session_" + IntToString(b.startTime)
    && b.entries[0].timestamp == b.startTime
    && b.actualEndTime == Some(b.entries[|b.entries| - 1].timestamp)
    && b.tokenCounts == SumCounts(b.entries)
    && b.costUSD == SumCost(b.entries)
    && b.models == DistinctModels(b.entries)
    && b.endTime == b.startTime + cfg.sessionHours * HOUR_MS
    && (b.startTime + cfg.utcOffsetMs) % HOUR_MS == 0
    && (HoursOfDay(cfg) ==> LocalHour(b.startTime, cfg.utcOffsetMs) in cfg.resetHours)
    && (forall k :: 0 <= k < |b.entries| ==> b.entries[k].timestamp <= b.endTime)
  }

  /** A finalised session block: its duration runs from the start to the last record. */
  predicate Finalized(b: SessionBlock)
  {
    b.actualEndTime.Some? && b.durationMinutes == MinutesBetween(b.actualEndTime.value, b.startTime)
  }

  /** A gap block: empty, and longer than a session. */
  predicate GapOk(cfg: Config, b: SessionBlock)
  {
    && b.isGap
    && b.id == "gap_" + IntToString(b.startTime)
    && b.entries == [] && b.tokenCounts == ZeroCounts && b.costUSD == 0.0 && b.models == []
    && b.actualEndTime.None?
    && b.durationMinutes > cfg.sessionHours * 60
  }

  /** Every gap sits between two session blocks, from the end of the earlier one's last record to the later one's start. */
  predicate GapsBetweenWindows(blocks: seq<SessionBlock>)
  {
    && (forall i :: 0 <= i < |blocks| && blocks[i].isGap ==>
          0 < i && !blocks[i - 1].isGap && blocks[i - 1].actualEndTime == Some(blocks[i].startTime))
    && (forall i :: 0 <= i < |blocks| - 1 && blocks[i].isGap ==>
          !blocks[i + 1].isGap && blocks[i].endTime == blocks[i + 1].startTime)
  }

  /** A closed block: a gap, or a finalised session block; not yet marked active. */
  predicate BlockOk(cfg: Config, b: SessionBlock)
  {
    !b.isActive && if b.isGap then GapOk(cfg, b) else WindowOk(cfg, b) && Finalized(b)
  }

  predicate ClosedBlocksOk(cfg: Config, blocks: seq<SessionBlock>)
  {
    (forall b :: b in blocks ==> BlockOk(cfg, b)) && GapsBetweenWindows(blocks)
  }

  /** What holds after every iteration of the loop. */
  predicate RunOk(cfg: Config, w: Windowing)
  {
    && ClosedBlocksOk(cfg, w.blocks)
    && (w.current.None? ==> w.blocks == [])
    && (w.current.Some? ==> WindowOk(cfg, w.current.value) && !w.current.value.isActive)
    && (w.blocks != [] && w.blocks[|w.blocks| - 1].isGap ==>
          w.current.Some? && w.blocks[|w.blocks| - 1].endTime == w.current.value.startTime)
  }

  /** The records held by the closed blocks and the open one. */
  function Held(w: Windowing): seq<UsageEntry>
  {
    Flatten(w.blocks) + (match w.current case Some(c) => c.entries case None => [])
  }

  lemma {:induction false} NewWindowOk(cfg: Config, e: UsageEntry)
    ensures var w := Open(cfg, [], e).current.value;
            WindowOk(cfg, w) && !w.isActive && w.entries == [e.(timestamp := w.startTime)]
  {
    var nb := NewBlock(cfg, e.timestamp);
    var e' := e.(timestamp := nb.startTime);
    var w := AddEntry(nb, e');
    AlignedStartOnResetHour(cfg, e.timestamp);
    assert w.entries == [e'];
    assert w.entries[..0] == [];
  }

  lemma {:induction false} AddEntryKeepsWindowOk(cfg: Config, b: SessionBlock, e: UsageEntry)
    requires WindowOk(cfg, b) && e.timestamp <= b.endTime
    ensures WindowOk(cfg, AddEntry(b, e))
  {
    var b' := AddEntry(b, e);
    assert b'.entries[..|b'.entries| - 1] == b.entries;
  }

  lemma {:induction false} FinalizeKeepsWindowOk(cfg: Config, b: SessionBlock, now: int)
    requires WindowOk(cfg, b)
    ensures WindowOk(cfg, Finalize(b, now)) && Finalized(Finalize(b, now))
  {
  }

  /** One iteration keeps the loop's invariant. */
  lemma {:induction false} StepOk(cfg: Config, now: int, w: Windowing, e: UsageEntry)
    requires RunOk(cfg, w)
    ensures RunOk(cfg, Step(cfg, now, w, e))
  {
    if w.current.None? {
      StepFirstOk(cfg, now, w, e);
    } else if e.timestamp > w.current.value.endTime {
      StepCloseOk(cfg, now, w, e);
    } else {
      StepJoinOk(cfg, now, w, e);
    }
  }

  lemma {:induction false} StepFirstOk(cfg: Config, now: int, w: Windowing, e: UsageEntry)
    requires RunOk(cfg, w) && w.current.None?
    ensures RunOk(cfg, Step(cfg, now, w, e))
  {
    NewWindowOk(cfg, e);
    assert Step(cfg, now, w, e) == Open(cfg, [], e);
  }

  lemma {:induction false} StepJoinOk(cfg: Config, now: int, w: Windowing, e: UsageEntry)
    requires RunOk(cfg, w) && w.current.Some? && e.timestamp <= w.current.value.endTime
    ensures RunOk(cfg, Step(cfg, now, w, e))
  {
    var cur := w.current.value;
    AddEntryKeepsWindowOk(cfg, cur, e);
    assert Step(cfg, now, w, e) == Windowing(w.blocks, Some(AddEntry(cur, e)));
  }

  /** The gaps a record after the open block's end emits: none, or one. */
  function Gaps(cfg: Config, cur: SessionBlock, e: UsageEntry): seq<SessionBlock>
  {
    var gapMinutes := MinutesBetween(e.timestamp, EndOr(cur.actualEndTime, cur.startTime));
    if gapMinutes > cfg.sessionHours * 60 then
      [GapBlock(EndOr(cur.actualEndTime, cur.endTime), e.timestamp).(endTime := AlignedStart(cfg, e.timestamp))]
    else []
  }

  lemma {:induction false} StepCloseOk(cfg: Config, now: int, w: Windowing, e: UsageEntry)
    requires RunOk(cfg, w) && w.current.Some? && e.timestamp > w.current.value.endTime
    ensures RunOk(cfg, Step(cfg, now, w, e))
  {
    var cur := w.current.value;
    var closed := Finalize(cur, now);
    var blocks := w.blocks + [closed] + Gaps(cfg, cur, e);
    FinalizeKeepsWindowOk(cfg, cur, now);
    GapsOk(cfg, now, cur, e);
    ClosedBlocksAppend(cfg, w.blocks, closed, Gaps(cfg, cur, e), AlignedStart(cfg, e.timestamp));
    StepCloses(cfg, now, w, e);
    OpenOk(cfg, blocks, e);
  }

  /** A record after the open block's end closes it, emits the gaps and opens a block for itself. */
  lemma {:induction false} StepCloses(cfg: Config, now: int, w: Windowing, e: UsageEntry)
    requires w.current.Some? && e.timestamp > w.current.value.endTime
    ensures Step(cfg, now, w, e) == Open(cfg, w.blocks + [Finalize(w.current.value, now)] + Gaps(cfg, w.current.value, e), e)
  {
  }

  /** A single record opens one block holding it, re-stamped to the block start. */
  lemma {:induction false} RunOne(cfg: Config, now: int, entries: seq<UsageEntry>)
    requires |entries| == 1
    ensures var w := Run(cfg, now, entries);
            var start := AlignedStart(cfg, entries[0].timestamp);
            && w.blocks == [] && w.current.Some? && !w.current.value.isGap
            && w.current.value.startTime == start
            && w.current.value.endTime == start + cfg.sessionHours * HOUR_MS
            && w.current.value.entries == [entries[0].(timestamp := start)]
            && w.current.value.actualEndTime == Some(start)
  {
    assert entries[..0] == [];
    assert Run(cfg, now, entries) == Open(cfg, [], entries[0]);
  }

  /** The pass over a prefix is one more step than the pass over the prefix one shorter. */
  lemma {:induction false} RunPrefix(cfg: Config, now: int, entries: seq<UsageEntry>, n: nat)
    requires 0 < n <= |entries|
    ensures Run(cfg, now, entries[..n]) == Step(cfg, now, Run(cfg, now, entries[..n - 1]), entries[n - 1])
  {
    assert entries[..n][..n - 1] == entries[..n - 1];
  }

  /** Joining the open block adds the record at its end and changes neither the block's span nor the closed blocks. */
  lemma {:induction false} JoinShape(cfg: Config, now: int, w: Windowing, e: UsageEntry)
    requires w.current.Some? && e.timestamp <= w.current.value.endTime
    ensures var w' := Step(cfg, now, w, e);
            && w'.blocks == w.blocks && w'.current.Some?
            && w'.current.value.isGap == w.current.value.isGap
            && w'.current.value.startTime == w.current.value.startTime
            && w'.current.value.endTime == w.current.value.endTime
            && w'.current.value.entries == w.current.value.entries + [e]
  {
    StepJoins(cfg, now, w, e);
  }

  /** The block opened for `e` holds `e` alone, re-stamped to the aligned start, and nothing else changes. */
  lemma {:induction false} OpenShape(cfg: Config, blocks: seq<SessionBlock>, e: UsageEntry)
    ensures var w := Open(cfg, blocks, e);
            var start := AlignedStart(cfg, e.timestamp);
            && w.blocks == blocks && w.current.Some? && !w.current.value.isGap
            && w.current.value.startTime == start
            && w.current.value.endTime == start + cfg.sessionHours * HOUR_MS
            && w.current.value.entries == [e.(timestamp := start)]
            && w.current.value.actualEndTime == Some(start)
  {
  }

  /** A record not after the open block's end joins it. */
  lemma {:induction false} StepJoins(cfg: Config, now: int, w: Windowing, e: UsageEntry)
    requires w.current.Some? && e.timestamp <= w.current.value.endTime
    ensures Step(cfg, now, w, e) == Windowing(w.blocks, Some(AddEntry(w.current.value, e)))
  {
  }

  /** The gap a record after the open block's end emits, if any, is well formed and fits between the blocks. */
  lemma {:induction false} GapsOk(cfg: Config, now: int, cur: SessionBlock, e: UsageEntry)
    requires WindowOk(cfg, cur) && e.timestamp > cur.endTime
    ensures var gaps := Gaps(cfg, cur, e);
      && |gaps| <= 1
      && (gaps != [] ==>
            && GapOk(cfg, gaps[0]) && !gaps[0].isActive
            && Finalize(cur, now).actualEndTime == Some(gaps[0].startTime)
            && gaps[0].endTime == AlignedStart(cfg, e.timestamp))
  {
  }

  /** Opening a block after well-formed closed blocks whose last gap, if any, ends where it starts keeps the invariant. */
  lemma {:induction false} OpenOk(cfg: Config, blocks: seq<SessionBlock>, e: UsageEntry)
    requires ClosedBlocksOk(cfg, blocks)
    requires blocks != [] && blocks[|blocks| - 1].isGap ==> blocks[|blocks| - 1].endTime == AlignedStart(cfg, e.timestamp)
    ensures RunOk(cfg, Open(cfg, blocks, e))
  {
    NewWindowOk(cfg, e);
  }

  /** One iteration loses no record and adds the new one, up to re-stamping. */
  lemma {:induction false} StepHeld(cfg: Config, now: int, w: Windowing, e: UsageEntry)
    ensures Erase(Held(Step(cfg, now, w, e))) == Erase(Held(w)) + Erase([e])
  {
    match w.current
    case None =>
      OpenHeld(cfg, w.blocks, e);
    case Some(cur) =>
      if e.timestamp > cur.endTime {
        var closed := Finalize(cur, now);
        var gaps := Gaps(cfg, cur, e);
        StepCloses(cfg, now, w, e);
        OpenHeld(cfg, w.blocks + [closed] + gaps, e);
        FlattenClose(w.blocks, closed, gaps);
        EraseAppend(Flatten(w.blocks), cur.entries);
      } else {
        assert Held(Step(cfg, now, w, e)) == (Flatten(w.blocks) + cur.entries) + [e];
        EraseAppend(Flatten(w.blocks) + cur.entries, [e]);
        EraseAppend(Flatten(w.blocks), cur.entries);
      }
  }

  /** A block opened for `e` holds `e` alone, re-stamped. */
  lemma {:induction false} OpenHeld(cfg: Config, blocks: seq<SessionBlock>, e: UsageEntry)
    ensures Erase(Held(Open(cfg, blocks, e))) == Erase(Flatten(blocks)) + Erase([e])
  {
    var nb := Open(cfg, blocks, e).current.value;
    assert nb.entries == [e.(timestamp := nb.startTime)];
    EraseAppend(Flatten(blocks), nb.entries);
    assert Erase(nb.entries) == Erase([e]);
  }

  /** Empty gaps after a closed block add no records. */
  lemma {:induction false} FlattenClose(blocks: seq<SessionBlock>, closed: SessionBlock, gaps: seq<SessionBlock>)
    requires |gaps| <= 1 && (gaps != [] ==> gaps[0].entries == [])
    ensures Flatten(blocks + [closed] + gaps) == Flatten(blocks) + closed.entries
  {
    FlattenAppend(blocks + [closed], gaps);
    FlattenAppend(blocks, [closed]);
    assert Flatten(gaps) == [] by {
      if gaps != [] {
        assert gaps[..0] == [];
      }
    }
    assert Flatten([closed]) == closed.entries by {
      assert [closed][..0] == [];
    }
  }

  /** Closing a block and perhaps emitting a gap keeps the closed-block invariant. */
  lemma {:induction false} ClosedBlocksAppend(cfg: Config, blocks: seq<SessionBlock>, closed: SessionBlock, gaps: seq<SessionBlock>, nextStart: int)
    requires ClosedBlocksOk(cfg, blocks)
    requires blocks != [] && blocks[|blocks| - 1].isGap ==> blocks[|blocks| - 1].endTime == closed.startTime
    requires WindowOk(cfg, closed) && Finalized(closed) && !closed.isActive
    requires |gaps| <= 1
    requires gaps != [] ==> GapOk(cfg, gaps[0]) && !gaps[0].isActive
                            && closed.actualEndTime == Some(gaps[0].startTime) && gaps[0].endTime == nextStart
    ensures ClosedBlocksOk(cfg, blocks + [closed] + gaps)
    ensures var r := blocks + [closed] + gaps; r[|r| - 1].isGap ==> r[|r| - 1].endTime == nextStart
  {
    GapsAppend(blocks, closed, gaps, nextStart);
    assert forall x :: x in [closed] ==> BlockOk(cfg, x);
    assert forall x :: x in gaps ==> BlockOk(cfg, x);
    BlocksOkAppend(cfg, blocks, [closed]);
    BlocksOkAppend(cfg, blocks + [closed], gaps);
  }

  lemma {:induction false} BlocksOkAppend(cfg: Config, a: seq<SessionBlock>, b: seq<SessionBlock>)
    requires forall x :: x in a ==> BlockOk(cfg, x)
    requires forall x :: x in b ==> BlockOk(cfg, x)
    ensures forall x :: x in a + b ==> BlockOk(cfg, x)
  {
  }

  /** A session block, then perhaps a gap after it, keeps every gap between two session blocks. */
  lemma {:induction false} GapsAppend(blocks: seq<SessionBlock>, closed: SessionBlock, gaps: seq<SessionBlock>, nextStart: int)
    requires GapsBetweenWindows(blocks)
    requires blocks != [] && blocks[|blocks| - 1].isGap ==> blocks[|blocks| - 1].endTime == closed.startTime
    requires !closed.isGap && |gaps| <= 1
    requires gaps != [] ==> gaps[0].isGap && closed.actualEndTime == Some(gaps[0].startTime) && gaps[0].endTime == nextStart
    ensures GapsBetweenWindows(blocks + [closed] + gaps)
    ensures var r := blocks + [closed] + gaps; r[|r| - 1].isGap ==> r[|r| - 1].endTime == nextStart
  {
    var r := blocks + [closed] + gaps;
    forall i | 0 <= i < |r| && r[i].isGap
      ensures 0 < i && !r[i - 1].isGap && r[i - 1].actualEndTime == Some(r[i].startTime)
    {
      if i < |blocks| {
        assert r[i] == blocks[i] && r[i - 1] == blocks[i - 1];
      }
    }
    forall i | 0 <= i < |r| - 1 && r[i].isGap
      ensures !r[i + 1].isGap && r[i].endTime == r[i + 1].startTime
    {
      if i < |blocks| - 1 {
        assert r[i] == blocks[i] && r[i + 1] == blocks[i + 1];
      }
    }
  }


  /** The loop invariant holds after every prefix of the records. */
  lemma {:induction false} RunOkAll(cfg: Config, now: int, entries: seq<UsageEntry>)
    ensures RunOk(cfg, Run(cfg, now, entries))
  {
    if entries != [] {
      var p := entries[..|entries| - 1];
      RunOkAll(cfg, now, p);
      StepOk(cfg, now, Run(cfg, now, p), entries[|entries| - 1]);
    }
  }

  /** The records held after the pass are the input records in input order, up to re-stamping. */
  lemma {:induction false} RunHeld(cfg: Config, now: int, entries: seq<UsageEntry>)
    ensures Erase(Held(Run(cfg, now, entries))) == Erase(entries)
  {
    if entries != [] {
      var p := entries[..|entries| - 1];
      var e := entries[|entries| - 1];
      assert entries == p + [e];
      RunHeld(cfg, now, p);
      RunLastHeld(cfg, now, entries);
      EraseAppend(p, [e]);
    }
  }

  lemma {:induction false} RunLastHeld(cfg: Config, now: int, entries: seq<UsageEntry>)
    requires entries != []
    ensures Erase(Held(Run(cfg, now, entries)))
         == Erase(Held(Run(cfg, now, entries[..|entries| - 1]))) + Erase([entries[|entries| - 1]])
  {
    StepHeld(cfg, now, Run(cfg, now, entries[..|entries| - 1]), entries[|entries| - 1]);
  }

  /** Only the first record finds no open block; after it there always is one. */
  lemma {:induction false} RunHasOpenBlock(cfg: Config, now: int, entries: seq<UsageEntry>)
    ensures Run(cfg, now, entries).current.Some? <==> entries != []
  {
  }

  // ------------------------------------------------------------ properties of the result

  lemma {:induction false} MarkActiveKeepsGaps(blocks: seq<SessionBlock>, now: int)
    requires GapsBetweenWindows(blocks)
    ensures GapsBetweenWindows(MarkActive(blocks, now))
  {
    var r := MarkActive(blocks, now);
    assert forall i :: 0 <= i < |r| ==> r[i].isGap == blocks[i].isGap && r[i].startTime == blocks[i].startTime
                                        && r[i].endTime == blocks[i].endTime && r[i].actualEndTime == blocks[i].actualEndTime;
  }

  /** The closed blocks before activity marking: well formed, gaps between session blocks, and never a gap last. */
  lemma {:induction false} CloseOk(cfg: Config, now: int, entries: seq<UsageEntry>)
    requires entries != []
    ensures ClosedBlocksOk(cfg, Close(Run(cfg, now, entries), now))
    ensures var c := Close(Run(cfg, now, entries), now); c != [] && !c[|c| - 1].isGap
  {
    RunOkAll(cfg, now, entries);
    RunHasOpenBlock(cfg, now, entries);
    CloseWindowingOk(cfg, now, Run(cfg, now, entries));
  }

  /** Closing the open block of a windowing that keeps the loop invariant gives well-formed blocks, the last a session block. */
  lemma {:induction false} CloseWindowingOk(cfg: Config, now: int, w: Windowing)
    requires RunOk(cfg, w) && w.current.Some?
    ensures ClosedBlocksOk(cfg, Close(w, now))
    ensures var c := Close(w, now); c != [] && !c[|c| - 1].isGap
  {
    var cur := w.current.value;
    assert Close(w, now) == w.blocks + [Finalize(cur, now)] + [];
    FinalizeKeepsWindowOk(cfg, cur, now);
    ClosedBlocksAppend(cfg, w.blocks, Finalize(cur, now), [], 0);
  }

  /**
   * Every session block of the result holds at least one record, the first stamped with the
   * block start; its end is `sessionHours` after a start on a whole local hour (a reset hour
   * when the reset hours are hours of a day); its `actualEndTime` is the last record's time and
   * its duration the minutes from the start to it; its counts, cost and models are those of its
   * records; and it is active exactly when it ends after `now`.
   */
  lemma {:induction false} PartitionWindows(cfg: Config, now: int, entries: seq<UsageEntry>)
    ensures var r := Partition(cfg, now, entries);
            forall i :: 0 <= i < |r| && !r[i].isGap ==>
              WindowOk(cfg, r[i]) && Finalized(r[i]) && r[i].isActive == (r[i].endTime > now)
  {
    if entries != [] {
      CloseOk(cfg, now, entries);
      var c := Close(Run(cfg, now, entries), now);
      var r := Partition(cfg, now, entries);
      forall i | 0 <= i < |r| && !r[i].isGap
        ensures WindowOk(cfg, r[i]) && Finalized(r[i]) && r[i].isActive == (r[i].endTime > now)
      {
        assert c[i] in c;
        assert r[i] == c[i].(isActive := r[i].isActive);
        MarkedWindowOk(cfg, c[i], r[i].isActive);
      }
    }
  }

  /** Setting the activity flag keeps a session block well formed and finalised. */
  lemma {:induction false} MarkedWindowOk(cfg: Config, b: SessionBlock, active: bool)
    requires WindowOk(cfg, b) && Finalized(b)
    ensures WindowOk(cfg, b.(isActive := active)) && Finalized(b.(isActive := active))
  {
    var b' := b.(isActive := active);
    assert b'.entries == b.entries;
  }

  /**
   * Every gap block of the result is empty, inactive and longer than a session, and sits
   * between two session blocks: from the earlier one's last record to the later one's start.
   */
  lemma {:induction false} PartitionGaps(cfg: Config, now: int, entries: seq<UsageEntry>)
    ensures var r := Partition(cfg, now, entries);
            && (forall i :: 0 <= i < |r| && r[i].isGap ==> GapOk(cfg, r[i]) && !r[i].isActive && i < |r| - 1)
            && GapsBetweenWindows(r)
  {
    if entries != [] {
      CloseOk(cfg, now, entries);
      var c := Close(Run(cfg, now, entries), now);
      var r := Partition(cfg, now, entries);
      MarkActiveKeepsGaps(c, now);
      forall i | 0 <= i < |r| && r[i].isGap
        ensures GapOk(cfg, r[i]) && !r[i].isActive && i < |r| - 1
      {
        assert c[i] in c;
        assert r[i] == c[i];
      }
    }
  }

  /** No records, no blocks; some records, some blocks. */
  lemma {:induction false} PartitionEmptyIff(cfg: Config, now: int, entries: seq<UsageEntry>)
    ensures Partition(cfg, now, entries) == [] <==> entries == []
  {
    if entries != [] {
      CloseOk(cfg, now, entries);
    }
  }

  /** The blocks hold exactly the input records, in input order, up to the re-stamped first records. */
  lemma {:induction false} PartitionKeepsRecords(cfg: Config, now: int, entries: seq<UsageEntry>)
    ensures Erase(Flatten(Partition(cfg, now, entries))) == Erase(entries)
  {
    if entries != [] {
      var w := Run(cfg, now, entries);
      RunHeld(cfg, now, entries);
      RunHasOpenBlock(cfg, now, entries);
      FlattenMarkActive(Close(w, now), now);
      FlattenAppend(w.blocks, [Finalize(w.current.value, now)]);
      assert [Finalize(w.current.value, now)][..0] == [];
    }
  }

  /** Counts, cost and models depend on the records only, never on their timestamps. */
  lemma {:induction false} SumsIgnoreTimestamps(a: seq<UsageEntry>, b: seq<UsageEntry>)
    requires Erase(a) == Erase(b)
    ensures SumCounts(a) == SumCounts(b) && SumCost(a) == SumCost(b) && DistinctModels(a) == DistinctModels(b)
  {
    if a != [] {
      assert a[|a| - 1].(timestamp := 0) == b[|b| - 1].(timestamp := 0);
      assert Erase(a[..|a| - 1]) == Erase(b[..|b| - 1]) by {
        assert forall i :: 0 <= i < |a| - 1 ==> Erase(a[..|a| - 1])[i] == Erase(a)[i];
        assert forall i :: 0 <= i < |b| - 1 ==> Erase(b[..|b| - 1])[i] == Erase(b)[i];
      }
      SumsIgnoreTimestamps(a[..|a| - 1], b[..|b| - 1]);
    }
  }

  // ------------------------------------------------------------ when blocks open and gaps appear

  /**
   * A record at or before the open block's end joins it and changes no closed block;
   * a record strictly after it never joins it.
   */
  lemma {:induction false} JoinRule(cfg: Config, now: int, s: seq<UsageEntry>, e: UsageEntry)
    requires s != []
    ensures var cur := Run(cfg, now, s).current.value;
            var next := Run(cfg, now, s + [e]);
            e.timestamp <= cur.endTime <==>
              next.blocks == Run(cfg, now, s).blocks && next.current.value.entries == cur.entries + [e]
  {
    RunHasOpenBlock(cfg, now, s);
    RunOkAll(cfg, now, s);
    assert (s + [e])[..|s|] == s;
    var cur := Run(cfg, now, s).current.value;
    var next := Run(cfg, now, s + [e]);
    if e.timestamp > cur.endTime {
      assert |next.current.value.entries| == 1;
    }
  }

  /**
   * A record strictly after the open block's end closes it, finalised, after the earlier
   * closed blocks, and opens a new block holding only that record, re-stamped to the new
   * start; a gap block follows the closed one exactly when the record's original time is
   * more than `sessionHours` hours of whole minutes after the closed block's last record.
   */
  lemma {:induction false} NewBlockRule(cfg: Config, now: int, s: seq<UsageEntry>, e: UsageEntry)
    requires s != []
    requires e.timestamp > Run(cfg, now, s).current.value.endTime
    ensures var w := Run(cfg, now, s);
            var cur := w.current.value;
            var next := Run(cfg, now, s + [e]);
            var start := AlignedStart(cfg, e.timestamp);
            && cur.actualEndTime.Some?
            && next.current.value.startTime == start
            && next.current.value.entries == [e.(timestamp := start)]
            && |w.blocks| < |next.blocks|
            && next.blocks[..|w.blocks| + 1] == w.blocks + [Finalize(cur, now)]
            && (|next.blocks| == |w.blocks| + 2 <==>
                  MinutesBetween(e.timestamp, cur.actualEndTime.value) > cfg.sessionHours * 60)
            && (|next.blocks| == |w.blocks| + 2 ==> next.blocks[|w.blocks| + 1].isGap)
  {
    RunHasOpenBlock(cfg, now, s);
    RunOkAll(cfg, now, s);
    assert (s + [e])[..|s|] == s;
    var w := Run(cfg, now, s);
    var cur := w.current.value;
    var next := Run(cfg, now, s + [e]);
    assert next.blocks == w.blocks + [Finalize(cur, now)] + Gaps(cfg, cur, e);
  }

  // ------------------------------------------------------------ one window, two windows

  predicate WithinFirstWindow(cfg: Config, entries: seq<UsageEntry>)
    requires entries != []
  {
    forall k :: 1 <= k < |entries| ==>
      entries[k].timestamp <= AlignedStart(cfg, entries[0].timestamp) + cfg.sessionHours * HOUR_MS
  }

  lemma {:induction false} SingleWindowRun(cfg: Config, now: int, entries: seq<UsageEntry>, n: nat)
    requires 0 < n <= |entries| && WithinFirstWindow(cfg, entries)
    ensures var w := Run(cfg, now, entries[..n]);
            var start := AlignedStart(cfg, entries[0].timestamp);
            && w.blocks == [] && w.current.Some? && !w.current.value.isGap
            && w.current.value.startTime == start
            && w.current.value.endTime == start + cfg.sessionHours * HOUR_MS
            && w.current.value.entries == [entries[0].(timestamp := start)] + entries[1..n]
  {
    if n == 1 {
      RunOne(cfg, now, entries[..1]);
    } else {
      assert entries[1..n] == entries[1..n - 1] + [entries[n - 1]];
      SingleWindowRun(cfg, now, entries, n - 1);
      var w := Run(cfg, now, entries[..n - 1]);
      RunPrefix(cfg, now, entries, n);
      JoinShape(cfg, now, w, entries[n - 1]);
    }
  }

  lemma {:induction false} SingleWindowShape(cfg: Config, now: int, entries: seq<UsageEntry>)
    requires entries != [] && WithinFirstWindow(cfg, entries)
    ensures |Partition(cfg, now, entries)| == 1
    ensures var b := Partition(cfg, now, entries)[0];
            var start := AlignedStart(cfg, entries[0].timestamp);
            && !b.isGap
            && b.startTime == start
            && b.entries == [entries[0].(timestamp := start)] + entries[1..]
            && b.isActive == (start + cfg.sessionHours * HOUR_MS > now)
  {
    SingleWindowRun(cfg, now, entries, |entries|);
    assert entries[..|entries|] == entries;
    var w := Run(cfg, now, entries);
    assert Close(w, now) == [Finalize(w.current.value, now)];
    assert entries[1..|entries|] == entries[1..];
  }

  /**
   * Records that all lie no later than the end of the block their first record opens make
   * exactly one block: it holds them all in order, and its counts, cost and models are
   * those of all the records.
   */
  lemma {:induction false} SingleWindow(cfg: Config, now: int, entries: seq<UsageEntry>)
    requires entries != [] && WithinFirstWindow(cfg, entries)
    ensures var r := Partition(cfg, now, entries);
            var start := AlignedStart(cfg, entries[0].timestamp);
            && |r| == 1 && !r[0].isGap
            && r[0].startTime == start
            && r[0].entries == [entries[0].(timestamp := start)] + entries[1..]
            && r[0].tokenCounts == SumCounts(entries)
            && r[0].costUSD == SumCost(entries)
            && r[0].models == DistinctModels(entries)
            && r[0].isActive == (start + cfg.sessionHours * HOUR_MS > now)
  {
    SingleWindowShape(cfg, now, entries);
    PartitionWindows(cfg, now, entries);
    BlockOfRecordsSums(cfg, Partition(cfg, now, entries)[0], entries, AlignedStart(cfg, entries[0].timestamp));
  }

  /** A session block holding the records, the first re-stamped, sums them all. */
  lemma {:induction false} BlockOfRecordsSums(cfg: Config, b: SessionBlock, entries: seq<UsageEntry>, start: int)
    requires WindowOk(cfg, b) && entries != [] && b.entries == [entries[0].(timestamp := start)] + entries[1..]
    ensures b.tokenCounts == SumCounts(entries) && b.costUSD == SumCost(entries) && b.models == DistinctModels(entries)
  {
    assert Erase(b.entries) == Erase(entries) by {
      assert forall i :: 0 <= i < |entries| ==> Erase(b.entries)[i] == Erase(entries)[i];
    }
    SumsIgnoreTimestamps(b.entries, entries);
  }

  /**
   * Two records, the second strictly after the end of the first one's block: two blocks,
   * with a gap between them exactly when the second record is more than a session's
   * minutes after the first block's start (where the re-stamped first record now sits).
   */
  lemma {:induction false} TwoWindows(cfg: Config, now: int, a: UsageEntry, b: UsageEntry)
    requires b.timestamp > AlignedStart(cfg, a.timestamp) + cfg.sessionHours * HOUR_MS
    ensures var r := Partition(cfg, now, [a, b]);
            var sa := AlignedStart(cfg, a.timestamp);
            var sb := AlignedStart(cfg, b.timestamp);
            var gap := MinutesBetween(b.timestamp, sa) > cfg.sessionHours * 60;
            && |r| == (if gap then 3 else 2)
            && !r[0].isGap && r[0].entries == [a.(timestamp := sa)]
            && !r[|r| - 1].isGap && r[|r| - 1].entries == [b.(timestamp := sb)]
            && (gap ==> r[1].isGap && r[1].startTime == sa && r[1].endTime == sb)
  {
    var sa := AlignedStart(cfg, a.timestamp);
    var w1 := Run(cfg, now, [a]);
    RunOne(cfg, now, [a]);
    assert [a, b][..1] == [a];
    RunPrefix(cfg, now, [a, b], 2);
    SecondRecordCloses(cfg, now, w1, a.(timestamp := sa), b);
  }

  /** A record after the end of a lone open block closes it: two blocks, or three with a gap between them. */
  lemma {:induction false} SecondRecordCloses(cfg: Config, now: int, w1: Windowing, first: UsageEntry, b: UsageEntry)
    requires w1.blocks == [] && w1.current.Some?
    requires var c1 := w1.current.value;
             c1.actualEndTime == Some(c1.startTime) && c1.entries == [first] && !c1.isGap && b.timestamp > c1.endTime
    ensures var c := Close(Step(cfg, now, w1, b), now);
            var sa := w1.current.value.startTime;
            var sb := AlignedStart(cfg, b.timestamp);
            var gap := MinutesBetween(b.timestamp, sa) > cfg.sessionHours * 60;
            && |c| == (if gap then 3 else 2)
            && !c[0].isGap && c[0].entries == [first]
            && !c[|c| - 1].isGap && c[|c| - 1].entries == [b.(timestamp := sb)]
            && (gap ==> c[1].isGap && c[1].startTime == sa && c[1].endTime == sb)
  {
    var c1 := w1.current.value;
    var sa, sb := c1.startTime, AlignedStart(cfg, b.timestamp);
    StepCloses(cfg, now, w1, b);
    var w2 := Step(cfg, now, w1, b);
    OpenShape(cfg, [Finalize(c1, now)] + Gaps(cfg, c1, b), b);
    var last := Finalize(w2.current.value, now);
    assert !last.isGap && last.entries == [b.(timestamp := sb)];
    assert Close(w2, now) == [Finalize(c1, now)] + Gaps(cfg, c1, b) + [last];
    if MinutesBetween(b.timestamp, sa) > cfg.sessionHours * 60 {
      var g := GapBlock(sa, b.timestamp).(endTime := sb);
      assert Gaps(cfg, c1, b) == [g];
      assert Close(w2, now) == [Finalize(c1, now), g, last];
    } else {
      assert Gaps(cfg, c1, b) == [];
      assert Close(w2, now) == [Finalize(c1, now), last];
    }
  }

  /** A record at 02:00 with the default reset hours opens a block at 23:00 of the same day, after the record. */
  lemma LateStartExample()
    ensures AlignedStart(Config(DEFAULT_SESSION_HOURS, DEFAULT_RESET_HOURS, 0), 1705284000000) == 1705359600000
  {
    assert LocalHour(1705284000000, 0) == 2;
    assert DEFAULT_RESET_HOURS == [4, 9, 14, 18, 23];
    assert LastAtOrBefore([4, 9, 14, 18, 23], 2) == None;
  }

  /** The gap example of the tests: records at 08:00 and 20:00 UTC make a block, a gap and a block. */
  lemma GapExample()
    ensures var cfg := Config(DEFAULT_SESSION_HOURS, DEFAULT_RESET_HOURS, 0);
            var a := UsageEntry(1705305600000, 100, 50, 0, 0, None, "claude-3-sonnet-20240229", None, None);
            var b := UsageEntry(1705348800000, 100, 50, 0, 0, None, "claude-3-sonnet-20240229", None, None);
            var r := Partition(cfg, 1705329000000, [a, b]);
            |r| == 3 && !r[0].isGap && r[1].isGap && !r[2].isGap
  {
    var cfg := Config(DEFAULT_SESSION_HOURS, DEFAULT_RESET_HOURS, 0);
    var a := UsageEntry(1705305600000, 100, 50, 0, 0, None, "claude-3-sonnet-20240229", None, None);
    var b := UsageEntry(1705348800000, 100, 50, 0, 0, None, "claude-3-sonnet-20240229", None, None);
    assert LocalHour(a.timestamp, 0) == 8;
    assert DEFAULT_RESET_HOURS == [4, 9, 14, 18, 23];
    assert LastAtOrBefore([4], 8) == Some(4);
    assert LastAtOrBefore([4, 9], 8) == Some(4) by { assert [4, 9][..1] == [4]; }
    assert LastAtOrBefore([4, 9, 14], 8) == Some(4) by { assert [4, 9, 14][..2] == [4, 9]; }
    assert LastAtOrBefore([4, 9, 14, 18], 8) == Some(4) by { assert [4, 9, 14, 18][..3] == [4, 9, 14]; }
    assert LastAtOrBefore([4, 9, 14, 18, 23], 8) == Some(4) by { assert [4, 9, 14, 18, 23][..4] == [4, 9, 14, 18]; }
    assert AlignedStart(cfg, a.timestamp) == 1705291200000;
    TwoWindows(cfg, 1705329000000, a, b);
  }

  // ------------------------------------------------------------ the imperative pass

  /** The block object the pass keeps as `currentBlock` and updates in place. */
  class OpenBlock {
    var id: string
    var startTime: int
    var endTime: int
    var actualEndTime: Option<int>
    var isActive: bool
    var isGap: bool
    var entries: seq<UsageEntry>
    var tokenCounts: TokenCounts
    var costUSD: real
    var models: seq<string>
    var durationMinutes: int

    /** A block object with the fields of `b`, as an object literal builds it. */
    constructor(b: SessionBlock)
      ensures Value() == b
    {
      id, startTime, endTime, actualEndTime := b.id, b.startTime, b.endTime, b.actualEndTime;
      isActive, isGap, entries, tokenCounts := b.isActive, b.isGap, b.entries, b.tokenCounts;
      costUSD, models, durationMinutes := b.costUSD, b.models, b.durationMinutes;
    }

    /** The fields as a block value. */
    function Value(): SessionBlock
      reads this
    {
      SessionBlock(id, startTime, endTime, actualEndTime, isActive, isGap, entries, tokenCounts,
                   costUSD, models, durationMinutes)
    }
  }

  class SessionIdentifier {
    const sessionHours: nat
    const resetHours: ResetHours
    const utcOffsetMs: int

    /** `new SessionIdentifier(sessionHours, resetHours)`, for a local zone `utcOffsetMs` from UTC. */
    constructor(sessionHours: nat, resetHours: ResetHours, utcOffsetMs: int)
      ensures Settings() == Config(sessionHours, resetHours, utcOffsetMs)
    {
      this.sessionHours := sessionHours;
      this.resetHours := resetHours;
      this.utcOffsetMs := utcOffsetMs;
    }

    /** `new SessionIdentifier()`: 5-hour sessions, reset hours 4, 9, 14, 18 and 23. */
    constructor Default(utcOffsetMs: int)
      ensures Settings() == Config(DEFAULT_SESSION_HOURS, DEFAULT_RESET_HOURS, utcOffsetMs)
    {
      sessionHours := DEFAULT_SESSION_HOURS;
      resetHours := DEFAULT_RESET_HOURS;
      this.utcOffsetMs := utcOffsetMs;
    }

    function Settings(): Config
    {
      Config(sessionHours, resetHours, utcOffsetMs)
    }

    /** `createSessionBlocks(entries)` with the clock reading `now`. */
    method CreateSessionBlocks(entries: seq<UsageEntry>, now: int) returns (blocks: seq<SessionBlock>)
      ensures blocks == Partition(Settings(), now, entries)
    {
      if |entries| == 0 {
        return [];
      }
      blocks := [];
      var currentBlock: OpenBlock? := null;
      for i := 0 to |entries|
        invariant currentBlock != null ==> fresh(currentBlock)
        invariant Run(Settings(), now, entries[..i])
                  == Windowing(blocks, if currentBlock == null then None else Some(currentBlock.Value()))
      {
        var entry := entries[i];
        ghost var w := Run(Settings(), now, entries[..i]);
        RunPrefix(Settings(), now, entries, i + 1);
        if currentBlock == null || ShouldStartNewBlock(currentBlock, entry) {
          var gap: Option<SessionBlock> := None;
          if currentBlock != null {
            StepCloses(Settings(), now, w, entry);
            FinalizeBlock(currentBlock, now);
            blocks := blocks + [currentBlock.Value()];
            var gapMinutes := MinutesBetween(entry.timestamp, EndOr(currentBlock.actualEndTime, currentBlock.startTime));
            if gapMinutes > sessionHours * 60 {
              gap := Some(GapBlock(EndOr(currentBlock.actualEndTime, currentBlock.endTime), entry.timestamp));
            }
          }
          currentBlock, entry := CreateNewBlock(entry);
          if gap.Some? {
            // the gap ends at the record's own Date, which the alignment has just moved to the block start
            blocks := blocks + [gap.value.(endTime := entry.timestamp)];
          }
        } else {
          StepJoins(Settings(), now, w, entry);
        }
        AddEntryToBlock(currentBlock, entry);
      }
      assert entries[..|entries|] == entries;
      if currentBlock != null {
        FinalizeBlock(currentBlock, now);
        blocks := blocks + [currentBlock.Value()];
      }
      blocks := MarkActive(blocks, now);
    }

    /** `shouldStartNewBlock`: the record is strictly after the block's end. */
    predicate ShouldStartNewBlock(block: OpenBlock, entry: UsageEntry)
      reads block
    {
      entry.timestamp > block.endTime
    }

    /** `createNewBlock`: a fresh empty block from the aligned start, and the record as the alignment leaves it. */
    method CreateNewBlock(entry: UsageEntry) returns (block: OpenBlock, stamped: UsageEntry)
      ensures fresh(block)
      ensures block.Value() == NewBlock(Settings(), entry.timestamp)
      ensures stamped == entry.(timestamp := block.startTime)
    {
      var startTime;
      startTime, stamped := AlignToResetHour(entry);
      var endTime := startTime + sessionHours * HOUR_MS;
      block := new OpenBlock(SessionBlock("session_" + IntToString(startTime), startTime, endTime, None,
                                          false, false, [], ZeroCounts, 0.0, [], 0));
    }

    /**
     * `alignToResetHour`: the block start for a record, and the record after `setHours`
     * has moved its own Date to that start.
     */
    method AlignToResetHour(entry: UsageEntry) returns (start: int, stamped: UsageEntry)
      ensures start == AlignedStart(Settings(), entry.timestamp)
      ensures stamped == entry.(timestamp := start)
    {
      var hour := LocalHour(entry.timestamp, utcOffsetMs);
      var alignedHour := AlignedHour(Settings(), hour);
      start := SetHours(entry.timestamp, alignedHour, utcOffsetMs);
      stamped := entry.(timestamp := start);
    }

    /** `addEntryToBlock`. */
    method AddEntryToBlock(block: OpenBlock, entry: UsageEntry)
      modifies block
      ensures block.Value() == AddEntry(old(block.Value()), entry)
    {
      block.entries := block.entries + [entry];
      block.tokenCounts := TokenCounts(block.tokenCounts.inputTokens + entry.inputTokens,
                                       block.tokenCounts.outputTokens + entry.outputTokens,
                                       block.tokenCounts.cacheCreationTokens + entry.cacheCreationTokens,
                                       block.tokenCounts.cacheReadTokens + entry.cacheReadTokens);
      if TruthyNumber(entry.costUSD) {
        block.costUSD := block.costUSD + entry.costUSD.value;
      }
      if entry.model != "" && entry.model !in block.models {
        block.models := block.models + [entry.model];
      }
      block.actualEndTime := Some(entry.timestamp);
    }

    /** `finalizeBlock`. */
    method FinalizeBlock(block: OpenBlock, now: int)
      modifies block
      ensures block.Value() == Finalize(old(block.Value()), now)
    {
      if block.actualEndTime.Some? {
        block.durationMinutes := MinutesBetween(block.actualEndTime.value, block.startTime);
      } else {
        block.durationMinutes := MinutesBetween(now, block.startTime);
      }
    }
  }
}
