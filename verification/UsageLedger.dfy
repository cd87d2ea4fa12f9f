/**
  Cumulative snapshots and absolute daily replacements on the usage tables,
  specified by what the accepted writes say when they are read back as a history.
*/
module UsageLedger {
  import opened Prelude
  import opened Schema
  import opened UsageCounters

  /** An accepted write. */
  datatype UsageOp =
    | Snap(series: SeriesKey, at: Time, counters: Counters)
    | Absolute(date: Date, account: AccountId, provider: string, readings: map<string, Counters>)

  datatype Reading = Reading(model: string, counters: Counters)

  datatype SnapshotResult = SnapshotResult(baselineCreated: bool, counterReset: bool, delta: Counters)

  datatype UsageError = Invalid | NoAccount | ProviderMismatch | OutOfOrder | SqlError

  /** The UTC day of a capture time. */
  function DayOf(t: Time): (d: Date)
    ensures d * DAY <= t < (d + 1) * DAY
  {
    t / DAY
  }

  // ----- the history read back -----

  /** An absolute write discards the baselines of its account and provider. */
  predicate Discards(op: UsageOp, series: SeriesKey) {
    op.Absolute? && op.account == series.account && op.provider == series.provider
  }

  /** The latest snapshot of a series, unless an absolute write came after it. */
  function Baseline(h: seq<UsageOp>, series: SeriesKey): Option<Snapshot> {
    if h == [] then None else
      var op := h[|h| - 1];
      if op.Snap? && op.series == series then Some(Snapshot(op.counters, op.at))
      else if Discards(op, series) then None
      else Baseline(h[..|h| - 1], series)
  }

  /** The usage one snapshot adds: its growth over the baseline, nothing without one or after a rollback. */
  function Growth(base: Option<Snapshot>, counters: Counters): Counters {
    if base.None? || RolledBack(base.value.counters, counters) then ZERO
    else Subtract(counters, base.value.counters)
  }

  function DeltaAt(h: seq<UsageOp>, i: nat): Counters
    requires i < |h| && h[i].Snap?
  {
    Growth(Baseline(h[..i], h[i].series), h[i].counters)
  }

  function SeriesOf(row: DailyKey): SeriesKey {
    SeriesKey(row.account, row.provider, row.model)
  }

  predicate CountsFor(op: UsageOp, row: DailyKey) {
    op.Snap? && op.series == SeriesOf(row) && DayOf(op.at) == row.date
  }

  predicate Replaces(op: UsageOp, row: DailyKey) {
    op.Absolute? && op.date == row.date && op.account == row.account && op.provider == row.provider
  }

  /** The number of writes up to and including the last absolute one for a row. */
  function Since(h: seq<UsageOp>, row: DailyKey): nat
    ensures Since(h, row) <= |h|
  {
    if h == [] then 0
    else if Replaces(h[|h| - 1], row) then |h|
    else Since(h[..|h| - 1], row)
  }

  /** The reading of the last absolute write for a row. */
  function AbsoluteReading(h: seq<UsageOp>, row: DailyKey): Option<Counters> {
    if h == [] then None else
      var op := h[|h| - 1];
      if Replaces(op, row) then (if row.model in op.readings then Some(op.readings[row.model]) else None)
      else AbsoluteReading(h[..|h| - 1], row)
  }

  /** The deltas of the snapshots that count for a row, from one position of the history on. */
  function DeltasFrom(h: seq<UsageOp>, from: nat, row: DailyKey): Counters {
    if |h| <= from then ZERO
    else if CountsFor(h[|h| - 1], row) then Add(DeltasFrom(h[..|h| - 1], from, row), DeltaAt(h, |h| - 1))
    else DeltasFrom(h[..|h| - 1], from, row)
  }

  /** A write of the history that added usage to a row. */
  ghost predicate Contributes(h: seq<UsageOp>, i: nat, row: DailyKey) {
    i < |h| && CountsFor(h[i], row) && DeltaAt(h, i) != ZERO
  }

  /** The row is stored when the last absolute write has it or some usage was counted since. */
  ghost predicate Stored(h: seq<UsageOp>, row: DailyKey) {
    AbsoluteReading(h, row).Some? || exists i: nat :: Since(h, row) <= i && Contributes(h, i, row)
  }

  function ValueOr(o: Option<Counters>): Counters {
    if o.Some? then o.value else ZERO
  }

  /** The latest absolute reading plus the deltas counted since. */
  function RowValue(h: seq<UsageOp>, row: DailyKey): Counters {
    Add(ValueOr(AbsoluteReading(h, row)), DeltasFrom(h, Since(h, row), row))
  }

  // ----- one more write -----

  lemma Extended(h: seq<UsageOp>, op: UsageOp)
    ensures (h + [op])[..|h|] == h && (h + [op])[|h|] == op
    ensures forall i :: 0 <= i < |h| ==> (h + [op])[..i] == h[..i] && (h + [op])[i] == h[i]
  {
  }

  lemma {:induction false} DeltaOfLast(h: seq<UsageOp>, op: UsageOp)
    requires op.Snap?
    ensures DeltaAt(h + [op], |h|) == Growth(Baseline(h, op.series), op.counters)
  {
    Extended(h, op);
  }

  lemma {:induction false} ContributesInPrefix(h: seq<UsageOp>, op: UsageOp, i: nat, row: DailyKey)
    requires i < |h|
    ensures Contributes(h + [op], i, row) <==> Contributes(h, i, row)
  {
    Extended(h, op);
  }

  lemma {:induction false} StoredAfterUncounted(h: seq<UsageOp>, op: UsageOp, row: DailyKey)
    requires !Replaces(op, row) && !Contributes(h + [op], |h|, row)
    ensures Stored(h + [op], row) <==> Stored(h, row)
  {
    hide Contributes, Since, AbsoluteReading;
    var g := h + [op];
    ReplacementAfter(h, op, row);
    forall i: nat | i < |h| ensures Contributes(g, i, row) <==> Contributes(h, i, row) {
      ContributesInPrefix(h, op, i, row);
    }
    forall i: nat ensures Contributes(g, i, row) ==> i < |h| && Contributes(h, i, row) {
      ContributesInRange(g, i, row);
    }
    forall i: nat ensures Contributes(h, i, row) ==> Contributes(g, i, row) {
      ContributesInRange(h, i, row);
    }
  }

  lemma ContributesInRange(h: seq<UsageOp>, i: nat, row: DailyKey)
    ensures Contributes(h, i, row) ==> i < |h|
  {
  }

  lemma {:induction false} DeltasAfter(h: seq<UsageOp>, op: UsageOp, from: nat, row: DailyKey)
    requires from <= |h|
    ensures DeltasFrom(h + [op], from, row) ==
            if CountsFor(op, row) then Add(DeltasFrom(h, from, row), DeltaAt(h + [op], |h|)) else DeltasFrom(h, from, row)
  {
    hide DeltaAt;
    var g := h + [op];
    assert g[..|g| - 1] == h && g[|g| - 1] == op;
  }

  lemma {:induction false} ReplacementAfter(h: seq<UsageOp>, op: UsageOp, row: DailyKey)
    ensures Since(h + [op], row) == if Replaces(op, row) then |h| + 1 else Since(h, row)
    ensures AbsoluteReading(h + [op], row) ==
            if Replaces(op, row) then (if row.model in op.readings then Some(op.readings[row.model]) else None)
            else AbsoluteReading(h, row)
  {
    var g := h + [op];
    assert g[..|g| - 1] == h && g[|g| - 1] == op;
  }

  lemma {:induction false} RowAfterUncounted(h: seq<UsageOp>, op: UsageOp, row: DailyKey)
    requires !Replaces(op, row) && !(CountsFor(op, row) && DeltaAt(h + [op], |h|) != ZERO)
    ensures RowValue(h + [op], row) == RowValue(h, row) && (Stored(h + [op], row) <==> Stored(h, row))
  {
    hide Stored, DeltaAt, DeltasFrom, Since, AbsoluteReading;
    ReplacementAfter(h, op, row);
    DeltasAfter(h, op, Since(h, row), row);
    StoredAfterUncounted(h, op, row);
  }

  lemma {:induction false} RowAfterCounted(h: seq<UsageOp>, op: UsageOp, row: DailyKey)
    requires CountsFor(op, row)
    ensures RowValue(h + [op], row) == Add(RowValue(h, row), DeltaAt(h + [op], |h|))
    ensures DeltaAt(h + [op], |h|) != ZERO ==> Stored(h + [op], row)
  {
    hide DeltaAt, DeltasFrom, Since, AbsoluteReading;
    ReplacementAfter(h, op, row);
    DeltasAfter(h, op, Since(h, row), row);
    if DeltaAt(h + [op], |h|) != ZERO {
      assert Contributes(h + [op], |h|, row);
    }
  }

  lemma {:induction false} UnstoredIsZero(h: seq<UsageOp>, row: DailyKey)
    requires !Stored(h, row)
    ensures RowValue(h, row) == ZERO
  {
    hide Contributes;
    assert AbsoluteReading(h, row).None?;
    UncountedIsZero(h, Since(h, row), row);
    assert DeltasFrom(h, Since(h, row), row) == ZERO;
  }

  lemma {:induction false} UncountedIsZero(h: seq<UsageOp>, from: nat, row: DailyKey)
    requires forall i: nat :: from <= i ==> !Contributes(h, i, row)
    ensures DeltasFrom(h, from, row) == ZERO
  {
    if |h| > from {
      var before := h[..|h| - 1];
      forall i: nat | from <= i ensures !Contributes(before, i, row) {
        if i < |before| { assert before[..i] == h[..i]; }
        assert !Contributes(h, i, row);
      }
      assert !Contributes(h, |h| - 1, row);
      UncountedIsZero(before, from, row);
    }
  }

  lemma {:induction false} RowAfterReplaced(h: seq<UsageOp>, op: UsageOp, row: DailyKey)
    requires Replaces(op, row)
    ensures Stored(h + [op], row) <==> row.model in op.readings
    ensures row.model in op.readings ==> RowValue(h + [op], row) == op.readings[row.model]
  {
    hide DeltaAt, Since, AbsoluteReading;
    ReplacementAfter(h, op, row);
  }

  // ----- what the ledger means -----

  /** Growth of one series over a stretch of the history, over all days. */
  function SeriesGrowth(h: seq<UsageOp>, from: nat, series: SeriesKey): Counters {
    if |h| <= from then ZERO else
      var before := SeriesGrowth(h[..|h| - 1], from, series);
      if h[|h| - 1].Snap? && h[|h| - 1].series == series then Add(before, DeltaAt(h, |h| - 1)) else before
  }

  /** No snapshot of the series rolls back and no absolute write interrupts it after a position. */
  ghost predicate Uninterrupted(h: seq<UsageOp>, from: nat, series: SeriesKey) {
    forall i :: from <= i < |h| ==>
      && !Discards(h[i], series)
      && (h[i].Snap? && h[i].series == series && Baseline(h[..i], series).Some? ==>
            !RolledBack(Baseline(h[..i], series).value.counters, h[i].counters))
  }

  /** Between two snapshots without a rollback the counted usage is exactly the last reading minus the first. */
  lemma {:induction false} GrowthTelescopes(h: seq<UsageOp>, first: nat, series: SeriesKey)
    requires first < |h| && h[first].Snap? && h[first].series == series
    requires Uninterrupted(h, first + 1, series)
    ensures Baseline(h, series).Some?
    ensures SeriesGrowth(h, first + 1, series) == Subtract(Baseline(h, series).value.counters, h[first].counters)
  {
    if |h| > first + 1 {
      var before := h[..|h| - 1];
      forall i | first + 1 <= i < |before|
        ensures !Discards(before[i], series)
        ensures before[i].Snap? && before[i].series == series && Baseline(before[..i], series).Some? ==>
                  !RolledBack(Baseline(before[..i], series).value.counters, before[i].counters)
      {
        assert before[..i] == h[..i] && before[i] == h[i];
      }
      GrowthTelescopes(before, first, series);
      assert !Discards(h[|h| - 1], series);
    }
  }

  /** When all its snapshots of a stretch fall on one day, the row of that day holds all of their growth. */
  lemma {:induction false} OneDayHoldsTheGrowth(h: seq<UsageOp>, from: nat, row: DailyKey)
    requires forall i :: from <= i < |h| && h[i].Snap? && h[i].series == SeriesOf(row) ==> DayOf(h[i].at) == row.date
    ensures DeltasFrom(h, from, row) == SeriesGrowth(h, from, SeriesOf(row))
  {
    if |h| > from {
      OneDayHoldsTheGrowth(h[..|h| - 1], from, row);
    }
  }

  /**
    A day that starts with an absolute write and continues with cumulative
    snapshots ends at the absolute reading plus last minus first snapshot: the
    first snapshot after the absolute write adds nothing.
  */
  lemma {:induction false} DayAfterAbsolute(h: seq<UsageOp>, first: nat, row: DailyKey)
    requires Since(h, row) <= first < |h| && h[first].Snap? && h[first].series == SeriesOf(row)
    requires forall i :: Since(h, row) <= i < first ==> !(h[i].Snap? && h[i].series == SeriesOf(row))
    requires Since(h, row) > 0 && Uninterrupted(h, first + 1, SeriesOf(row))
    requires forall i :: first < i < |h| && h[i].Snap? && h[i].series == SeriesOf(row) ==> DayOf(h[i].at) == row.date
    ensures Baseline(h, SeriesOf(row)).Some?
    ensures RowValue(h, row) ==
            Add(ValueOr(AbsoluteReading(h, row)), Subtract(Baseline(h, SeriesOf(row)).value.counters, h[first].counters))
  {
    var series := SeriesOf(row);
    SinceIsReplacement(h, row);
    NoBaselineAfterDiscard(h[..first], Since(h, row), series);
    GrowthTelescopes(h, first, series);
    OneDayHoldsTheGrowth(h, first + 1, row);
    DeltasSplit(h, Since(h, row), first, row);
  }

  lemma {:induction false} SinceIsReplacement(h: seq<UsageOp>, row: DailyKey)
    ensures Since(h, row) > 0 ==> Replaces(h[Since(h, row) - 1], row)
  {
    if h != [] && !Replaces(h[|h| - 1], row) {
      SinceIsReplacement(h[..|h| - 1], row);
    }
  }

  lemma {:induction false} NoBaselineAfterDiscard(h: seq<UsageOp>, since: nat, series: SeriesKey)
    requires 0 < since <= |h| && Discards(h[since - 1], series)
    requires forall i :: since <= i < |h| ==> !(h[i].Snap? && h[i].series == series)
    ensures Baseline(h, series).None?
  {
    if |h| > since {
      NoBaselineAfterDiscard(h[..|h| - 1], since, series);
    }
  }

  lemma {:induction false} NothingToCount(h: seq<UsageOp>, from: nat, row: DailyKey)
    requires forall i :: from <= i < |h| ==> !(h[i].Snap? && h[i].series == SeriesOf(row))
    ensures DeltasFrom(h, from, row) == ZERO
  {
    if |h| > from {
      NothingToCount(h[..|h| - 1], from, row);
    }
  }

  /** Snapshots before the first one that follows add nothing, and that one adds nothing either. */
  lemma {:induction false} DeltasSplit(h: seq<UsageOp>, from: nat, first: nat, row: DailyKey)
    requires from <= first < |h| && h[first].Snap? && h[first].series == SeriesOf(row)
    requires forall i :: from <= i < first ==> !(h[i].Snap? && h[i].series == SeriesOf(row))
    requires Baseline(h[..first], SeriesOf(row)).None?
    ensures DeltasFrom(h, from, row) == DeltasFrom(h, first + 1, row)
  {
    var before := h[..|h| - 1];
    if |h| == first + 1 {
      assert before == h[..first] && DeltaAt(h, first) == ZERO;
      NothingToCount(before, from, row);
      assert DeltasFrom(h, first + 1, row) == ZERO;
    } else {
      assert before[..first] == h[..first] && before[first] == h[first];
      assert forall i :: from <= i < first ==> before[i] == h[i];
      DeltasSplit(before, from, first, row);
    }
  }

  // ----- usage without counting deltas -----

  /**
    The readings of a series from a position of the history on, cut where usage
    cannot be measured: an absolute write closes a stretch, and a reading with a
    counter that went down starts a new one.
  */
  function Stretches(h: seq<UsageOp>, from: nat, series: SeriesKey): (r: seq<seq<Snapshot>>)
    ensures |r| > 0
  {
    if |h| <= from then [[]] else
      var op := h[|h| - 1];
      var before := Stretches(h[..|h| - 1], from, series);
      if op.Snap? && op.series == series then WithReading(before, Snapshot(op.counters, op.at))
      else if Discards(op, series) then before + [[]]
      else before
  }

  /** A reading joins the last stretch unless one of its counters went down. */
  function WithReading(stretches: seq<seq<Snapshot>>, reading: Snapshot): (r: seq<seq<Snapshot>>)
    requires |stretches| > 0
    ensures |r| > 0
  {
    var open := stretches[|stretches| - 1];
    if open == [] || AtMost(open[|open| - 1].counters, reading.counters)
    then stretches[..|stretches| - 1] + [open + [reading]]
    else stretches + [[reading]]
  }

  /** Last minus first reading. */
  function Gain(stretch: seq<Snapshot>): Counters {
    if stretch == [] then ZERO else Subtract(stretch[|stretch| - 1].counters, stretch[0].counters)
  }

  /** What the readings taken on one day added to the reading before them. */
  function GainOn(stretch: seq<Snapshot>, date: Date): Counters {
    if |stretch| <= 1 then ZERO else
      var last, previous := stretch[|stretch| - 1], stretch[|stretch| - 2];
      var before := GainOn(stretch[..|stretch| - 1], date);
      if DayOf(last.capturedAt) == date then Add(before, Subtract(last.counters, previous.counters)) else before
  }

  function Gains(stretches: seq<seq<Snapshot>>): Counters {
    if stretches == [] then ZERO else Add(Gains(stretches[..|stretches| - 1]), Gain(stretches[|stretches| - 1]))
  }

  function GainsOn(stretches: seq<seq<Snapshot>>, date: Date): Counters {
    if stretches == [] then ZERO else
      Add(GainsOn(stretches[..|stretches| - 1], date), GainOn(stretches[|stretches| - 1], date))
  }

  lemma {:induction false} GainsEnd(before: seq<seq<Snapshot>>, last: seq<Snapshot>, date: Date)
    ensures Gains(before + [last]) == Add(Gains(before), Gain(last))
    ensures GainsOn(before + [last], date) == Add(GainsOn(before, date), GainOn(last, date))
  {
    assert (before + [last])[..|before|] == before;
  }

  lemma {:induction false} GainsGrow(stretches: seq<seq<Snapshot>>, reading: Snapshot, date: Date)
    requires stretches != []
    ensures var open := stretches[|stretches| - 1];
            var longer := stretches[..|stretches| - 1] + [open + [reading]];
            var step := if open == [] then ZERO else Subtract(reading.counters, open[|open| - 1].counters);
            && Gains(longer) == Add(Gains(stretches), step)
            && GainsOn(longer, date) == Add(GainsOn(stretches, date), if DayOf(reading.capturedAt) == date then step else ZERO)
  {
    hide Gains, GainsOn;
    var before, open := stretches[..|stretches| - 1], stretches[|stretches| - 1];
    assert stretches == before + [open];
    GainsEnd(before, open, date);
    GainsEnd(before, open + [reading], date);
    assert (open + [reading])[..|open|] == open;
  }

  lemma {:induction false} GainsReopen(stretches: seq<seq<Snapshot>>, date: Date)
    ensures forall r: seq<Snapshot> :: |r| <= 1 ==> Gains(stretches + [r]) == Gains(stretches) && GainsOn(stretches + [r], date) == GainsOn(stretches, date)
  {
    hide Gains, GainsOn, Add;
    forall r: seq<Snapshot> | |r| <= 1
      ensures Gains(stretches + [r]) == Gains(stretches) && GainsOn(stretches + [r], date) == GainsOn(stretches, date)
    {
      GainsEnd(stretches, r, date);
      AddZero(Gains(stretches));
      AddZero(GainsOn(stretches, date));
    }
  }

  /** The baseline is the last reading of the open stretch. */
  lemma {:induction false} BaselineIsOpen(h: seq<UsageOp>, from: nat, series: SeriesKey)
    requires from <= |h| && Baseline(h[..from], series).None?
    ensures var stretches := Stretches(h, from, series);
            var open := stretches[|stretches| - 1];
            Baseline(h, series) == if open == [] then None else Some(open[|open| - 1])
  {
    if |h| == from {
      assert h[..from] == h;
    } else {
      var before := h[..|h| - 1];
      assert before[..from] == h[..from];
      BaselineIsOpen(before, from, series);
    }
  }

  /**
    Over any part of a history that starts without a baseline the counted usage
    of a series is the sum of last minus first reading over its stretches, and
    the part counted for one day is what the readings of that day added.
  */
  lemma {:induction false} UsageIsTheGainOfStretches(h: seq<UsageOp>, from: nat, row: DailyKey)
    requires from <= |h| && Baseline(h[..from], SeriesOf(row)).None?
    ensures SeriesGrowth(h, from, SeriesOf(row)) == Gains(Stretches(h, from, SeriesOf(row)))
    ensures DeltasFrom(h, from, row) == GainsOn(Stretches(h, from, SeriesOf(row)), row.date)
  {
    hide Gains, GainsOn, Baseline, Stretches, SeriesGrowth, DeltasFrom, Growth, WithReading;
    var series := SeriesOf(row);
    LastStretch(h, from, series);
    LastDelta(h, from, row);
    if |h| == from {
      OneEmptyStretch(row.date);
    } else {
      var before, op := h[..|h| - 1], h[|h| - 1];
      assert before[..from] == h[..from];
      UsageIsTheGainOfStretches(before, from, row);
      BaselineIsOpen(before, from, series);
      var stretches := Stretches(before, from, series);
      if op.Snap? && op.series == series {
        ReadingExtendsGains(stretches, Baseline(before, series), Snapshot(op.counters, op.at), row.date);
      } else {
        GainsReopen(stretches, row.date);
      }
    }
  }

  lemma LastStretch(h: seq<UsageOp>, from: nat, series: SeriesKey)
    ensures |h| <= from ==> Stretches(h, from, series) == [[]]
    ensures |h| > from ==>
              var before := Stretches(h[..|h| - 1], from, series);
              var op := h[|h| - 1];
              Stretches(h, from, series) ==
              if op.Snap? && op.series == series then WithReading(before, Snapshot(op.counters, op.at))
              else if Discards(op, series) then before + [[]] else before
  {
  }

  lemma LastDelta(h: seq<UsageOp>, from: nat, row: DailyKey)
    ensures |h| <= from ==> SeriesGrowth(h, from, SeriesOf(row)) == ZERO == DeltasFrom(h, from, row)
    ensures |h| > from ==>
              var before := h[..|h| - 1];
              var op := h[|h| - 1];
              var ours := op.Snap? && op.series == SeriesOf(row);
              var delta := if ours then Growth(Baseline(before, SeriesOf(row)), op.counters) else ZERO;
              && SeriesGrowth(h, from, SeriesOf(row)) == Add(SeriesGrowth(before, from, SeriesOf(row)), delta)
              && DeltasFrom(h, from, row) ==
                 Add(DeltasFrom(before, from, row), if ours && DayOf(op.at) == row.date then delta else ZERO)
  {
    hide Baseline, Growth, Add;
    if |h| > from {
      AddZero(SeriesGrowth(h[..|h| - 1], from, SeriesOf(row)));
      AddZero(DeltasFrom(h[..|h| - 1], from, row));
    }
  }

  lemma ReadingExtendsGains(stretches: seq<seq<Snapshot>>, base: Option<Snapshot>, reading: Snapshot, date: Date)
    requires stretches != []
    requires var open := stretches[|stretches| - 1]; base == if open == [] then None else Some(open[|open| - 1])
    ensures var delta := Growth(base, reading.counters);
            && Gains(WithReading(stretches, reading)) == Add(Gains(stretches), delta)
            && GainsOn(WithReading(stretches, reading), date) ==
               Add(GainsOn(stretches, date), if DayOf(reading.capturedAt) == date then delta else ZERO)
  {
    hide Gains, GainsOn;
    GainsGrow(stretches, reading, date);
    GainsReopen(stretches, date);
  }

  lemma OneEmptyStretch(date: Date)
    ensures Gains([[]]) == ZERO && GainsOn([[]], date) == ZERO
  {
    assert Gains([]) == ZERO && GainsOn([], date) == ZERO;
    OneStretch([], date);
  }

  lemma OneStretch(stretch: seq<Snapshot>, date: Date)
    ensures Gains([stretch]) == Gain(stretch) && GainsOn([stretch], date) == GainOn(stretch, date)
  {
    hide Gain, GainOn;
    assert [stretch][..0] == [];
  }

  /** A row is its last absolute reading and what the readings of its day added since, stretch by stretch. */
  lemma {:induction false} RowIsTheGainOfStretches(h: seq<UsageOp>, row: DailyKey)
    ensures RowValue(h, row) ==
            Add(ValueOr(AbsoluteReading(h, row)), GainsOn(Stretches(h, Since(h, row), SeriesOf(row)), row.date))
  {
    hide GainsOn, Stretches, DeltasFrom, AbsoluteReading;
    var since := Since(h, row);
    SinceIsReplacement(h, row);
    if since > 0 { NoBaselineAfterDiscard(h[..since], since, SeriesOf(row)); }
    UsageIsTheGainOfStretches(h, since, row);
  }

  /** A stretch whose later readings fall on one day adds all of last minus first to it. */
  lemma {:induction false} GainOfOneDay(stretch: seq<Snapshot>, date: Date)
    requires forall j :: 0 < j < |stretch| ==> DayOf(stretch[j].capturedAt) == date
    ensures GainOn(stretch, date) == Gain(stretch)
  {
    if |stretch| > 1 { GainOfOneDay(stretch[..|stretch| - 1], date); }
  }

  ghost predicate NeverGoesDown(stretch: seq<Snapshot>) {
    forall i, j :: 0 <= i <= j < |stretch| ==> AtMost(stretch[i].counters, stretch[j].counters)
  }

  lemma ReadingNeverGoesDown(stretches: seq<seq<Snapshot>>, reading: Snapshot)
    requires |stretches| > 0 && forall stretch <- stretches :: NeverGoesDown(stretch)
    ensures forall stretch <- WithReading(stretches, reading) :: NeverGoesDown(stretch)
  {
    var open := stretches[|stretches| - 1];
    assert open in stretches;
    assert NeverGoesDown([reading]);
    if open == [] || AtMost(open[|open| - 1].counters, reading.counters) {
      assert NeverGoesDown(open + [reading]);
    }
  }

  /** No counter goes down inside a stretch, so no stretch takes usage away. */
  lemma {:induction false} StretchesNeverGoDown(h: seq<UsageOp>, from: nat, series: SeriesKey)
    ensures forall stretch <- Stretches(h, from, series) :: NeverGoesDown(stretch)
  {
    if |h| > from {
      var before, op := Stretches(h[..|h| - 1], from, series), h[|h| - 1];
      StretchesNeverGoDown(h[..|h| - 1], from, series);
      LastStretch(h, from, series);
      if op.Snap? && op.series == series {
        ReadingNeverGoesDown(before, Snapshot(op.counters, op.at));
      }
    }
  }

  // ----- the store -----

  /** The readings of an absolute write by model; the caller has refused duplicates. */
  function ReadingsMap(readings: seq<Reading>): map<string, Counters> {
    if readings == [] then map[] else
      var last := readings[|readings| - 1];
      ReadingsMap(readings[..|readings| - 1])[last.model := last.counters]
  }

  ghost predicate DistinctModels(readings: seq<Reading>) {
    forall i, j :: 0 <= i < j < |readings| ==> readings[i].model != readings[j].model
  }

  /** The daily rows and the baselines are what the history says. */
  ghost predicate Reflects(u: UsageTables, h: seq<UsageOp>) {
    && (forall row :: row in u.daily <==> Stored(h, row))
    && (forall row :: row in u.daily ==> u.daily[row] == RowValue(h, row))
    && (forall series :: series in u.snapshots <==> Baseline(h, series).Some?)
    && (forall series :: series in u.snapshots ==> u.snapshots[series] == Baseline(h, series).value)
  }

  /** Every model that is read is found with its counters. */
  lemma {:induction false} ReadingsAreFound(readings: seq<Reading>)
    requires DistinctModels(readings)
    ensures forall j :: 0 <= j < |readings| ==>
              readings[j].model in ReadingsMap(readings) && ReadingsMap(readings)[readings[j].model] == readings[j].counters
    ensures forall model <- ReadingsMap(readings) :: exists j | 0 <= j < |readings| :: readings[j].model == model
  {
    if readings != [] {
      ReadingsAreFound(readings[..|readings| - 1]);
    }
  }

  /** The daily row that a snapshot counts for. */
  function RowOf(op: UsageOp): DailyKey
    requires op.Snap?
  {
    DailyKey(DayOf(op.at), op.series.account, op.series.provider, op.series.model)
  }

  lemma {:induction false} RowAfterSnapshot(h: seq<UsageOp>, op: UsageOp, row: DailyKey)
    requires op.Snap?
    ensures var delta := Growth(Baseline(h, op.series), op.counters);
            if row == RowOf(op) && delta != ZERO
            then Stored(h + [op], row) && RowValue(h + [op], row) == Add(if Stored(h, row) then RowValue(h, row) else ZERO, delta)
            else (Stored(h + [op], row) <==> Stored(h, row)) && RowValue(h + [op], row) == RowValue(h, row)
  {
    hide Stored, RowValue, Baseline;
    DeltaOfLast(h, op);
    if row == RowOf(op) && DeltaAt(h + [op], |h|) != ZERO {
      RowAfterCounted(h, op, row);
      if !Stored(h, row) { UnstoredIsZero(h, row); }
    } else {
      RowAfterUncounted(h, op, row);
    }
  }

  lemma {:induction false} BaselineAfter(h: seq<UsageOp>, op: UsageOp, series: SeriesKey)
    ensures Baseline(h + [op], series) ==
            if op.Snap? && op.series == series then Some(Snapshot(op.counters, op.at))
            else if Discards(op, series) then None else Baseline(h, series)
  {
    Extended(h, op);
  }

  /** The reading becomes the baseline and its delta, if any, goes to the row of its day. */
  predicate StoresReading(u: UsageTables, tx: UsageTables, series: SeriesKey, at: Time, counters: Counters, delta: Counters) {
    && tx == u.(snapshots := u.snapshots[series := Snapshot(counters, at)], daily := tx.daily)
    && var row := DailyKey(DayOf(at), series.account, series.provider, series.model);
       tx.daily == if delta == ZERO then u.daily
                   else u.daily[row := if row in u.daily then Add(u.daily[row], delta) else delta]
  }

  /** The tables after one more snapshot. */
  lemma {:induction false} ReflectsSnapshot(u: UsageTables, after: UsageTables, h: seq<UsageOp>, op: UsageOp)
    requires Reflects(u, h) && op.Snap?
    requires StoresReading(u, after, op.series, op.at, op.counters, Growth(Baseline(h, op.series), op.counters))
    ensures Reflects(after, h + [op])
  {
    hide Stored, RowValue, Baseline, Growth;
    forall row
      ensures row in after.daily <==> Stored(h + [op], row)
      ensures row in after.daily ==> after.daily[row] == RowValue(h + [op], row)
    {
      RowAfterSnapshot(h, op, row);
    }
    forall series
      ensures series in after.snapshots <==> Baseline(h + [op], series).Some?
      ensures series in after.snapshots ==> after.snapshots[series] == Baseline(h + [op], series).value
    {
      BaselineAfter(h, op, series);
    }
  }

  /** The tables after an absolute write. */
  lemma {:induction false} ReflectsAbsolute(u: UsageTables, after: UsageTables, h: seq<UsageOp>, op: UsageOp)
    requires Reflects(u, h) && op.Absolute?
    requires forall row :: row in after.daily <==> if Replaces(op, row) then row.model in op.readings else row in u.daily
    requires forall row :: row in after.daily ==>
               after.daily[row] == if Replaces(op, row) then op.readings[row.model] else u.daily[row]
    requires forall series :: series in after.snapshots <==> series in u.snapshots && !Discards(op, series)
    requires forall series :: series in after.snapshots ==> after.snapshots[series] == u.snapshots[series]
    ensures Reflects(after, h + [op])
  {
    hide Stored, RowValue, Baseline;
    forall row
      ensures row in after.daily <==> Stored(h + [op], row)
      ensures row in after.daily ==> after.daily[row] == RowValue(h + [op], row)
    {
      if Replaces(op, row) {
        RowAfterReplaced(h, op, row);
      } else {
        RowAfterUncounted(h, op, row);
      }
    }
    forall series
      ensures series in after.snapshots <==> Baseline(h + [op], series).Some?
      ensures series in after.snapshots ==> after.snapshots[series] == Baseline(h + [op], series).value
    {
      BaselineAfter(h, op, series);
    }
  }

  /** The reading has everything it needs, its account is there, and it is not older than the baseline. */
  predicate Usable(db: Db, series: SeriesKey, capturedAt: Option<Time>, counters: Counters) {
    && series.account != "" && series.provider != "" && capturedAt.Some? && NonNegative(counters)
    && series.account in db.accounts && db.accounts[series.account] == series.provider
    && (series in db.usage.snapshots ==>
          db.usage.snapshots[series].capturedAt < capturedAt.value || Repeats(db.usage, series, capturedAt.value, counters))
  }

  /** The same reading is already the baseline. */
  predicate Repeats(u: UsageTables, series: SeriesKey, at: Time, counters: Counters) {
    series in u.snapshots && u.snapshots[series] == Snapshot(counters, at)
  }

  /** A first reading counts nothing; it becomes the baseline. */
  ghost predicate StartsSeries(before: UsageTables, r: SnapshotResult, series: SeriesKey) {
    series !in before.snapshots && r == SnapshotResult(true, false, ZERO)
  }

  /** A reading with a counter below the baseline counts nothing either. */
  ghost predicate Restarts(before: UsageTables, r: SnapshotResult, series: SeriesKey, counters: Counters) {
    && series in before.snapshots
    && !AtMost(before.snapshots[series].counters, counters)
    && r == SnapshotResult(false, true, ZERO)
  }

  /** Any other reading counts what was added since the baseline. */
  ghost predicate Continues(before: UsageTables, r: SnapshotResult, series: SeriesKey, counters: Counters) {
    && series in before.snapshots
    && AtMost(before.snapshots[series].counters, counters)
    && !r.baselineCreated && !r.counterReset && Add(before.snapshots[series].counters, r.delta) == counters
  }

  /** The reading is the new baseline, and what it counts is in the row of its day and nowhere else. */
  ghost predicate Recorded(before: UsageTables, after: UsageTables, r: SnapshotResult, series: SeriesKey, at: Time, counters: Counters) {
    && (StartsSeries(before, r, series) || Restarts(before, r, series, counters) || Continues(before, r, series, counters))
    && after == before.(snapshots := before.snapshots[series := Snapshot(counters, at)], daily := after.daily)
    && var row := DailyKey(DayOf(at), series.account, series.provider, series.model);
       if r.delta == ZERO then after.daily == before.daily
       else after.daily == before.daily[row := if row in before.daily then Add(before.daily[row], r.delta) else r.delta]
  }

  /** The day of the account holds exactly the readings, and its baselines of any day are gone. */
  ghost predicate DayReplaced(before: UsageTables, after: UsageTables, date: Date, account: AccountId, provider: string, readings: seq<Reading>) {
    && (forall reading <- readings :: DailyKey(date, account, provider, reading.model) in after.daily
                                      && after.daily[DailyKey(date, account, provider, reading.model)] == reading.counters)
    && (forall row <- after.daily :: row.date == date && row.account == account && row.provider == provider ==>
          exists reading <- readings :: reading.model == row.model)
    && (forall row: DailyKey :: !(row.date == date && row.account == account && row.provider == provider) ==>
          (row in after.daily <==> row in before.daily) && (row in after.daily ==> after.daily[row] == before.daily[row]))
    && (forall series :: series in after.snapshots <==>
          series in before.snapshots && !(series.account == account && series.provider == provider))
    && (forall series <- after.snapshots :: after.snapshots[series] == before.snapshots[series])
  }

  ghost predicate InDay(row: DailyKey, date: Date, account: AccountId, provider: string) {
    row.date == date && row.account == account && row.provider == provider
  }

  lemma DayIsReplaced(
      u: UsageTables, daily: map<DailyKey, Counters>, snapshots: map<SeriesKey, Snapshot>,
      date: Date, account: AccountId, provider: string, readings: seq<Reading>)
    requires DistinctModels(readings)
    requires forall row :: InDay(row, date, account, provider) ==>
               (row in daily <==> row.model in ReadingsMap(readings))
               && (row in daily ==> daily[row] == ReadingsMap(readings)[row.model])
    requires forall row :: !InDay(row, date, account, provider) ==>
               (row in daily <==> row in u.daily) && (row in daily ==> daily[row] == u.daily[row])
    requires forall series :: series in snapshots <==> series in u.snapshots && !(series.account == account && series.provider == provider)
    requires forall series :: series in snapshots ==> snapshots[series] == u.snapshots[series]
    ensures DayReplaced(u, u.(daily := daily, snapshots := snapshots), date, account, provider, readings)
  {
    hide ReadingsMap, DistinctModels;
    ReadingsAreFound(readings);
    forall reading <- readings
      ensures DailyKey(date, account, provider, reading.model) in daily
      ensures daily[DailyKey(date, account, provider, reading.model)] == reading.counters
    {
      var j :| 0 <= j < |readings| && readings[j] == reading;
      var row := DailyKey(date, account, provider, readings[j].model);
      assert InDay(row, date, account, provider);
    }
    forall row <- daily | InDay(row, date, account, provider) ensures exists reading <- readings :: reading.model == row.model {
      var j :| 0 <= j < |readings| && readings[j].model == row.model;
      assert readings[j] in readings;
    }
  }

  /** The tables with a replaced day reflect the longer history. */
  lemma DayIsStored(
      db: Db, daily: map<DailyKey, Counters>, snapshots: map<SeriesKey, Snapshot>, h: seq<UsageOp>,
      date: Date, account: AccountId, provider: string, readings: seq<Reading>)
    requires Reflects(db.usage, h) && UsageIntact(db.accounts.Keys, db.usage)
    requires account in db.accounts && DistinctModels(readings)
    requires forall row :: InDay(row, date, account, provider) ==>
               (row in daily <==> row.model in ReadingsMap(readings))
               && (row in daily ==> daily[row] == ReadingsMap(readings)[row.model])
    requires forall row :: !InDay(row, date, account, provider) ==>
               (row in daily <==> row in db.usage.daily) && (row in daily ==> daily[row] == db.usage.daily[row])
    requires forall series :: series in snapshots <==>
               series in db.usage.snapshots && !(series.account == account && series.provider == provider)
    requires forall series :: series in snapshots ==> snapshots[series] == db.usage.snapshots[series]
    ensures var after := db.usage.(daily := daily, snapshots := snapshots);
            && Reflects(after, h + [Absolute(date, account, provider, ReadingsMap(readings))])
            && UsageIntact(db.accounts.Keys, after)
            && DayReplaced(db.usage, after, date, account, provider, readings)
  {
    hide Reflects, ReadingsMap, DayReplaced, DistinctModels;
    DayIsReplaced(db.usage, daily, snapshots, date, account, provider, readings);
    assert forall row <- daily :: row.account in db.accounts by {
      assert forall row <- daily :: !InDay(row, date, account, provider) ==> row in db.usage.daily;
    }
    ReflectsAbsolute(db.usage, db.usage.(daily := daily, snapshots := snapshots), h,
                     Absolute(date, account, provider, ReadingsMap(readings)));
  }

  predicate Counts(u: UsageTables, series: SeriesKey, counters: Counters, r: SnapshotResult) {
    r == if series !in u.snapshots then SnapshotResult(true, false, ZERO)
         else if RolledBack(u.snapshots[series].counters, counters) then SnapshotResult(false, true, ZERO)
         else SnapshotResult(false, false, Subtract(counters, u.snapshots[series].counters))
  }

  /** The tables with one more reading reflect the longer history. */
  lemma SnapshotIsStored(
      db: Db, tx: UsageTables, h: seq<UsageOp>, series: SeriesKey, at: Time, counters: Counters, r: SnapshotResult)
    requires Reflects(db.usage, h) && UsageIntact(db.accounts.Keys, db.usage) && series.account in db.accounts
    requires Counts(db.usage, series, counters, r) && StoresReading(db.usage, tx, series, at, counters, r.delta) && NonNegative(counters)
    ensures Reflects(tx, h + [Snap(series, at, counters)]) && UsageIntact(db.accounts.Keys, tx)
    ensures Recorded(db.usage, tx, r, series, at, counters)
    ensures r.delta == DeltaAt(h + [Snap(series, at, counters)], |h|) && NonNegative(r.delta)
  {
    hide Reflects, Baseline, DeltaAt, UsageIntact, Recorded, StoresReading, Counts, Growth;
    SnapshotIsRecorded(db.usage, tx, series, at, counters, r);
    SnapshotStaysIntact(db.accounts.Keys, db.usage, tx, series, at, counters, r);
    GrowthIsCounted(db.usage, h, series, counters, r);
    ReflectsSnapshot(db.usage, tx, h, Snap(series, at, counters));
    DeltaOfLast(h, Snap(series, at, counters));
  }

  lemma GrowthIsCounted(u: UsageTables, h: seq<UsageOp>, series: SeriesKey, counters: Counters, r: SnapshotResult)
    requires Reflects(u, h) && Counts(u, series, counters, r)
    ensures r.delta == Growth(Baseline(h, series), counters)
  {
    hide Reflects, Baseline;
    BaselineIsStored(u, h, series);
  }

  lemma SnapshotIsRecorded(
      u: UsageTables, tx: UsageTables, series: SeriesKey, at: Time, counters: Counters, r: SnapshotResult)
    requires Counts(u, series, counters, r) && StoresReading(u, tx, series, at, counters, r.delta) && NonNegative(counters)
    ensures Recorded(u, tx, r, series, at, counters) && NonNegative(r.delta)
  {
  }

  lemma SnapshotStaysIntact(
      accounts: set<AccountId>, u: UsageTables, tx: UsageTables, series: SeriesKey, at: Time, counters: Counters, r: SnapshotResult)
    requires UsageIntact(accounts, u) && series.account in accounts && StoresReading(u, tx, series, at, counters, r.delta)
    ensures UsageIntact(accounts, tx)
  {
  }

  lemma BaselineIsStored(u: UsageTables, h: seq<UsageOp>, series: SeriesKey)
    requires Reflects(u, h)
    ensures Baseline(h, series) == if series in u.snapshots then Some(u.snapshots[series]) else None
  {
    hide Stored, RowValue, Baseline;
  }

  class UsageStore {
    var db: Db
    ghost var history: seq<UsageOp>

    ghost predicate Valid()
      reads this
    {
      Reflects(db.usage, history) && UsageIntact(db.accounts.Keys, db.usage)
    }

    constructor (initial: Db)
      requires initial.usage.daily == map[] && initial.usage.snapshots == map[]
      requires UsageIntact(initial.accounts.Keys, initial.usage)
      ensures Valid() && db == initial && history == []
    {
      db, history := initial, [];
    }

    /**
      Stores a cumulative reading.  A repeated reading is accepted without
      effect; an older one, or a different one at the same time, is refused.
    */
    method RecordUsageSnapshot(series: SeriesKey, capturedAt: Option<Time>, counters: Counters, mayFail: bool)
      returns (r: Result<SnapshotResult, UsageError>)
      requires Valid()
      modifies this
      ensures Valid() && db.accounts == old(db.accounts)
      ensures r.Err? ==> db == old(db) && history == old(history)
      ensures r == Err(Invalid) <==> series.account == "" || series.provider == "" || capturedAt.None? || !NonNegative(counters)
      ensures r == Err(SqlError) ==> mayFail
      ensures !mayFail && Usable(db, series, capturedAt, counters) ==> r.Ok?
      ensures r == Err(NoAccount) ==> series.account !in db.accounts
      ensures r == Err(ProviderMismatch) ==> series.account in db.accounts && db.accounts[series.account] != series.provider
      ensures r == Err(OutOfOrder) ==>
                && capturedAt.Some? && series in db.usage.snapshots
                && var base := db.usage.snapshots[series];
                   capturedAt.value < base.capturedAt || (capturedAt.value == base.capturedAt && counters != base.counters)
      ensures r.Ok? ==> series.account in db.accounts && db.accounts[series.account] == series.provider && capturedAt.Some?
      ensures r.Ok? && series in old(db).usage.snapshots ==>
                var base := old(db).usage.snapshots[series];
                base.capturedAt < capturedAt.value || base == Snapshot(counters, capturedAt.value)
      ensures r.Ok? && !Repeats(old(db).usage, series, capturedAt.value, counters) ==>
                Recorded(old(db).usage, db.usage, r.value, series, capturedAt.value, counters)
      ensures r.Ok? && Repeats(old(db).usage, series, capturedAt.value, counters) ==>
                r.value == SnapshotResult(false, false, ZERO) && db == old(db) && history == old(history)
      ensures r.Ok? && !Repeats(old(db).usage, series, capturedAt.value, counters) ==>
                && history == old(history) + [Snap(series, capturedAt.value, counters)]
                && r.value.delta == DeltaAt(history, |old(history)|) && NonNegative(r.value.delta)
    {
      hide Reflects, UsageIntact, Recorded, DeltaAt, Baseline;
      if series.account == "" || series.provider == "" || capturedAt.None? || !NonNegative(counters) { return Err(Invalid); }
      var at := capturedAt.value;
      var failed: bool := *;
      if mayFail && failed { return Err(SqlError); }
      if series.account !in db.accounts { return Err(NoAccount); }
      if db.accounts[series.account] != series.provider { return Err(ProviderMismatch); }
      var tx := db.usage;
      if series !in tx.snapshots {
        tx := tx.(snapshots := tx.snapshots[series := Snapshot(counters, at)]);
        failed := *;
        if mayFail && failed { return Err(SqlError); }
        r := Ok(SnapshotResult(true, false, ZERO));
        SnapshotIsStored(db, tx, history, series, at, counters, r.value);
        history := history + [Snap(series, at, counters)];
        db := db.(usage := tx);
        return;
      }
      var previous := tx.snapshots[series];
      if at < previous.capturedAt { return Err(OutOfOrder); }
      if at == previous.capturedAt {
        if counters == previous.counters { return Ok(SnapshotResult(false, false, ZERO)); }
        return Err(OutOfOrder);
      }
      var reset := RolledBack(previous.counters, counters);
      var delta := if reset then ZERO else Subtract(counters, previous.counters);
      tx := tx.(snapshots := tx.snapshots[series := Snapshot(counters, at)]);
      if !reset && delta != ZERO {
        var row := RowOf(Snap(series, at, counters));
        tx := tx.(daily := tx.daily[row := if row in tx.daily then Add(tx.daily[row], delta) else delta]);
      }
      failed := *;
      if mayFail && failed { return Err(SqlError); }
      r := Ok(SnapshotResult(false, reset, delta));
      SnapshotIsStored(db, tx, history, series, at, counters, r.value);
      history := history + [Snap(series, at, counters)];
      db := db.(usage := tx);
    }

    /** Replaces one day of one account by provider totals; missing models disappear and baselines are discarded. */
    method UpsertAbsoluteDailyUsage(date: Option<Date>, account: AccountId, provider: string, readings: seq<Reading>, mayFail: bool)
      returns (r: Result<(), UsageError>)
      requires Valid()
      modifies this
      ensures Valid() && db.accounts == old(db.accounts)
      ensures r.Err? ==> db == old(db) && history == old(history)
      ensures r == Err(Invalid) <==>
                || date.None? || account == "" || provider == "" || !DistinctModels(readings)
                || exists reading <- readings :: !NonNegative(reading.counters)
      ensures r == Err(SqlError) ==> mayFail
      ensures !mayFail && r != Err(Invalid) && account in db.accounts && db.accounts[account] == provider ==> r.Ok?
      ensures r == Err(NoAccount) ==> account !in db.accounts
      ensures r == Err(ProviderMismatch) ==> account in db.accounts && db.accounts[account] != provider
      ensures r != Err(OutOfOrder)
      ensures r.Ok? ==> DayReplaced(old(db).usage, db.usage, date.value, account, provider, readings)
      ensures r.Ok? ==>
                && account in db.accounts && db.accounts[account] == provider
                && history == old(history) + [Absolute(date.value, account, provider, ReadingsMap(readings))]
    {
      hide Reflects, UsageIntact, DayReplaced, ReadingsMap;
      if date.None? || account == "" || provider == "" { return Err(Invalid); }
      var accepted := Acceptable(readings);
      if !accepted { return Err(Invalid); }
      var failed: bool := *;
      if mayFail && failed { return Err(SqlError); }
      if account !in db.accounts { return Err(NoAccount); }
      if db.accounts[account] != provider { return Err(ProviderMismatch); }
      var u := db.usage;
      var kept := map row | row in u.daily && !(row.date == date.value && row.account == account && row.provider == provider)
                    :: u.daily[row];
      var snapshots := map series | series in u.snapshots && !(series.account == account && series.provider == provider)
                         :: u.snapshots[series];
      failed := *;
      if mayFail && failed { return Err(SqlError); }
      var daily := InsertReadings(kept, date.value, account, provider, readings);
      failed := *;
      if mayFail && failed { return Err(SqlError); }
      DayIsStored(db, daily, snapshots, history, date.value, account, provider, readings);
      history := history + [Absolute(date.value, account, provider, ReadingsMap(readings))];
      db := db.(usage := u.(daily := daily, snapshots := snapshots));
      return Ok(());
    }

    method Acceptable(readings: seq<Reading>) returns (ok: bool)
      ensures ok <==> DistinctModels(readings) && forall reading <- readings :: NonNegative(reading.counters)
    {
      var models: set<string> := {};
      for i := 0 to |readings|
        invariant forall model :: model in models <==> exists j | 0 <= j < i :: readings[j].model == model
        invariant DistinctModels(readings[..i])
        invariant forall j | 0 <= j < i :: NonNegative(readings[j].counters)
      {
        if !NonNegative(readings[i].counters) {
          assert readings[i] in readings;
          return false;
        }
        if readings[i].model in models {
          var j :| 0 <= j < i && readings[j].model == readings[i].model;
          return false;
        }
        models := models + {readings[i].model};
      }
      assert readings[..|readings|] == readings;
      return true;
    }

    /** One row per reading; the models are distinct, so no insert conflicts. */
    method InsertReadings(rows: map<DailyKey, Counters>, date: Date, account: AccountId, provider: string, readings: seq<Reading>)
      returns (daily: map<DailyKey, Counters>)
      ensures forall row :: InDay(row, date, account, provider) ==>
                (row in daily <==> row.model in ReadingsMap(readings) || row in rows)
                && (row.model in ReadingsMap(readings) ==> daily[row] == ReadingsMap(readings)[row.model])
      ensures forall row :: !InDay(row, date, account, provider) ==>
                (row in daily <==> row in rows) && (row in daily ==> daily[row] == rows[row])
    {
      daily := rows;
      for i := 0 to |readings|
        invariant forall row :: InDay(row, date, account, provider) ==>
                    (row in daily <==> row.model in ReadingsMap(readings[..i]) || row in rows)
                    && (row.model in ReadingsMap(readings[..i]) ==> daily[row] == ReadingsMap(readings[..i])[row.model])
        invariant forall row :: !InDay(row, date, account, provider) ==>
                    (row in daily <==> row in rows) && (row in daily ==> daily[row] == rows[row])
      {
        assert readings[..i + 1][..i] == readings[..i];
        daily := daily[DailyKey(date, account, provider, readings[i].model) := readings[i].counters];
      }
      assert readings[..|readings|] == readings;
    }
  }
}
