/**
  Panels turned into readings, and a sync that writes the days of the history
  and then today, on top of the usage ledger.
*/
module TokenRhythmSync {
  import opened Prelude
  import opened Schema
  import opened UsageCounters
  import opened UsageLedger
  import opened TokenRhythmHistory

  const PROVIDER := "tokenrhythm"

  function AsCounters(a: Amounts): Counters {
    Counters(a.input, a.output, a.cacheRead + a.cacheWrite, a.calls)
  }

  function PositiveDifference(total: int, attributed: int): int {
    if total <= attributed then 0 else total - attributed
  }

  function Remainder(total: Counters, attributed: Counters): Counters {
    Counters(PositiveDifference(total.input, attributed.input), PositiveDifference(total.output, attributed.output),
             PositiveDifference(total.cache, attributed.cache), PositiveDifference(total.requests, attributed.requests))
  }

  /** One reading per model: its tokens read and written, all its cached tokens, and its calls. */
  function ModelReadings(models: seq<ModelUsage>): (readings: seq<Reading>)
    ensures |readings| == |models|
    ensures forall i :: 0 <= i < |models| ==>
              && readings[i].model == models[i].model
              && readings[i].counters.input == models[i].amounts.input
              && readings[i].counters.output == models[i].amounts.output
              && readings[i].counters.cache == models[i].amounts.cacheRead + models[i].amounts.cacheWrite
              && readings[i].counters.requests == models[i].amounts.calls
  {
    seq(|models|, i requires 0 <= i < |models| => Reading(models[i].model, AsCounters(models[i].amounts)))
  }

  function ReadingsSum(readings: seq<Reading>): Counters {
    if readings == [] then ZERO else Add(ReadingsSum(readings[..|readings| - 1]), readings[|readings| - 1].counters)
  }

  /** What a panel does not attribute to a model. */
  function Unattributed(panel: UsagePanel): Counters {
    Remainder(AsCounters(panel.amounts), ReadingsSum(ModelReadings(panel.models)))
  }

  /** The models of a panel, and what is left over under the empty name. */
  function ReadingsOf(panel: UsagePanel): seq<Reading> {
    ModelReadings(panel.models) + if Unattributed(panel) == ZERO then [] else [Reading("", Unattributed(panel))]
  }

  /** The counters are the numbers of some amounts, both kinds of cached tokens taken together. */
  predicate Carries(c: Counters, a: Amounts) {
    && c.input == a.input && c.output == a.output && c.requests == a.calls
    && c.cache == a.cacheRead + a.cacheWrite
  }

  /** The counters are, number by number, the larger of two amounts. */
  predicate CarriesLarger(c: Counters, a: Amounts, b: Amounts) {
    && c.input == Max(a.input, b.input) && c.output == Max(a.output, b.output) && c.requests == Max(a.calls, b.calls)
    && c.cache == Max(a.cacheRead + a.cacheWrite, b.cacheRead + b.cacheWrite)
  }

  method TokenRhythmUsageReadings(panel: UsagePanel) returns (readings: seq<Reading>)
    ensures readings == ReadingsOf(panel)
    ensures |panel.models| <= |readings| <= |panel.models| + 1
    ensures forall i | 0 <= i < |panel.models| ::
              readings[i].model == panel.models[i].model && Carries(readings[i].counters, panel.models[i].amounts)
    ensures |readings| > |panel.models| ==> readings[|panel.models|].model == ""
    ensures CarriesLarger(ReadingsSum(readings), panel.amounts, ModelsTotal(panel.models))
  {
    hide AsCounters, Carries, CarriesLarger, Remainder, ModelsTotal, ModelReadings, ReadingsSum, Add;
    ReadingsAddUp(panel);
    assert ReadingsSum([]) == ZERO by { NoReadings(); }
    var total := AsCounters(panel.amounts);
    var attributed := ZERO;
    readings := [];
    for i := 0 to |panel.models|
      invariant readings == ModelReadings(panel.models)[..i]
      invariant attributed == ReadingsSum(readings)
    {
      var counters := AsCounters(panel.models[i].amounts);
      ghost var before := readings;
      readings := readings + [Reading(panel.models[i].model, counters)];
      ReadingsSumEnds(before, readings[i]);
      ModelReadingCarries(panel.models, i);
      attributed := Add(attributed, counters);
    }
    assert readings == ModelReadings(panel.models);
    var remaining := Remainder(total, attributed);
    if remaining != ZERO {
      readings := readings + [Reading("", remaining)];
    }
    forall i | 0 <= i < |panel.models|
      ensures readings[i].model == panel.models[i].model && Carries(readings[i].counters, panel.models[i].amounts)
    {
      ModelReadingCarries(panel.models, i);
    }
  }

  lemma NoReadings()
    ensures ReadingsSum([]) == ZERO
  {
  }

  lemma ReadingsSumEnds(before: seq<Reading>, last: Reading)
    ensures ReadingsSum(before + [last]) == Add(ReadingsSum(before), last.counters)
  {
    hide Add;
    assert (before + [last])[..|before|] == before;
  }

  lemma ModelReadingCarries(models: seq<ModelUsage>, i: nat)
    requires i < |models|
    ensures ModelReadings(models)[i] == Reading(models[i].model, AsCounters(models[i].amounts))
    ensures Carries(AsCounters(models[i].amounts), models[i].amounts)
  {
  }

  /** What is attributed and what remains are the larger of both. */
  lemma RemainderFills(attributed: Counters, a: Amounts, b: Amounts)
    requires Carries(attributed, b)
    ensures CarriesLarger(Add(attributed, Remainder(AsCounters(a), attributed)), a, b)
  {
  }

  /** For any panel the readings add up to the larger of its total and what it attributes. */
  lemma {:induction false} ReadingsAddUp(panel: UsagePanel)
    ensures CarriesLarger(ReadingsSum(ReadingsOf(panel)), panel.amounts, ModelsTotal(panel.models))
  {
    hide AsCounters, Carries, CarriesLarger, Remainder, ModelsTotal;
    var models := ModelReadings(panel.models);
    ModelsTotalIsCarried(panel.models);
    RemainderFills(ReadingsSum(models), panel.amounts, ModelsTotal(panel.models));
    if Unattributed(panel) != ZERO {
      ReadingsSumEnds(models, Reading("", Unattributed(panel)));
    } else {
      assert ReadingsOf(panel) == models;
    }
  }

  /** The readings of a panel are accepted by the ledger exactly when no model is named twice. */
  lemma {:induction false} ReadingsAreDistinct(panel: UsagePanel)
    requires forall u <- panel.models :: u.model != ""
    ensures DistinctModels(ReadingsOf(panel)) <==> DistinctNames(panel.models)
  {
    var readings := ReadingsOf(panel);
    if DistinctModels(readings) {
      forall i, j | 0 <= i < j < |panel.models| ensures panel.models[i].model != panel.models[j].model {
        assert readings[i].model != readings[j].model;
      }
    }
    assert forall i :: 0 <= i < |panel.models| ==> readings[i].model == panel.models[i].model && panel.models[i] in panel.models;
  }

  lemma {:induction false} ModelsTotalIsCarried(models: seq<ModelUsage>)
    ensures Carries(ReadingsSum(ModelReadings(models)), ModelsTotal(models))
  {
    if models != [] {
      assert ModelReadings(models)[..|models| - 1] == ModelReadings(models[..|models| - 1]);
      ModelsTotalIsCarried(models[..|models| - 1]);
    }
  }

  lemma {:induction false} FetchedModels(panel: UsagePanel, counted: seq<Item>)
    requires DescribesDay(panel, counted)
    ensures DistinctModels(ReadingsOf(panel))
    ensures forall u <- panel.models :: u.model != "" && NoneNegative(u.amounts)
  {
    hide ReadingsOf, DistinctModels;
    forall u <- panel.models ensures u.model != "" {
      var i :| 0 <= i < |panel.models| && panel.models[i] == u;
      assert NamesOf(panel.models)[i] == u.model && u.model in NamesOf(panel.models);
    }
    ReadingsAreDistinct(panel);
  }

  lemma {:induction false} ReadingsAreNotNegative(panel: UsagePanel)
    requires forall u <- panel.models :: NoneNegative(u.amounts)
    ensures forall reading <- ReadingsOf(panel) :: NonNegative(reading.counters)
  {
    forall reading <- ReadingsOf(panel) ensures NonNegative(reading.counters) {
      if reading in ModelReadings(panel.models) {
        var i :| 0 <= i < |panel.models| && ModelReadings(panel.models)[i] == reading;
        assert panel.models[i] in panel.models;
      }
    }
  }

  // ----- the numbers of single requests -----

  function InputOf(x: Item): int { IntNumber(x.input) }

  function OutputOf(x: Item): int { IntNumber(x.output) }

  function CacheOf(x: Item): int { IntNumber(x.cacheRead) + IntNumber(x.cacheWrite) }

  function One(x: Item): int { 1 }

  /** A number added up over some of the requests. */
  function SumWhere(items: seq<Item>, chosen: Item -> bool, number: Item -> int): int {
    if items == [] then 0 else
      var last := items[|items| - 1];
      SumWhere(items[..|items| - 1], chosen, number) + if chosen(last) then number(last) else 0
  }

  function OnDay(date: Date): Item -> bool {
    (x: Item) => x.date == Some(date)
  }

  /** The requests of a day that name a model, or have its identifier and name none. */
  function OnDayOf(date: Date, model: string): Item -> bool {
    (x: Item) => x.date == Some(date) && (x.model == model || (x.model == "" && x.modelId == model))
  }

  /** The counters are the numbers of the chosen requests added up. */
  ghost predicate HoldsRequests(c: Counters, items: seq<Item>, chosen: Item -> bool) {
    && c.input == SumWhere(items, chosen, InputOf)
    && c.output == SumWhere(items, chosen, OutputOf)
    && c.cache == SumWhere(items, chosen, CacheOf)
    && c.requests == SumWhere(items, chosen, One)
  }

  lemma {:induction false} DayHoldsRequests(counted: seq<Item>, date: Date)
    ensures HoldsRequests(AsCounters(DaySum(counted, date)), counted, OnDay(date))
  {
    hide HoldsRequests, AsCounters, Spent, Plus;
    if counted == [] {
      NothingHeld(counted, OnDay(date));
    } else {
      var before, last := counted[..|counted| - 1], counted[|counted| - 1];
      DayHoldsRequests(before, date);
      RequestCounts(counted, OnDay(date), AsCounters(DaySum(before, date)));
      AsCountersAdds(DaySum(before, date), Spent(last));
    }
  }

  lemma {:induction false} ModelHoldsRequests(counted: seq<Item>, date: Date, model: string)
    requires model != ""
    ensures HoldsRequests(AsCounters(ModelSum(counted, date, model)), counted, OnDayOf(date, model))
  {
    hide HoldsRequests, AsCounters, Spent, Plus, ModelSum, OnDayOf;
    if counted == [] {
      NoModelSum(counted, date, model);
      NothingHeld(counted, OnDayOf(date, model));
    } else {
      var before, last := counted[..|counted| - 1], counted[|counted| - 1];
      ModelHoldsRequests(before, date, model);
      ModelSumStep(counted, date, model);
      RequestCounts(counted, OnDayOf(date, model), AsCounters(ModelSum(before, date, model)));
      AsCountersAdds(ModelSum(before, date, model), Spent(last));
    }
  }

  lemma NothingHeld(items: seq<Item>, chosen: Item -> bool)
    requires |items| == 0
    ensures HoldsRequests(AsCounters(NOTHING), items, chosen)
  {
  }

  lemma ModelSumStep(counted: seq<Item>, date: Date, model: string)
    requires model != "" && counted != []
    ensures var before, last := ModelSum(counted[..|counted| - 1], date, model), counted[|counted| - 1];
            ModelSum(counted, date, model) == if OnDayOf(date, model)(last) then Plus(before, Spent(last)) else before
  {
    hide Plus, Spent;
  }

  lemma RequestCounts(items: seq<Item>, chosen: Item -> bool, c: Counters)
    requires items != [] && HoldsRequests(c, items[..|items| - 1], chosen)
    ensures var last := items[|items| - 1];
            HoldsRequests(if chosen(last) then Add(c, AsCounters(Spent(last))) else c, items, chosen)
  {
  }

  lemma AsCountersAdds(a: Amounts, b: Amounts)
    ensures AsCounters(Plus(a, b)) == Add(AsCounters(a), AsCounters(b))
  {
  }

  lemma LargerIsTheWhole(c: Counters, whole: Amounts, part: Amounts, rest: Amounts)
    requires CarriesLarger(c, whole, part) && Plus(part, rest) == whole && NoneNegative(rest)
    ensures c == AsCounters(whole)
  {
  }

  /** The readings of a fetched panel add up to the requests of its day, name no model twice and are not negative. */
  lemma {:induction false} FetchedPanelIsConserved(panel: UsagePanel, counted: seq<Item>)
    requires DescribesDay(panel, counted)
    ensures HoldsRequests(ReadingsSum(ReadingsOf(panel)), counted, OnDay(panel.date))
    ensures DistinctModels(ReadingsOf(panel))
    ensures forall reading <- ReadingsOf(panel) :: NonNegative(reading.counters)
  {
    hide ReadingsOf, DistinctModels, Attributes, ModelsTotal, CarriesLarger, HoldsRequests, Plus, ModelSum;
    ReadingsAddUp(panel);
    PanelIsConserved(panel, counted);
    LargerIsTheWhole(ReadingsSum(ReadingsOf(panel)), panel.amounts, ModelsTotal(panel.models), ModelSum(counted, panel.date, ""));
    DayHoldsRequests(counted, panel.date);
    FetchedModels(panel, counted);
    ReadingsAreNotNegative(panel);
  }

  // ----- stored days -----

  ghost function DayRows(u: UsageTables, date: Date, a: AccountId): set<DailyKey> {
    set row | row in u.daily && row.date == date && row.account == a && row.provider == PROVIDER
  }

  /** What the store reports for one day of an account. */
  ghost function DayTotal(u: UsageTables, date: Date, a: AccountId): Counters {
    Sum(u.daily, DayRows(u, date, a))
  }

  function Write(a: AccountId, panel: UsagePanel): UsageOp {
    Absolute(panel.date, a, PROVIDER, ReadingsMap(ReadingsOf(panel)))
  }

  function Writes(a: AccountId, panels: seq<UsagePanel>): (ops: seq<UsageOp>)
    ensures |ops| == |panels| && forall i :: 0 <= i < |panels| ==> ops[i] == Write(a, panels[i])
  {
    seq(|panels|, i requires 0 <= i < |panels| => Write(a, panels[i]))
  }

  /** The write neither replaces the day nor adds to it. */
  predicate Elsewhere(op: UsageOp, date: Date, a: AccountId) {
    if op.Absolute? then !(op.date == date && op.account == a && op.provider == PROVIDER)
    else op.series.account != a || op.series.provider != PROVIDER || DayOf(op.at) != date
  }

  /** A row keeps its value through writes that concern other days. */
  lemma {:induction false} RowKeeps(h: seq<UsageOp>, i: nat, row: DailyKey)
    requires i <= |h| && row.provider == PROVIDER
    requires forall j :: i <= j < |h| ==> Elsewhere(h[j], row.date, row.account)
    ensures (Stored(h, row) <==> Stored(h[..i], row)) && RowValue(h, row) == RowValue(h[..i], row)
  {
    hide Stored, RowValue;
    if i == |h| {
      assert h[..i] == h;
    } else {
      var before, last := h[..|h| - 1], h[|h| - 1];
      assert h == before + [last] && before[..i] == h[..i];
      RowKeeps(before, i, row);
      RowAfterUncounted(before, last, row);
    }
  }

  lemma {:induction false} SumOfReadings(rows: map<DailyKey, Counters>, keys: set<DailyKey>, date: Date, a: AccountId, readings: seq<Reading>)
    requires DistinctModels(readings) && keys <= rows.Keys
    requires forall row :: row in keys <==> row.date == date && row.account == a && row.provider == PROVIDER && row.model in ReadingsMap(readings)
    requires forall row :: row in keys ==> rows[row] == ReadingsMap(readings)[row.model]
    ensures Sum(rows, keys) == ReadingsSum(readings)
  {
    if readings == [] {
      assert keys == {};
    } else {
      var before, last := readings[..|readings| - 1], readings[|readings| - 1];
      ModelsOfReadings(before);
      var row := DailyKey(date, a, PROVIDER, last.model);
      assert last.model !in ReadingsMap(before);
      assert row in keys;
      SumTakesAny(rows, keys, row);
      SumOfReadings(rows, keys - {row}, date, a, before);
    }
  }

  lemma {:induction false} ModelsOfReadings(readings: seq<Reading>)
    ensures forall model :: model in ReadingsMap(readings) <==> exists j | 0 <= j < |readings| :: readings[j].model == model
  {
    if readings != [] {
      ModelsOfReadings(readings[..|readings| - 1]);
    }
  }

  /** A day last written at a position of the history holds the readings written there. */
  lemma {:induction false} DayHoldsItsLastWrite(u: UsageTables, h: seq<UsageOp>, i: nat, a: AccountId, panel: UsagePanel)
    requires Reflects(u, h) && i < |h| && h[i] == Write(a, panel) && DistinctModels(ReadingsOf(panel))
    requires forall j :: i < j < |h| ==> Elsewhere(h[j], panel.date, a)
    ensures DayTotal(u, panel.date, a) == ReadingsSum(ReadingsOf(panel))
  {
    hide Stored, RowValue, ReadingsMap, ReadingsOf;
    var keys := DayRows(u, panel.date, a);
    var readings := ReadingsOf(panel);
    forall row: DailyKey | row.date == panel.date && row.account == a && row.provider == PROVIDER
      ensures row in u.daily <==> row.model in ReadingsMap(readings)
      ensures row in u.daily ==> u.daily[row] == ReadingsMap(readings)[row.model]
    {
      assert h[..i + 1] == h[..i] + [h[i]];
      RowKeeps(h, i + 1, row);
      RowAfterReplaced(h[..i], h[i], row);
    }
    SumOfReadings(u.daily, keys, panel.date, a, readings);
  }

  /** A model of a fetched day last written at a position of the history holds the requests that name it. */
  lemma {:induction false} RowHoldsItsModel(
      u: UsageTables, h: seq<UsageOp>, i: nat, a: AccountId, panel: UsagePanel, counted: seq<Item>, model: string)
    requires Reflects(u, h) && i < |h| && h[i] == Write(a, panel) && DescribesDay(panel, counted)
    requires forall j :: i < j < |h| ==> Elsewhere(h[j], panel.date, a)
    requires model != "" && HasModel(counted, panel.date, model)
    ensures var row := DailyKey(panel.date, a, PROVIDER, model);
            row in u.daily && HoldsRequests(u.daily[row], counted, OnDayOf(panel.date, model))
  {
    hide Stored, RowValue, ReadingsMap, DistinctModels, HoldsRequests, ModelSum, DaySum;
    var row := DailyKey(panel.date, a, PROVIDER, model);
    var readings := ReadingsOf(panel);
    FetchedModels(panel, counted);
    assert model in NamesOf(panel.models);
    var j :| 0 <= j < |panel.models| && NamesOf(panel.models)[j] == model;
    assert readings[j] == ModelReadings(panel.models)[j] && panel.models[j] in panel.models;
    ReadingsAreFound(readings);
    assert h[..i + 1] == h[..i] + [h[i]];
    RowKeeps(h, i + 1, row);
    RowAfterReplaced(h[..i], h[i], row);
    ModelHoldsRequests(counted, panel.date, model);
  }

  // ----- syncing -----

  datatype SyncError = HistoryFailed | SaveFailed(date: Date) | TodayFailed | TodaySaveFailed

  /** The ledger has no reason to refuse the readings of a panel. */
  ghost predicate Saveable(store: UsageStore, a: AccountId, panel: UsagePanel)
    reads store
  {
    && a != "" && a in store.db.accounts && store.db.accounts[a] == PROVIDER
    && DistinctModels(ReadingsOf(panel)) && forall reading <- ReadingsOf(panel) :: NonNegative(reading.counters)
  }

  /** Writes days in order up to the first one that fails. */
  method SaveDays(store: UsageStore, a: AccountId, panels: seq<UsagePanel>, mayFail: bool) returns (saved: nat)
    requires store.Valid()
    modifies store
    ensures store.Valid() && store.db.accounts == old(store.db.accounts)
    ensures saved <= |panels| && store.history == old(store.history) + Writes(a, panels[..saved])
    ensures saved < |panels| ==> mayFail || !Saveable(store, a, panels[saved])
  {
    hide ReadingsOf, DistinctModels, UsageStore.Valid, ReadingsMap;
    saved := 0;
    assert PROVIDER != "";
    while saved < |panels|
      invariant 0 <= saved <= |panels|
      invariant store.Valid() && store.db.accounts == old(store.db.accounts)
      invariant store.history == old(store.history) + Writes(a, panels[..saved])
    {
      var readings := TokenRhythmUsageReadings(panels[saved]);
      var r := store.UpsertAbsoluteDailyUsage(Some(panels[saved].date), a, PROVIDER, readings, mayFail);
      if r.Err? { return; }
      assert Writes(a, panels[..saved]) + [Write(a, panels[saved])] == Writes(a, panels[..saved + 1]);
      saved := saved + 1;
    }
  }

  /** The first days of the history are written in order, then today; each part may fail on its own. */
  method SyncTokenRhythmUsageSnapshots(store: UsageStore, a: AccountId,
                                       history: Result<seq<UsagePanel>, HistoryError>, today: Result<UsagePanel, ()>,
                                       mayFail: bool)
    returns (errors: seq<SyncError>, ghost saved: nat, ghost todaySaved: bool)
    requires store.Valid()
    modifies store
    ensures store.Valid() && store.db.accounts == old(store.db.accounts)
    ensures saved <= if history.Ok? then |history.value| else 0
    ensures todaySaved ==> today.Ok? && DistinctModels(ReadingsOf(today.value))
    ensures history.Ok? && saved < |history.value| ==> mayFail || !Saveable(store, a, history.value[saved])
    ensures today.Ok? && !todaySaved ==> mayFail || !Saveable(store, a, today.value)
    ensures store.history == old(store.history) + (if history.Ok? then Writes(a, history.value[..saved]) else [])
                                                + (if todaySaved then [Write(a, today.value)] else [])
    ensures errors == (if history.Err? then [HistoryFailed]
                       else if saved < |history.value| then [SaveFailed(history.value[saved].date)] else [])
                      + (if today.Err? then [TodayFailed] else if !todaySaved then [TodaySaveFailed] else [])
  {
    hide ReadingsOf, DistinctModels, UsageStore.Valid;
    errors, saved, todaySaved := [], 0, false;
    assert PROVIDER != "";
    if history.Err? {
      errors := errors + [HistoryFailed];
    } else {
      var days := SaveDays(store, a, history.value, mayFail);
      saved := days;
      if days < |history.value| { errors := errors + [SaveFailed(history.value[days].date)]; }
    }
    if today.Err? {
      errors := errors + [TodayFailed];
    } else {
      var readings := TokenRhythmUsageReadings(today.value);
      var r := store.UpsertAbsoluteDailyUsage(Some(today.value.date), a, PROVIDER, readings, mayFail);
      if r.Err? {
        errors := errors + [TodaySaveFailed];
      } else {
        todaySaved := true;
      }
    }
  }

  /**
    After a sync every saved day of the history holds exactly its counted
    requests, and today holds what the panel of today reports, which also wins
    over the history's row for the same day.
  */
  lemma SyncedDays(u: UsageTables, h: seq<UsageOp>, a: AccountId, panels: seq<UsagePanel>, counted: seq<Item>, saved: nat, today: Option<UsagePanel>)
    requires saved <= |panels| && Describes(panels, counted)
    requires today.Some? ==> DistinctModels(ReadingsOf(today.value))
    requires Reflects(u, h + Writes(a, panels[..saved]) + (if today.Some? then [Write(a, today.value)] else []))
    ensures forall i :: 0 <= i < saved && (today.None? || today.value.date != panels[i].date) ==>
              HoldsRequests(DayTotal(u, panels[i].date, a), counted, OnDay(panels[i].date))
    ensures forall i, model :: 0 <= i < saved && (today.None? || today.value.date != panels[i].date)
                               && model != "" && HasModel(counted, panels[i].date, model) ==>
              var row := DailyKey(panels[i].date, a, PROVIDER, model);
              row in u.daily && HoldsRequests(u.daily[row], counted, OnDayOf(panels[i].date, model))
    ensures today.Some? ==>
              CarriesLarger(DayTotal(u, today.value.date, a), today.value.amounts, ModelsTotal(today.value.models))
  {
    hide Reflects, ReadingsOf, ReadingsMap, DistinctModels, DescribesDay, DayTotal;
    var all := h + Writes(a, panels[..saved]) + (if today.Some? then [Write(a, today.value)] else []);
    forall i | 0 <= i < saved && (today.None? || today.value.date != panels[i].date)
      ensures HoldsRequests(DayTotal(u, panels[i].date, a), counted, OnDay(panels[i].date))
      ensures forall model :: model != "" && HasModel(counted, panels[i].date, model) ==>
                var row := DailyKey(panels[i].date, a, PROVIDER, model);
                row in u.daily && HoldsRequests(u.daily[row], counted, OnDayOf(panels[i].date, model))
    {
      FetchedPanelIsConserved(panels[i], counted);
      forall j | |h| + i < j < |all| ensures Elsewhere(all[j], panels[i].date, a) {
        if j < |h| + saved { assert all[j] == Write(a, panels[j - |h|]); }
      }
      DayHoldsItsLastWrite(u, all, |h| + i, a, panels[i]);
      forall model | model != "" && HasModel(counted, panels[i].date, model)
        ensures var row := DailyKey(panels[i].date, a, PROVIDER, model);
                row in u.daily && HoldsRequests(u.daily[row], counted, OnDayOf(panels[i].date, model))
      {
        RowHoldsItsModel(u, all, |h| + i, a, panels[i], counted, model);
      }
    }
    if today.Some? {
      ReadingsAddUp(today.value);
      DayHoldsItsLastWrite(u, all, |all| - 1, a, today.value);
    }
  }
}
