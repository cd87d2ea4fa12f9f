/**
  The paged request list of TokenRhythm, folded into one panel per calendar day.
  A page is whatever the provider answers to one request.
*/
module TokenRhythmHistory {
  import opened Prelude
  import opened Schema

  const PAGE_SIZE := 100
  const MAX_PAGES := 500

  /** One decoded request; the date is absent when its timestamp cannot be read. */
  datatype Item = Item(id: string, date: Option<Date>, model: string, modelId: string,
                       input: real, output: real, cacheRead: real, cacheWrite: real)

  datatype Page = Page(items: seq<Item>, total: int)

  datatype Amounts = Amounts(input: int, output: int, cacheRead: int, cacheWrite: int, calls: int)

  datatype ModelUsage = ModelUsage(model: string, amounts: Amounts)

  datatype UsagePanel = UsagePanel(date: Date, amounts: Amounts, models: seq<ModelUsage>)

  datatype HistoryError = FetchFailed | BadDate | TooManyPages

  type Pages = nat -> Result<Page, ()>

  const NOTHING := Amounts(0, 0, 0, 0, 0)

  function Plus(a: Amounts, b: Amounts): Amounts {
    Amounts(a.input + b.input, a.output + b.output, a.cacheRead + b.cacheRead, a.cacheWrite + b.cacheWrite, a.calls + b.calls)
  }

  predicate NoneNegative(a: Amounts) {
    a.input >= 0 && a.output >= 0 && a.cacheRead >= 0 && a.cacheWrite >= 0 && a.calls >= 0
  }

  /** A number truncated toward zero, never below it. */
  function IntNumber(value: real): (n: int)
    ensures value <= 0.0 ==> n == 0
    ensures value > 0.0 ==> 0 <= n && n as real <= value < n as real + 1.0
  {
    if value <= 0.0 then 0 else value.Floor
  }

  /** What one request counts for. */
  function Spent(item: Item): (a: Amounts)
    ensures NoneNegative(a) && a.calls == 1
  {
    Amounts(IntNumber(item.input), IntNumber(item.output), IntNumber(item.cacheRead), IntNumber(item.cacheWrite), 1)
  }

  function ModelName(item: Item): string {
    if item.model != "" then item.model else item.modelId
  }

  // ----- the requests that count -----

  predicate Mentions(items: seq<Item>, id: string) {
    exists x <- items :: x.id == id
  }

  /** Requests without an identifier, and the first request of every identifier. */
  function FirstOccurrences(items: seq<Item>): seq<Item> {
    if items == [] then [] else
      var before, last := items[..|items| - 1], items[|items| - 1];
      if last.id != "" && Mentions(before, last.id) then FirstOccurrences(before) else FirstOccurrences(before) + [last]
  }

  /** The request is listed, and no earlier one has its identifier. */
  ghost predicate IsFirst(items: seq<Item>, x: Item) {
    exists k | 0 <= k < |items| :: items[k] == x && !Mentions(items[..k], x.id)
  }

  lemma FirstStays(items: seq<Item>, last: Item, x: Item)
    requires IsFirst(items, x)
    ensures IsFirst(items + [last], x)
  {
    hide Mentions;
    var k :| 0 <= k < |items| && items[k] == x && !Mentions(items[..k], x.id);
    assert (items + [last])[k] == x && (items + [last])[..k] == items[..k];
  }

  lemma FirstIsLast(items: seq<Item>, last: Item)
    requires !Mentions(items, last.id)
    ensures IsFirst(items + [last], last)
  {
    hide Mentions;
    assert (items + [last])[|items|] == last && (items + [last])[..|items|] == items;
  }

  /** A request counts exactly when it has no identifier or is the first with its own. */
  lemma {:induction false} CountedOnce(items: seq<Item>)
    ensures forall i, j :: 0 <= i < j < |FirstOccurrences(items)| && FirstOccurrences(items)[i].id != "" ==>
              FirstOccurrences(items)[i].id != FirstOccurrences(items)[j].id
    ensures forall id :: Mentions(FirstOccurrences(items), id) <==> Mentions(items, id)
    ensures forall x <- FirstOccurrences(items) :: x in items
  {
    if items != [] {
      var before, last := items[..|items| - 1], items[|items| - 1];
      CountedOnce(before);
      assert items == before + [last];
      var counted := FirstOccurrences(before);
      assert forall i | 0 <= i < |counted| :: Mentions(counted, counted[i].id);
      forall id ensures Mentions(FirstOccurrences(items), id) <==> Mentions(items, id) {
        assert Mentions(before + [last], id) <==> Mentions(before, id) || last.id == id;
        assert Mentions(counted + [last], id) <==> Mentions(counted, id) || last.id == id;
      }
    }
  }

  /** Of the requests with an identifier the first one counts. */
  lemma {:induction false} FirstOnesCount(items: seq<Item>)
    ensures forall x <- FirstOccurrences(items) :: x.id != "" ==> IsFirst(items, x)
  {
    if items != [] {
      hide Mentions, IsFirst;
      var before, last := items[..|items| - 1], items[|items| - 1];
      FirstOnesCount(before);
      assert items == before + [last];
      forall x <- FirstOccurrences(before) | x.id != "" ensures IsFirst(items, x) {
        FirstStays(before, last, x);
      }
      if !Mentions(before, last.id) { FirstIsLast(before, last); }
    }
  }

  /** Every request without an identifier counts as often as it is listed. */
  lemma {:induction false} UnnamedOnesCount(items: seq<Item>, x: Item)
    requires x.id == ""
    ensures multiset(FirstOccurrences(items))[x] == multiset(items)[x]
  {
    if items != [] {
      hide Mentions;
      var before, last := items[..|items| - 1], items[|items| - 1];
      UnnamedOnesCount(before, x);
      assert items == before + [last];
    }
  }

  /** What follows a prefix only adds to its counted requests. */
  lemma {:induction false} CountedGrows(xs: seq<Item>, ys: seq<Item>)
    ensures FirstOccurrences(xs) <= FirstOccurrences(xs + ys)
  {
    if ys == [] {
      assert xs + ys == xs;
    } else {
      assert (xs + ys)[..|xs + ys| - 1] == xs + ys[..|ys| - 1];
      CountedGrows(xs, ys[..|ys| - 1]);
    }
  }

  /** Requests that are listed again, because a page shifted, change nothing. */
  lemma {:induction false} RepeatsDoNotCount(xs: seq<Item>, ys: seq<Item>)
    requires forall y <- ys :: y.id != "" && Mentions(xs, y.id)
    ensures FirstOccurrences(xs + ys) == FirstOccurrences(xs)
  {
    if ys == [] {
      assert xs + ys == xs;
    } else {
      var before, last := ys[..|ys| - 1], ys[|ys| - 1];
      assert (xs + ys)[..|xs + ys| - 1] == xs + before;
      var x :| x in xs && x.id == last.id;
      assert x in xs + before;
      RepeatsDoNotCount(xs, before);
    }
  }

  // ----- sums over counted requests -----

  predicate On(x: Item, date: Date) {
    x.date == Some(date)
  }

  function DaySum(counted: seq<Item>, date: Date): Amounts {
    if counted == [] then NOTHING else
      var before, last := DaySum(counted[..|counted| - 1], date), counted[|counted| - 1];
      if On(last, date) then Plus(before, Spent(last)) else before
  }

  /** The part of a day that belongs to one model name; the empty name collects what names no model. */
  function ModelSum(counted: seq<Item>, date: Date, model: string): (a: Amounts)
    ensures NoneNegative(a)
  {
    if counted == [] then NOTHING else
      var before, last := ModelSum(counted[..|counted| - 1], date, model), counted[|counted| - 1];
      if On(last, date) && ModelName(last) == model then Plus(before, Spent(last)) else before
  }

  predicate HasDay(counted: seq<Item>, date: Date) {
    exists x <- counted :: On(x, date)
  }

  predicate HasModel(counted: seq<Item>, date: Date, model: string) {
    exists x <- counted :: On(x, date) && ModelName(x) == model
  }

  ghost predicate AllDated(counted: seq<Item>) {
    forall x <- counted :: x.date.Some?
  }

  ghost predicate Distinct(names: seq<string>) {
    forall i, j :: 0 <= i < j < |names| ==> names[i] != names[j]
  }

  /** The sum of several models of a day. */
  function NamesSum(names: seq<string>, counted: seq<Item>, date: Date): Amounts {
    if names == [] then NOTHING else
      Plus(NamesSum(names[..|names| - 1], counted, date), ModelSum(counted, date, names[|names| - 1]))
  }

  lemma {:induction false} NamesSumGrows(names: seq<string>, counted: seq<Item>, x: Item, date: Date)
    requires Distinct(names)
    ensures NamesSum(names, counted + [x], date) ==
            if On(x, date) && ModelName(x) in names then Plus(NamesSum(names, counted, date), Spent(x)) else NamesSum(names, counted, date)
  {
    if names != [] {
      var before, last := names[..|names| - 1], names[|names| - 1];
      NamesSumGrows(before, counted, x, date);
      assert (counted + [x])[..|counted|] == counted;
      assert names == before + [last];
      assert last !in before;
    }
  }

  /** All named models and the unnamed rest make up the day. */
  lemma {:induction false} DaySplitsByModel(names: seq<string>, counted: seq<Item>, date: Date)
    requires "" !in names && Distinct(names)
    requires forall x <- counted :: On(x, date) && ModelName(x) != "" ==> ModelName(x) in names
    ensures Plus(NamesSum(names, counted, date), ModelSum(counted, date, "")) == DaySum(counted, date)
  {
    if counted == [] {
      EmptyNamesSum(names, counted, date);
    } else {
      hide Distinct, NamesSum;
      var before, last := counted[..|counted| - 1], counted[|counted| - 1];
      assert counted == before + [last];
      assert last in counted && forall x <- before :: x in counted;
      DaySplitsByModel(names, before, date);
      NamesSumGrows(names, before, last, date);
    }
  }

  lemma NamesSumStep(names: seq<string>, counted: seq<Item>, date: Date)
    ensures NamesSum(names, counted, date) ==
            if names == [] then NOTHING
            else Plus(NamesSum(names[..|names| - 1], counted, date), ModelSum(counted, date, names[|names| - 1]))
  {
    hide ModelSum;
  }

  lemma NoModelSum(counted: seq<Item>, date: Date, name: string)
    requires |counted| == 0
    ensures ModelSum(counted, date, name) == NOTHING
  {
  }

  lemma PlusNothing()
    ensures Plus(NOTHING, NOTHING) == NOTHING
  {
  }

  lemma {:induction false} EmptyNamesSum(names: seq<string>, counted: seq<Item>, date: Date)
    requires |counted| == 0
    ensures NamesSum(names, counted, date) == NOTHING
  {
    hide *;
    NamesSumStep(names, counted, date);
    if names != [] {
      EmptyNamesSum(names[..|names| - 1], counted, date);
      NoModelSum(counted, date, names[|names| - 1]);
      PlusNothing();
    }
  }

  // ----- panels -----

  ghost predicate DistinctNames(models: seq<ModelUsage>) {
    forall i, j :: 0 <= i < j < |models| ==> models[i].model != models[j].model
  }

  function NamesOf(models: seq<ModelUsage>): (names: seq<string>)
    ensures |names| == |models| && forall i :: 0 <= i < |models| ==> names[i] == models[i].model
  {
    seq(|models|, i requires 0 <= i < |models| => models[i].model)
  }

  /** The models of a panel are those named by a counted request of the day, each once, with its own sum. */
  ghost predicate Attributes(models: seq<ModelUsage>, counted: seq<Item>, date: Date) {
    && DistinctNames(models)
    && (forall name :: name in NamesOf(models) <==> name != "" && HasModel(counted, date, name))
    && (forall u <- models :: u.amounts == ModelSum(counted, date, u.model))
  }

  ghost predicate DescribesDay(panel: UsagePanel, counted: seq<Item>) {
    && panel.amounts == DaySum(counted, panel.date)
    && Attributes(panel.models, counted, panel.date)
  }

  ghost predicate Ascending(panels: seq<UsagePanel>) {
    forall i, j :: 0 <= i < j < |panels| ==> panels[i].date < panels[j].date
  }

  /** One panel per day with a counted request, in calendar order. */
  ghost predicate Describes(panels: seq<UsagePanel>, counted: seq<Item>) {
    && Ascending(panels)
    && (forall panel <- panels :: HasDay(counted, panel.date) && DescribesDay(panel, counted))
    && (forall date :: HasDay(counted, date) ==> exists panel <- panels :: panel.date == date)
  }

  function ModelsTotal(models: seq<ModelUsage>): Amounts {
    if models == [] then NOTHING else Plus(ModelsTotal(models[..|models| - 1]), models[|models| - 1].amounts)
  }

  lemma {:induction false} ModelsTotalIsNamesSum(models: seq<ModelUsage>, counted: seq<Item>, date: Date)
    requires forall u <- models :: u.amounts == ModelSum(counted, date, u.model)
    ensures ModelsTotal(models) == NamesSum(NamesOf(models), counted, date)
  {
    if models != [] {
      assert NamesOf(models)[..|models| - 1] == NamesOf(models[..|models| - 1]);
      ModelsTotalIsNamesSum(models[..|models| - 1], counted, date);
    }
  }

  /** The models of a panel and the requests that name no model add up to the panel. */
  lemma {:induction false} PanelIsConserved(panel: UsagePanel, counted: seq<Item>)
    requires DescribesDay(panel, counted)
    ensures Plus(ModelsTotal(panel.models), ModelSum(counted, panel.date, "")) == panel.amounts
  {
    var names := NamesOf(panel.models);
    assert forall name :: name in names ==> name != "";
    forall x <- counted | On(x, panel.date) && ModelName(x) != "" ensures ModelName(x) in names {
      assert HasModel(counted, panel.date, ModelName(x));
    }
    DaySplitsByModel(names, counted, panel.date);
    ModelsTotalIsNamesSum(panel.models, counted, panel.date);
  }

  /** The sum of every counted request. */
  function GrandTotal(counted: seq<Item>): Amounts {
    if counted == [] then NOTHING else Plus(GrandTotal(counted[..|counted| - 1]), Spent(counted[|counted| - 1]))
  }

  function PanelsTotal(panels: seq<UsagePanel>): Amounts {
    if panels == [] then NOTHING else Plus(PanelsTotal(panels[..|panels| - 1]), panels[|panels| - 1].amounts)
  }

  function DaysSum(dates: seq<Date>, counted: seq<Item>): Amounts {
    if dates == [] then NOTHING else Plus(DaysSum(dates[..|dates| - 1], counted), DaySum(counted, dates[|dates| - 1]))
  }

  lemma {:induction false} DaysSumGrows(dates: seq<Date>, counted: seq<Item>, x: Item)
    requires forall i, j :: 0 <= i < j < |dates| ==> dates[i] < dates[j]
    ensures DaysSum(dates, counted + [x]) ==
            if x.date.Some? && x.date.value in dates then Plus(DaysSum(dates, counted), Spent(x)) else DaysSum(dates, counted)
  {
    if dates != [] {
      var before, last := dates[..|dates| - 1], dates[|dates| - 1];
      DaysSumGrows(before, counted, x);
      assert (counted + [x])[..|counted|] == counted;
      assert dates == before + [last];
      assert last !in before;
    }
  }

  lemma {:induction false} DaysSumIsGrandTotal(dates: seq<Date>, counted: seq<Item>)
    requires forall i, j :: 0 <= i < j < |dates| ==> dates[i] < dates[j]
    requires forall x <- counted :: x.date.Some? && x.date.value in dates
    ensures DaysSum(dates, counted) == GrandTotal(counted)
  {
    if counted == [] {
      EmptyDaysSum(dates);
    } else {
      var before, last := counted[..|counted| - 1], counted[|counted| - 1];
      DaysSumIsGrandTotal(dates, before);
      assert counted == before + [last];
      DaysSumGrows(dates, before, last);
    }
  }

  lemma {:induction false} EmptyDaysSum(dates: seq<Date>)
    ensures DaysSum(dates, []) == NOTHING
  {
    if dates != [] { EmptyDaysSum(dates[..|dates| - 1]); }
  }

  lemma {:induction false} PanelsTotalIsDaysSum(panels: seq<UsagePanel>, counted: seq<Item>, dates: seq<Date>)
    requires |dates| == |panels| && forall i :: 0 <= i < |panels| ==> dates[i] == panels[i].date
    requires forall panel <- panels :: panel.amounts == DaySum(counted, panel.date)
    ensures PanelsTotal(panels) == DaysSum(dates, counted)
  {
    if panels != [] {
      PanelsTotalIsDaysSum(panels[..|panels| - 1], counted, dates[..|dates| - 1]);
    }
  }

  /** No counted request is lost or counted on two days. */
  lemma {:induction false} HistoryIsConserved(panels: seq<UsagePanel>, counted: seq<Item>)
    requires AllDated(counted) && Describes(panels, counted)
    ensures PanelsTotal(panels) == GrandTotal(counted)
    ensures GrandTotal(counted).calls == |counted|
  {
    var dates := seq(|panels|, i requires 0 <= i < |panels| => panels[i].date);
    PanelsTotalIsDaysSum(panels, counted, dates);
    forall x <- counted ensures x.date.Some? && x.date.value in dates {
      assert HasDay(counted, x.date.value);
      var panel :| panel in panels && panel.date == x.date.value;
      var i :| 0 <= i < |panels| && panels[i] == panel;
      assert dates[i] == x.date.value;
    }
    DaysSumIsGrandTotal(dates, counted);
    CallsCount(counted);
  }

  lemma {:induction false} CallsCount(counted: seq<Item>)
    ensures GrandTotal(counted).calls == |counted|
  {
    if counted != [] { CallsCount(counted[..|counted| - 1]); }
  }

  // ----- paging -----

  /** The requests of pages 1 to k. */
  function Items(pages: Pages, k: nat): seq<Item> {
    if k == 0 || pages(k).Err? then [] else Items(pages, k - 1) + pages(k).value.items
  }

  /** The page after which nothing more is asked for. */
  predicate Final(pages: Pages, k: nat) {
    pages(k).Ok? &&
    var page := pages(k).value;
    || |page.items| == 0
    || (page.total > 0 && |Items(pages, k)| >= page.total)
    || (page.total <= 0 && |page.items| < PAGE_SIZE)
  }

  /** Page k is asked for. */
  ghost predicate Reaches(pages: Pages, k: nat) {
    k >= 1 && forall j :: 1 <= j < k ==> pages(j).Ok? && !Final(pages, j)
  }

  // ----- aggregation -----

  datatype Aggregate = Aggregate(amounts: Amounts, models: map<string, Amounts>)

  /** The running table of days. */
  ghost predicate Aggregated(days: map<Date, Aggregate>, counted: seq<Item>) {
    && (forall date :: date in days <==> HasDay(counted, date))
    && (forall date <- days :: AggregatedDay(days[date], counted, date))
  }

  ghost predicate AggregatedDay(day: Aggregate, counted: seq<Item>, date: Date) {
    && day.amounts == DaySum(counted, date)
    && (forall name :: name in day.models <==> name != "" && HasModel(counted, date, name))
    && (forall name <- day.models :: day.models[name] == ModelSum(counted, date, name))
  }

  lemma {:induction false} LaterItem(counted: seq<Item>, x: Item, date: Date)
    ensures HasDay(counted + [x], date) <==> HasDay(counted, date) || On(x, date)
    ensures DaySum(counted + [x], date) == if On(x, date) then Plus(DaySum(counted, date), Spent(x)) else DaySum(counted, date)
    ensures forall name :: HasModel(counted + [x], date, name) <==> HasModel(counted, date, name) || (On(x, date) && ModelName(x) == name)
    ensures forall name :: ModelSum(counted + [x], date, name) ==
              if On(x, date) && ModelName(x) == name then Plus(ModelSum(counted, date, name), Spent(x)) else ModelSum(counted, date, name)
  {
    assert (counted + [x])[..|counted|] == counted;
    forall name ensures HasModel(counted + [x], date, name) <==> HasModel(counted, date, name) || (On(x, date) && ModelName(x) == name) {
      if HasModel(counted, date, name) {
        var y :| y in counted && On(y, date) && ModelName(y) == name;
        assert y in counted + [x];
      }
      assert x in counted + [x];
    }
    if HasDay(counted, date) {
      var y :| y in counted && On(y, date);
      assert y in counted + [x];
    }
    assert x in counted + [x];
  }

  lemma {:induction false} AbsentIsNothing(counted: seq<Item>, date: Date)
    ensures !HasDay(counted, date) ==> DaySum(counted, date) == NOTHING
    ensures forall name :: !HasModel(counted, date, name) ==> ModelSum(counted, date, name) == NOTHING
    ensures !HasDay(counted, date) ==> forall name :: !HasModel(counted, date, name)
  {
    if counted != [] {
      var before, last := counted[..|counted| - 1], counted[|counted| - 1];
      assert counted == before + [last];
      LaterItem(before, last, date);
      AbsentIsNothing(before, date);
    }
  }

  method AddItem(day: Aggregate, x: Item, ghost counted: seq<Item>, ghost date: Date) returns (after: Aggregate)
    requires On(x, date) && AggregatedDay(day, counted, date)
    ensures AggregatedDay(after, counted + [x], date)
  {
    hide DaySum, ModelSum, HasDay, HasModel;
    LaterItem(counted, x, date);
    AbsentIsNothing(counted, date);
    after := day.(amounts := Plus(day.amounts, Spent(x)));
    var name := ModelName(x);
    if name != "" {
      var sum := if name in day.models then day.models[name] else NOTHING;
      after := after.(models := after.models[name := Plus(sum, Spent(x))]);
    }
  }

  /** One request counts for its day unless its identifier was seen; nothing can be done with a counted one that has no date. */
  method CountItem(seen: set<string>, days: map<Date, Aggregate>, x: Item, ghost earlier: seq<Item>)
    returns (ok: bool, seenAfter: set<string>, daysAfter: map<Date, Aggregate>)
    requires forall id :: id in seen <==> id != "" && Mentions(earlier, id)
    requires AllDated(FirstOccurrences(earlier)) && Aggregated(days, FirstOccurrences(earlier))
    ensures ok <==> AllDated(FirstOccurrences(earlier + [x]))
    ensures ok ==> Aggregated(daysAfter, FirstOccurrences(earlier + [x]))
    ensures ok ==> forall id :: id in seenAfter <==> id != "" && Mentions(earlier + [x], id)
  {
    hide AggregatedDay, Mentions, HasDay, FirstOccurrences, Aggregated;
    ok, seenAfter, daysAfter := true, seen, days;
    CountedNext(earlier, x);
    LaterMention(earlier, x);
    if x.id != "" && x.id in seen { return; }
    ghost var counted := FirstOccurrences(earlier);
    if x.id != "" { seenAfter := seen + {x.id}; }
    if x.date.None? {
      assert x in FirstOccurrences(earlier + [x]);
      return false, seenAfter, daysAfter;
    }
    var date := x.date.value;
    var day := Aggregate(NOTHING, map[]);
    if date in days { day := days[date]; }
    DayBefore(days, counted, date);
    day := AddItem(day, x, counted, date);
    OtherDays(days, day, counted, x);
    daysAfter := days[date := day];
  }

  lemma CountedNext(items: seq<Item>, x: Item)
    ensures FirstOccurrences(items + [x]) == if x.id != "" && Mentions(items, x.id) then FirstOccurrences(items) else FirstOccurrences(items) + [x]
  {
    assert (items + [x])[..|items|] == items;
  }

  lemma DayBefore(days: map<Date, Aggregate>, counted: seq<Item>, date: Date)
    requires Aggregated(days, counted)
    ensures AggregatedDay(if date in days then days[date] else Aggregate(NOTHING, map[]), counted, date)
  {
    hide AggregatedDay, HasDay;
    if date !in days { FreshDay(counted, date); }
  }

  /** Folds the requests of one page into the days; stops at a counted request without a date. */
  method AddItems(seen: set<string>, days: map<Date, Aggregate>, items: seq<Item>, ghost earlier: seq<Item>)
    returns (ok: bool, seenAfter: set<string>, daysAfter: map<Date, Aggregate>)
    requires forall id :: id in seen <==> id != "" && Mentions(earlier, id)
    requires AllDated(FirstOccurrences(earlier)) && Aggregated(days, FirstOccurrences(earlier))
    ensures ok <==> AllDated(FirstOccurrences(earlier + items))
    ensures ok ==> Aggregated(daysAfter, FirstOccurrences(earlier + items))
    ensures ok ==> forall id :: id in seenAfter <==> id != "" && Mentions(earlier + items, id)
  {
    hide Aggregated, Mentions, FirstOccurrences;
    ok, seenAfter, daysAfter := true, seen, days;
    assert earlier + items[..0] == earlier;
    for i := 0 to |items|
      invariant forall id :: id in seenAfter <==> id != "" && Mentions(earlier + items[..i], id)
      invariant AllDated(FirstOccurrences(earlier + items[..i]))
      invariant Aggregated(daysAfter, FirstOccurrences(earlier + items[..i]))
    {
      ghost var before := earlier + items[..i];
      assert earlier + items[..i + 1] == before + [items[i]];
      ok, seenAfter, daysAfter := CountItem(seenAfter, daysAfter, items[i], before);
      if !ok {
        UndatedStays(earlier + items[..i + 1], items[i + 1..]);
        assert earlier + items[..i + 1] + items[i + 1..] == earlier + items;
        return;
      }
    }
    assert items[..|items|] == items;
  }

  lemma UndatedStays(xs: seq<Item>, ys: seq<Item>)
    requires !AllDated(FirstOccurrences(xs))
    ensures !AllDated(FirstOccurrences(xs + ys))
  {
    CountedGrows(xs, ys);
    var x :| x in FirstOccurrences(xs) && x.date.None?;
    assert x in FirstOccurrences(xs + ys);
  }

  lemma LaterMention(items: seq<Item>, x: Item)
    ensures forall id :: Mentions(items + [x], id) <==> Mentions(items, id) || x.id == id
  {
    assert forall y :: y in items + [x] <==> y in items || y == x;
  }

  lemma FreshDay(counted: seq<Item>, date: Date)
    requires !HasDay(counted, date)
    ensures AggregatedDay(Aggregate(NOTHING, map[]), counted, date)
  {
    AbsentIsNothing(counted, date);
  }

  lemma OtherDays(days: map<Date, Aggregate>, day: Aggregate, counted: seq<Item>, x: Item)
    requires Aggregated(days, counted) && x.date.Some? && AggregatedDay(day, counted + [x], x.date.value)
    ensures Aggregated(days[x.date.value := day], counted + [x])
  {
    hide DaySum, ModelSum, HasDay, HasModel;
    var after := days[x.date.value := day];
    forall date ensures date in after <==> HasDay(counted + [x], date) {
      LaterItem(counted, x, date);
    }
    forall date <- after ensures AggregatedDay(after[date], counted + [x], date) {
      LaterItem(counted, x, date);
    }
  }

  lemma NothingAggregated()
    ensures AllDated(FirstOccurrences([])) && Aggregated(map[], FirstOccurrences([]))
  {
  }

  lemma SomeDate(dates: set<Date>)
    ensures dates == {} || exists date :: date in dates
  {
    if forall date :: date !in dates { assert dates == {}; }
  }

  method SortedDates(dates: set<Date>) returns (sorted: seq<Date>)
    ensures forall i, j :: 0 <= i < j < |sorted| ==> sorted[i] < sorted[j]
    ensures forall date :: date in sorted <==> date in dates
  {
    sorted := [];
    var rest := dates;
    while rest != {}
      invariant forall i, j :: 0 <= i < j < |sorted| ==> sorted[i] < sorted[j]
      invariant rest <= dates && forall date :: date in sorted <==> date in dates && date !in rest
      decreases rest
    {
      SomeDate(rest);
      var date :| date in rest;
      var i := 0;
      while i < |sorted| && sorted[i] < date
        invariant 0 <= i <= |sorted| && forall j | 0 <= j < i :: sorted[j] < date
      {
        i := i + 1;
      }
      assert forall d :: d in sorted <==> d in sorted[..i] || d in sorted[i..];
      assert forall j | i <= j < |sorted| :: sorted[j] > date by {
        if i < |sorted| { assert sorted[i] in sorted && date !in sorted; }
      }
      sorted := sorted[..i] + [date] + sorted[i..];
      rest := rest - {date};
    }
  }

  method ModelList(models: map<string, Amounts>) returns (list: seq<ModelUsage>)
    ensures DistinctNames(list)
    ensures forall name :: name in NamesOf(list) <==> name in models
    ensures forall u <- list :: u.model in models && u.amounts == models[u.model]
  {
    list := [];
    var rest := models.Keys;
    while rest != {}
      invariant DistinctNames(list) && rest <= models.Keys
      invariant forall name :: name in NamesOf(list) <==> name in models && name !in rest
      invariant forall u <- list :: u.model in models && u.model !in rest && u.amounts == models[u.model]
      decreases rest
    {
      var name :| name in rest;
      assert NamesOf(list + [ModelUsage(name, models[name])]) == NamesOf(list) + [name];
      list := list + [ModelUsage(name, models[name])];
      rest := rest - {name};
    }
  }

  method PanelsOf(days: map<Date, Aggregate>, ghost counted: seq<Item>) returns (panels: seq<UsagePanel>)
    requires Aggregated(days, counted)
    ensures Describes(panels, counted)
  {
    hide DaySum, ModelSum, HasDay, HasModel, NamesOf;
    var dates := SortedDates(days.Keys);
    panels := [];
    for i := 0 to |dates|
      invariant |panels| == i
      invariant forall j | 0 <= j < i :: panels[j].date == dates[j] && DescribesDay(panels[j], counted)
    {
      assert dates[i] in dates;
      var models := ModelList(days[dates[i]].models);
      panels := panels + [UsagePanel(dates[i], days[dates[i]].amounts, models)];
    }
    forall panel <- panels ensures HasDay(counted, panel.date) && DescribesDay(panel, counted) {
      var j :| 0 <= j < |panels| && panels[j] == panel;
      assert dates[j] in dates;
    }
    forall date | HasDay(counted, date) ensures exists panel <- panels :: panel.date == date {
      assert date in dates;
      var j :| 0 <= j < |dates| && dates[j] == date;
      assert panels[j] in panels;
    }
  }

  /** Page k was the last one asked for, and this is what came of it. */
  ghost predicate Outcome(pages: Pages, k: nat, r: Result<seq<UsagePanel>, HistoryError>) {
    && 1 <= k <= MAX_PAGES && Reaches(pages, k)
    && match r
       case Ok(panels) =>
         var counted := FirstOccurrences(Items(pages, k));
         Final(pages, k) && AllDated(counted) && Describes(panels, counted)
       case Err(FetchFailed) => pages(k).Err?
       case Err(BadDate) => pages(k).Ok? && !AllDated(FirstOccurrences(Items(pages, k)))
       case Err(TooManyPages) => k == MAX_PAGES && pages(k).Ok? && !Final(pages, k)
  }

  /**
    Reads pages until the list is exhausted.  The result covers the counted
    requests of every page up to the final one, or names what stopped it.
  */
  method FetchUsageHistory(pages: Pages) returns (r: Result<seq<UsagePanel>, HistoryError>)
    ensures exists k: nat :: Outcome(pages, k, r)
  {
    hide Describes, Aggregated, AllDated, FirstOccurrences;
    var days: map<Date, Aggregate> := map[];
    var seen: set<string> := {};
    var fetched, number := 0, 1;
    NothingAggregated();
    while number <= MAX_PAGES
      invariant 1 <= number <= MAX_PAGES && Reaches(pages, number)
      invariant fetched == |Items(pages, number - 1)|
      invariant forall id :: id in seen <==> id != "" && Mentions(Items(pages, number - 1), id)
      invariant AllDated(FirstOccurrences(Items(pages, number - 1)))
      invariant Aggregated(days, FirstOccurrences(Items(pages, number - 1)))
      decreases MAX_PAGES - number
    {
      var answer := pages(number);
      if answer.Err? {
        r := Err(FetchFailed);
        assert Outcome(pages, number, r);
        return;
      }
      var page := answer.value;
      fetched := fetched + |page.items|;
      var ok;
      ok, seen, days := AddItems(seen, days, page.items, Items(pages, number - 1));
      if !ok {
        r := Err(BadDate);
        assert Outcome(pages, number, r);
        return;
      }
      if |page.items| == 0 || (page.total > 0 && fetched >= page.total) || (page.total <= 0 && |page.items| < PAGE_SIZE) {
        break;
      }
      if number == MAX_PAGES {
        r := Err(TooManyPages);
        assert Outcome(pages, number, r);
        return;
      }
      number := number + 1;
    }
    var panels := PanelsOf(days, FirstOccurrences(Items(pages, number)));
    r := Ok(panels);
    assert Outcome(pages, number, r);
  }
}
