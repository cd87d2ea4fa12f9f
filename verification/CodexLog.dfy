/**
  The browser-side reading of a Codex rollout log: token events, some of them
  cumulative, folded into one entry per day and model.
*/
module CodexLog {
  import opened Prelude
  import opened Schema
  import opened UsageCounters
  import opened CodexImport

  /** Token numbers of one event, already clamped to whole non-negative numbers. */
  datatype Usage = Usage(input: nat, cached: nat, output: nat)

  /** One decoded line; texts that are absent are empty. */
  datatype Line = Line(session: Option<string>, model: string, token: bool, last: Option<Usage>, total: Option<Usage>, date: Option<Date>)

  type Key = (Date, string)

  // ----- counters of one event -----

  /** An event without any token counts as absent; cached tokens are taken out of the input. */
  function ReadCounters(u: Usage): (r: Option<Counters>)
    ensures r.None? <==> u == Usage(0, 0, 0)
    ensures r.Some? ==>
              && r.value.input + r.value.cache == Max(u.input, u.cached)
              && r.value.output == u.output && r.value.cache == u.cached && r.value.requests == 0
  {
    if u.input == 0 && u.cached == 0 && u.output == 0 then None
    else Some(Counters(if u.input < u.cached then 0 else u.input - u.cached, u.output, u.cached, 0))
  }

  function Positive(n: int): int {
    if n < 0 then 0 else n
  }

  /** What is missing from the previous total to reach the current one, counter by counter. */
  function SubtractCounters(current: Counters, previous: Counters): (r: Counters)
    ensures previous.input + r.input == Max(current.input, previous.input)
    ensures previous.output + r.output == Max(current.output, previous.output)
    ensures previous.cache + r.cache == Max(current.cache, previous.cache)
    ensures r.requests == 0
  {
    Counters(Positive(current.input - previous.input), Positive(current.output - previous.output), Positive(current.cache - previous.cache), 0)
  }

  function Reading(u: Usage): Counters {
    if ReadCounters(u).Some? then ReadCounters(u).value else ZERO
  }

  // ----- what a log says, line by line -----

  /** The latest cumulative total; zero before the first one. */
  function Previous(lines: seq<Line>): Counters {
    if lines == [] then ZERO else
      var l := lines[|lines| - 1];
      if l.token && l.total.Some? then Reading(l.total.value) else Previous(lines[..|lines| - 1])
  }

  function CurrentModel(lines: seq<Line>): string {
    if lines == [] then "" else
      var l := lines[|lines| - 1];
      if l.model != "" then l.model else CurrentModel(lines[..|lines| - 1])
  }

  function SessionId(lines: seq<Line>): string {
    if lines == [] then "" else
      var l := lines[|lines| - 1];
      if l.session.Some? then l.session.value else SessionId(lines[..|lines| - 1])
  }

  /** The usage the last line reports: its own, or the growth of the total. */
  function Delta(lines: seq<Line>): Counters
    requires lines != []
  {
    var l := lines[|lines| - 1];
    if !l.token then ZERO
    else if l.last.Some? && ReadCounters(l.last.value).Some? then ReadCounters(l.last.value).value
    else if l.total.Some? then SubtractCounters(Reading(l.total.value), Previous(lines[..|lines| - 1]))
    else ZERO
  }

  /** The key the last line counts for, if it has a model and a date. */
  function KeyOf(lines: seq<Line>): Option<Key>
    requires lines != []
  {
    var l := lines[|lines| - 1];
    if CurrentModel(lines) != "" && l.date.Some? then Some((l.date.value, CurrentModel(lines))) else None
  }

  predicate Counts(lines: seq<Line>, key: Key)
    requires lines != []
  {
    Delta(lines) != ZERO && KeyOf(lines) == Some(key)
  }

  /** The sum of one day and model, with one request per counted event. */
  function EntrySum(lines: seq<Line>, key: Key): Counters {
    if lines == [] then ZERO else
      var before := EntrySum(lines[..|lines| - 1], key);
      if Counts(lines, key) then Add(before, Delta(lines).(requests := 1)) else before
  }

  function CountedSum(lines: seq<Line>): Counters {
    if lines == [] then ZERO else
      var before := CountedSum(lines[..|lines| - 1]);
      if Delta(lines) != ZERO && KeyOf(lines).Some? then Add(before, Delta(lines).(requests := 1)) else before
  }

  /** Events that report usage but have no model or no date. */
  function SkippedEvents(lines: seq<Line>): nat {
    if lines == [] then 0 else
      SkippedEvents(lines[..|lines| - 1]) + if Delta(lines) != ZERO && KeyOf(lines).None? then 1 else 0
  }

  function SkippedSum(lines: seq<Line>): Counters {
    if lines == [] then ZERO else
      var before := SkippedSum(lines[..|lines| - 1]);
      if Delta(lines) != ZERO && KeyOf(lines).None? then Add(before, Delta(lines)) else before
  }

  lemma {:induction false} EntrySumRange(lines: seq<Line>, key: Key)
    ensures NonNegative(EntrySum(lines, key))
    ensures EntrySum(lines, key).requests == 0 <==> EntrySum(lines, key) == ZERO
  {
    if lines != [] {
      EntrySumRange(lines[..|lines| - 1], key);
      PreviousRange(lines[..|lines| - 1]);
    }
  }

  lemma {:induction false} PreviousRange(lines: seq<Line>)
    ensures NonNegative(Previous(lines)) && Previous(lines).requests == 0
  {
    if lines != [] { PreviousRange(lines[..|lines| - 1]); }
  }

  /** The current model is that of the last line that names one. */
  lemma {:induction false} LatestModel(lines: seq<Line>, i: nat)
    requires i < |lines| && lines[i].model != "" && forall j | i < j < |lines| :: lines[j].model == ""
    ensures CurrentModel(lines) == lines[i].model
  {
    if i < |lines| - 1 { LatestModel(lines[..|lines| - 1], i); }
  }

  /** The session is that of the last line that has one. */
  lemma {:induction false} LatestSession(lines: seq<Line>, i: nat)
    requires i < |lines| && lines[i].session.Some? && forall j | i < j < |lines| :: lines[j].session.None?
    ensures SessionId(lines) == lines[i].session.value
  {
    if i < |lines| - 1 { LatestSession(lines[..|lines| - 1], i); }
  }

  /** The previous total is that of the last token event that has one. */
  lemma {:induction false} LatestTotal(lines: seq<Line>, i: nat)
    requires i < |lines| && lines[i].token && lines[i].total.Some?
    requires forall j | i < j < |lines| :: !(lines[j].token && lines[j].total.Some?)
    ensures Previous(lines) == Reading(lines[i].total.value)
  {
    if i < |lines| - 1 { LatestTotal(lines[..|lines| - 1], i); }
  }

  /** What the last line of a log reports: its own usage first, otherwise what its total exceeds the previous one by. */
  lemma EventMeans(lines: seq<Line>)
    requires lines != []
    ensures var l, d, previous := lines[|lines| - 1], Delta(lines), Previous(lines[..|lines| - 1]);
            if l.token && l.last.Some? && l.last.value != Usage(0, 0, 0) then
              && d.input + d.cache == Max(l.last.value.input, l.last.value.cached)
              && d.output == l.last.value.output && d.cache == l.last.value.cached
            else if l.token && l.total.Some? then
              var total := Reading(l.total.value);
              && previous.input + d.input == Max(total.input, previous.input)
              && previous.output + d.output == Max(total.output, previous.output)
              && previous.cache + d.cache == Max(total.cache, previous.cache)
            else d == ZERO
  {
    hide Previous;
  }

  // ----- cumulative logs -----

  predicate TotalsOnly(lines: seq<Line>) {
    forall l <- lines :: l.last.Some? ==> ReadCounters(l.last.value).None?
  }

  /** The totals in order of appearance. */
  function Totals(lines: seq<Line>): seq<Counters> {
    if lines == [] then [] else
      var before, l := Totals(lines[..|lines| - 1]), lines[|lines| - 1];
      if l.token && l.total.Some? then before + [Reading(l.total.value)] else before
  }

  function Final(totals: seq<Counters>): Counters {
    if totals == [] then ZERO else totals[|totals| - 1]
  }

  /** The positive increments of a series that starts from zero. */
  function Increments(totals: seq<Counters>): Counters {
    if totals == [] then ZERO else
      var before := totals[..|totals| - 1];
      Add(Increments(before), SubtractCounters(totals[|totals| - 1], Final(before)))
  }

  predicate NeverDecreases(totals: seq<Counters>) {
    totals == [] ||
    var before := totals[..|totals| - 1];
    NeverDecreases(before) && !RolledBack(Final(before), totals[|totals| - 1])
  }

  function WithoutRequests(c: Counters): Counters {
    c.(requests := 0)
  }

  lemma IncrementsGrow(totals: seq<Counters>, c: Counters)
    ensures Increments(totals + [c]) == Add(Increments(totals), SubtractCounters(c, Final(totals)))
    ensures Final(totals + [c]) == c
  {
    assert (totals + [c])[..|totals|] == totals;
  }

  lemma CountedStep(lines: seq<Line>)
    requires lines != []
    ensures var before := CountedSum(lines[..|lines| - 1]);
            CountedSum(lines) == if Delta(lines) != ZERO && KeyOf(lines).Some? then Add(before, Delta(lines).(requests := 1)) else before
  {
    hide Delta, KeyOf;
  }

  lemma SkippedStep(lines: seq<Line>)
    requires lines != []
    ensures var before := SkippedSum(lines[..|lines| - 1]);
            SkippedSum(lines) == if Delta(lines) != ZERO && KeyOf(lines).None? then Add(before, Delta(lines)) else before
  {
    hide Delta, KeyOf;
  }

  lemma UsageGrows(lines: seq<Line>)
    requires lines != []
    ensures var before := lines[..|lines| - 1];
            WithoutRequests(Add(CountedSum(lines), SkippedSum(lines))) ==
            WithoutRequests(Add(Add(CountedSum(before), SkippedSum(before)), Delta(lines)))
  {
    hide Delta, KeyOf, CountedSum, SkippedSum;
    CountedStep(lines);
    SkippedStep(lines);
  }

  /** Nothing of a cumulative log is lost: counted and skipped usage together are its positive increments. */
  lemma {:induction false} CumulativeLogIsConserved(lines: seq<Line>)
    requires TotalsOnly(lines)
    ensures WithoutRequests(Add(CountedSum(lines), SkippedSum(lines))) == Increments(Totals(lines))
    ensures Previous(lines) == Final(Totals(lines))
  {
    if lines != [] {
      hide CountedSum, SkippedSum, Increments, Reading, ReadCounters;
      var before, l := lines[..|lines| - 1], lines[|lines| - 1];
      CumulativeLogIsConserved(before);
      UsageGrows(lines);
      assert l in lines;
      if l.token && l.total.Some? { IncrementsGrow(Totals(before), Reading(l.total.value)); }
    }
  }

  predicate HasOwnUsage(l: Line) {
    l.token && l.last.Some? && ReadCounters(l.last.value).Some?
  }

  /** The usage of events that report their own. */
  function OwnUsage(lines: seq<Line>): Counters {
    if lines == [] then ZERO else
      var before, l := OwnUsage(lines[..|lines| - 1]), lines[|lines| - 1];
      if HasOwnUsage(l) then Add(before, Reading(l.last.value)) else before
  }

  /** The growth of the totals at those events, which is not looked at. */
  function ShadowedGrowth(lines: seq<Line>): Counters {
    if lines == [] then ZERO else
      var before, l := lines[..|lines| - 1], lines[|lines| - 1];
      var sum := ShadowedGrowth(before);
      if HasOwnUsage(l) && l.total.Some? then Add(sum, SubtractCounters(Reading(l.total.value), Previous(before))) else sum
  }

  lemma OwnStep(lines: seq<Line>)
    requires lines != []
    ensures var before, l := OwnUsage(lines[..|lines| - 1]), lines[|lines| - 1];
            OwnUsage(lines) == if HasOwnUsage(l) then Add(before, Reading(l.last.value)) else before
  {
    hide Reading, ReadCounters;
  }

  lemma ShadowedStep(lines: seq<Line>)
    requires lines != []
    ensures var before, l := lines[..|lines| - 1], lines[|lines| - 1];
            ShadowedGrowth(lines) ==
            if HasOwnUsage(l) && l.total.Some? then Add(ShadowedGrowth(before), SubtractCounters(Reading(l.total.value), Previous(before)))
            else ShadowedGrowth(before)
  {
    hide Reading, ReadCounters, Previous;
  }

  /** The increments and the latest total after one more line. */
  lemma TotalsStep(lines: seq<Line>)
    requires lines != [] && Previous(lines[..|lines| - 1]) == Final(Totals(lines[..|lines| - 1]))
    ensures var before, l := lines[..|lines| - 1], lines[|lines| - 1];
            Increments(Totals(lines)) ==
            if l.token && l.total.Some? then Add(Increments(Totals(before)), SubtractCounters(Reading(l.total.value), Previous(before)))
            else Increments(Totals(before))
    ensures Previous(lines) == Final(Totals(lines))
  {
    hide Increments, Reading;
    var before, l := lines[..|lines| - 1], lines[|lines| - 1];
    if l.token && l.total.Some? { IncrementsGrow(Totals(before), Reading(l.total.value)); }
  }

  lemma DeltaMeans(lines: seq<Line>)
    requires lines != []
    ensures var before, l := lines[..|lines| - 1], lines[|lines| - 1];
            Delta(lines) == if HasOwnUsage(l) then Reading(l.last.value)
                            else if l.token && l.total.Some? then SubtractCounters(Reading(l.total.value), Previous(before))
                            else ZERO
    ensures Delta(lines).requests == 0
  {
    hide Previous;
  }

  /** What the last line adds on either side of the balance. */
  lemma LineBalances(lines: seq<Line>)
    requires lines != [] && Previous(lines[..|lines| - 1]) == Final(Totals(lines[..|lines| - 1]))
    ensures var before := lines[..|lines| - 1];
            Add(Add(Delta(lines), ShadowedGrowth(lines)), Add(Increments(Totals(before)), OwnUsage(before)))
            == Add(ShadowedGrowth(before), Add(Increments(Totals(lines)), OwnUsage(lines)))
    ensures Previous(lines) == Final(Totals(lines))
  {
    hide Increments, Reading, Totals, Previous, Final, Delta, OwnUsage, ShadowedGrowth, SubtractCounters;
    OwnStep(lines);
    ShadowedStep(lines);
    TotalsStep(lines);
    DeltaMeans(lines);
  }

  /** For any log: what was counted or skipped exceeds the growth of the totals by what its events report themselves beyond the growth they hide. */
  lemma {:induction false} LogBalances(lines: seq<Line>)
    ensures Add(WithoutRequests(Add(CountedSum(lines), SkippedSum(lines))), ShadowedGrowth(lines))
            == Add(Increments(Totals(lines)), OwnUsage(lines))
    ensures Previous(lines) == Final(Totals(lines))
  {
    if lines != [] {
      hide CountedSum, SkippedSum, Increments, Delta, ShadowedGrowth, OwnUsage, Totals, Previous;
      LogBalances(lines[..|lines| - 1]);
      UsageGrows(lines);
      LineBalances(lines);
      DeltaMeans(lines);
    }
  }

  /** A log counts exactly the growth of its totals if and only if its events report themselves, in sum, the growth they hide. */
  lemma ConservedExactlyWhenOwnIsGrowth(lines: seq<Line>)
    ensures WithoutRequests(Add(CountedSum(lines), SkippedSum(lines))) == Increments(Totals(lines))
            <==> OwnUsage(lines) == ShadowedGrowth(lines)
  {
    hide CountedSum, SkippedSum, Increments, ShadowedGrowth, OwnUsage, Totals, Previous;
    LogBalances(lines);
    Cancels(WithoutRequests(Add(CountedSum(lines), SkippedSum(lines))), ShadowedGrowth(lines), Increments(Totals(lines)), OwnUsage(lines));
  }

  lemma Cancels(a: Counters, b: Counters, c: Counters, d: Counters)
    requires Add(a, b) == Add(c, d)
    ensures a == c <==> d == b
  {
  }

  /** An event that reports its own usage and no total adds to what is counted or skipped, and nothing to the totals. */
  lemma OwnEventAddsUsageOnly(lines: seq<Line>, l: Line)
    requires HasOwnUsage(l) && l.total.None?
    ensures var after := lines + [l];
            && WithoutRequests(Add(CountedSum(after), SkippedSum(after)))
               == Add(WithoutRequests(Add(CountedSum(lines), SkippedSum(lines))), Reading(l.last.value))
            && Totals(after) == Totals(lines) && Previous(after) == Previous(lines) && Reading(l.last.value) != ZERO
  {
    hide CountedSum, SkippedSum, Delta, Reading;
    var after := lines + [l];
    assert after[..|after| - 1] == lines && after[|after| - 1] == l;
    UsageGrows(after);
    DeltaMeans(after);
    ReadingRange(l.last.value);
  }

  /** So a log that mixes both is not conserved: one such event after any log of totals is counted beyond their growth. */
  lemma MixedLogIsNotConserved(lines: seq<Line>, l: Line)
    requires TotalsOnly(lines) && HasOwnUsage(l) && l.total.None?
    ensures var after := lines + [l];
            && WithoutRequests(Add(CountedSum(after), SkippedSum(after))) == Add(Increments(Totals(after)), Reading(l.last.value))
            && WithoutRequests(Add(CountedSum(after), SkippedSum(after))) != Increments(Totals(after))
  {
    hide CountedSum, SkippedSum, Increments, Totals, Previous, Reading;
    CumulativeLogIsConserved(lines);
    OwnEventAddsUsageOnly(lines, l);
    AddingChanges(Increments(Totals(lines)), Reading(l.last.value));
  }

  lemma AddingChanges(a: Counters, b: Counters)
    ensures Add(a, b) == a <==> b == ZERO
  {
  }

  lemma ReadingRange(u: Usage)
    ensures NonNegative(Reading(u)) && Reading(u).requests == 0
    ensures Reading(u) == ZERO <==> ReadCounters(u).None?
  {
  }

  lemma {:induction false} TotalsRange(lines: seq<Line>)
    ensures forall c <- Totals(lines) :: NonNegative(c) && c.requests == 0
  {
    if lines != [] { TotalsRange(lines[..|lines| - 1]); }
  }

  /** Positive increments never fall short of the last total, and meet it exactly when no total decreases. */
  lemma {:induction false} IncrementsReachTheTotal(totals: seq<Counters>)
    requires forall c <- totals :: NonNegative(c) && c.requests == 0
    ensures AtMost(Final(totals), Increments(totals))
    ensures Increments(totals) == Final(totals) <==> NeverDecreases(totals)
  {
    if totals != [] {
      var n, before := |totals| - 1, totals[..|totals| - 1];
      IncrementsReachTheTotal(before);
      assert totals[n] in totals;
      LastIncrement(Increments(before), Final(before), totals[n]);
    }
  }

  lemma LastIncrement(sum: Counters, previous: Counters, current: Counters)
    requires AtMost(previous, sum) && NonNegative(previous) && NonNegative(current)
    requires previous.requests == 0 && current.requests == 0
    ensures AtMost(current, Add(sum, SubtractCounters(current, previous)))
    ensures Add(sum, SubtractCounters(current, previous)) == current <==> sum == previous && !RolledBack(previous, current)
  {
  }

  /** For a log of totals only: what was counted or skipped is at least the final total, and equals it exactly when no total decreases. */
  lemma CumulativeLogReachesItsTotal(lines: seq<Line>)
    requires TotalsOnly(lines)
    ensures var usage := WithoutRequests(Add(CountedSum(lines), SkippedSum(lines)));
            && AtMost(Previous(lines), usage)
            && (usage == Previous(lines) <==> NeverDecreases(Totals(lines)))
  {
    CumulativeLogIsConserved(lines);
    TotalsRange(lines);
    IncrementsReachTheTotal(Totals(lines));
  }

  // ----- entries -----

  function KeyOfEntry(e: Entry): Key
    requires e.date.Some?
  {
    (e.date.value, e.model)
  }

  /** The entries are exactly the non-empty sums of a log, one per day and model. */
  ghost predicate EntriesOf(entries: seq<Entry>, lines: seq<Line>) {
    && (forall e <- entries :: e.date.Some? && e.model != "" && e.counters == EntrySum(lines, KeyOfEntry(e)) && e.counters != ZERO)
    && DistinctEntries(entries)
    && (forall key: Key :: EntrySum(lines, key) != ZERO ==> exists e <- entries :: e.date == Some(key.0) && e.model == key.1)
  }

  /** Such entries pass the validation of the store, apart from its size limits. */
  lemma EntriesAreValid(entries: seq<Entry>, lines: seq<Line>)
    requires EntriesOf(entries, lines)
    ensures DistinctEntries(entries)
    ensures forall e <- entries :: AcceptableEntry(e) <==>
              && |e.model| <= 200 && e.counters.input <= MAX_COUNTER && e.counters.output <= MAX_COUNTER
              && e.counters.cache <= MAX_COUNTER && e.counters.requests <= MAX_COUNTER
  {
    forall e <- entries ensures NonNegative(e.counters) {
      EntrySumRange(lines, KeyOfEntry(e));
    }
  }

  function KeysSum(keys: seq<Key>, lines: seq<Line>): Counters {
    if keys == [] then ZERO else Add(KeysSum(keys[..|keys| - 1], lines), EntrySum(lines, keys[|keys| - 1]))
  }

  ghost predicate DistinctKeys(keys: seq<Key>) {
    forall i, j :: 0 <= i < j < |keys| ==> keys[i] != keys[j]
  }

  lemma {:induction false} KeysSumGrows(keys: seq<Key>, lines: seq<Line>)
    requires lines != [] && DistinctKeys(keys)
    ensures KeysSum(keys, lines) ==
            if Delta(lines) != ZERO && KeyOf(lines).Some? && KeyOf(lines).value in keys
            then Add(KeysSum(keys, lines[..|lines| - 1]), Delta(lines).(requests := 1)) else KeysSum(keys, lines[..|lines| - 1])
  {
    if keys != [] {
      var before, last := keys[..|keys| - 1], keys[|keys| - 1];
      KeysSumGrows(before, lines);
      assert keys == before + [last];
      assert last !in before;
    }
  }

  lemma {:induction false} KeysSumIsCountedSum(keys: seq<Key>, lines: seq<Line>)
    requires DistinctKeys(keys) && forall key: Key :: EntrySum(lines, key) != ZERO ==> key in keys
    ensures KeysSum(keys, lines) == CountedSum(lines)
  {
    if lines == [] {
      EmptyKeysSum(keys);
    } else {
      hide DistinctKeys;
      var before := lines[..|lines| - 1];
      forall key: Key | EntrySum(before, key) != ZERO ensures key in keys {
        EntrySumRange(before, key);
        EntrySumRange(lines, key);
      }
      KeysSumIsCountedSum(keys, before);
      KeysSumGrows(keys, lines);
      if Delta(lines) != ZERO && KeyOf(lines).Some? {
        EntrySumRange(before, KeyOf(lines).value);
        assert EntrySum(lines, KeyOf(lines).value).requests > 0;
      }
    }
  }

  lemma {:induction false} EmptyKeysSum(keys: seq<Key>)
    ensures KeysSum(keys, []) == ZERO
  {
    if keys != [] { EmptyKeysSum(keys[..|keys| - 1]); }
  }

  lemma {:induction false} EntriesSumIsKeysSum(entries: seq<Entry>, keys: seq<Key>, lines: seq<Line>)
    requires |keys| == |entries| && forall i :: 0 <= i < |keys| ==> entries[i].date.Some? && keys[i] == KeyOfEntry(entries[i])
    requires forall i :: 0 <= i < |keys| ==> entries[i].counters == EntrySum(lines, keys[i])
    ensures EntriesSum(entries) == KeysSum(keys, lines)
  {
    if entries != [] { EntriesSumIsKeysSum(entries[..|entries| - 1], keys[..|keys| - 1], lines); }
  }

  /** However the events fall on days and models, the entries add up to what was counted. */
  lemma {:induction false} EntriesAddUp(entries: seq<Entry>, lines: seq<Line>)
    requires EntriesOf(entries, lines)
    ensures EntriesSum(entries) == CountedSum(lines)
  {
    var keys := seq(|entries|, i requires 0 <= i < |entries| => KeyOfEntry(entries[i]));
    forall key: Key | EntrySum(lines, key) != ZERO ensures key in keys {
      var e :| e in entries && e.date == Some(key.0) && e.model == key.1;
      var i :| 0 <= i < |entries| && entries[i] == e;
      assert keys[i] == key;
    }
    assert DistinctKeys(keys);
    KeysSumIsCountedSum(keys, lines);
    EntriesSumIsKeysSum(entries, keys, lines);
  }

  // ----- parsing -----

  ghost predicate Tabulates(aggregates: map<Key, Counters>, lines: seq<Line>) {
    && (forall key <- aggregates :: key.1 != "" && aggregates[key] == EntrySum(lines, key) && aggregates[key] != ZERO)
    && (forall key: Key :: EntrySum(lines, key) != ZERO ==> key in aggregates)
  }

  ghost predicate SameSums(xs: seq<Line>, ys: seq<Line>) {
    forall key: Key :: EntrySum(xs, key) == EntrySum(ys, key)
  }

  /** Two logs have the same table exactly when they have the same sum on every day for every model. */
  lemma SameTable(t: map<Key, Counters>, xs: seq<Line>, u: map<Key, Counters>, ys: seq<Line>)
    requires Tabulates(t, xs) && Tabulates(u, ys)
    ensures t == u <==> SameSums(xs, ys)
  {
    hide EntrySum;
    if t == u {
      forall key: Key ensures EntrySum(xs, key) == EntrySum(ys, key) {
        assert key in t || key !in t;
      }
    } else if SameSums(xs, ys) {
      forall key: Key ensures (key in t <==> key in u) && (key in t ==> t[key] == u[key]) {
        assert EntrySum(xs, key) == EntrySum(ys, key);
      }
      assert false;
    }
  }

  lemma {:induction false} TabulatesNext(aggregates: map<Key, Counters>, after: map<Key, Counters>, lines: seq<Line>)
    requires lines != [] && Tabulates(aggregates, lines[..|lines| - 1])
    requires after == if Delta(lines) != ZERO && KeyOf(lines).Some? then
                        var key := KeyOf(lines).value;
                        aggregates[key := Add(if key in aggregates then aggregates[key] else ZERO, Delta(lines).(requests := 1))]
                      else aggregates
    ensures Tabulates(after, lines)
  {
    hide Delta, KeyOf;
    forall key: Key ensures EntrySum(lines, key) != ZERO <==> key in after
                    ensures key in after ==> after[key] == EntrySum(lines, key) {
      EntrySumRange(lines[..|lines| - 1], key);
      EntrySumRange(lines, key);
    }
    if KeyOf(lines).Some? { KeyHasModel(lines); }
  }

  lemma KeyHasModel(lines: seq<Line>)
    requires lines != [] && KeyOf(lines).Some?
    ensures KeyOf(lines).value.1 != ""
  {
  }

  /** The usage of one token event, and the total to compare the next one with. */
  method ReadEvent(l: Line, previous: Option<Counters>, ghost lines: seq<Line>) returns (counters: Option<Counters>, next: Option<Counters>)
    requires lines != [] && lines[|lines| - 1] == l && l.token
    requires (if previous.Some? then previous.value else ZERO) == Previous(lines[..|lines| - 1])
    ensures (if counters.Some? then counters.value else ZERO) == Delta(lines)
    ensures (if next.Some? then next.value else ZERO) == Previous(lines)
    ensures Delta(lines) == ZERO <==> Tokens(Delta(lines)) <= 0
  {
    PreviousRange(lines[..|lines| - 1]);
    counters, next := None, previous;
    if l.last.Some? { counters := ReadCounters(l.last.value); }
    if counters.None? && l.total.Some? {
      var total := ReadCounters(l.total.value);
      if total.Some? {
        counters := Some(if previous.Some? then SubtractCounters(total.value, previous.value) else total.value);
      }
    }
    if l.total.Some? { next := ReadCounters(l.total.value); }
  }

  /** One token event is counted for its day and model, or skipped, or reports nothing. */
  method CountEvent(l: Line, currentModel: string, counters: Option<Counters>, skipped: nat, aggregates: map<Key, Counters>, ghost lines: seq<Line>)
    returns (skippedAfter: nat, after: map<Key, Counters>)
    requires lines != [] && lines[|lines| - 1] == l && currentModel == CurrentModel(lines)
    requires (if counters.Some? then counters.value else ZERO) == Delta(lines) && (Delta(lines) == ZERO <==> Tokens(Delta(lines)) <= 0)
    requires skipped == SkippedEvents(lines[..|lines| - 1]) && Tabulates(aggregates, lines[..|lines| - 1])
    ensures skippedAfter == SkippedEvents(lines) && Tabulates(after, lines)
  {
    hide Tabulates, EntrySum, CurrentModel, SkippedEvents, Delta;
    SkippedEventsStep(lines);
    skippedAfter, after := skipped, aggregates;
    if counters.Some? && Tokens(counters.value) > 0 {
      if currentModel == "" || l.date.None? {
        skippedAfter := skipped + 1;
      } else {
        var key := (l.date.value, currentModel);
        var entry := if key in aggregates then aggregates[key] else ZERO;
        after := aggregates[key := Add(entry, counters.value.(requests := 1))];
      }
    }
    TabulatesNext(aggregates, after, lines);
  }

  /** The loop over the lines of one file. */
  method Aggregate(lines: seq<Line>) returns (sourceId: string, skipped: nat, aggregates: map<Key, Counters>)
    ensures sourceId == SessionId(lines) && skipped == SkippedEvents(lines) && Tabulates(aggregates, lines)
  {
    hide Tabulates, EntrySum, SessionId, CurrentModel, SkippedEvents, Previous, Delta, KeyOf;
    NothingRead();
    NothingTabulated();
    sourceId, skipped, aggregates := "", 0, map[];
    var currentModel: string, previous: Option<Counters> := "", None;
    for i := 0 to |lines|
      invariant sourceId == SessionId(lines[..i]) && currentModel == CurrentModel(lines[..i])
      invariant (if previous.Some? then previous.value else ZERO) == Previous(lines[..i])
      invariant skipped == SkippedEvents(lines[..i]) && Tabulates(aggregates, lines[..i])
    {
      var l := lines[i];
      ghost var here := lines[..i + 1];
      assert here[..|here| - 1] == lines[..i] && here[|here| - 1] == l;
      LineMeans(here);
      if l.session.Some? { sourceId := l.session.value; }
      if l.model != "" { currentModel := l.model; }
      var counters := None;
      if l.token {
        counters, previous := ReadEvent(l, previous, here);
      }
      skipped, aggregates := CountEvent(l, currentModel, counters, skipped, aggregates, here);
    }
    assert lines[..|lines|] == lines;
  }

  lemma NothingRead()
    ensures SessionId([]) == CurrentModel([]) == "" && SkippedEvents([]) == 0 && Previous([]) == ZERO
  {
  }

  lemma ModelStep(lines: seq<Line>)
    requires lines != []
    ensures var before, l := lines[..|lines| - 1], lines[|lines| - 1];
            CurrentModel(lines) == if l.model != "" then l.model else CurrentModel(before)
  {
  }

  lemma SessionStep(lines: seq<Line>)
    requires lines != []
    ensures var before, l := lines[..|lines| - 1], lines[|lines| - 1];
            SessionId(lines) == if l.session.Some? then l.session.value else SessionId(before)
  {
  }

  lemma SkippedEventsStep(lines: seq<Line>)
    requires lines != []
    ensures var before := SkippedEvents(lines[..|lines| - 1]);
            SkippedEvents(lines) == before + if Delta(lines) != ZERO && KeyOf(lines).None? then 1 else 0
  {
    hide Delta, KeyOf;
  }

  lemma QuietLine(lines: seq<Line>)
    requires lines != [] && !lines[|lines| - 1].token
    ensures Delta(lines) == ZERO && Previous(lines) == Previous(lines[..|lines| - 1])
  {
    hide Reading;
  }

  /** What one more line changes, apart from its usage. */
  lemma LineMeans(lines: seq<Line>)
    requires lines != []
    ensures var before, l := lines[..|lines| - 1], lines[|lines| - 1];
            && CurrentModel(lines) == (if l.model != "" then l.model else CurrentModel(before))
            && SessionId(lines) == (if l.session.Some? then l.session.value else SessionId(before))
            && (!l.token ==> Delta(lines) == ZERO && Previous(lines) == Previous(before))
  {
    hide CurrentModel, SessionId, Delta, Previous;
    ModelStep(lines);
    SessionStep(lines);
    if !lines[|lines| - 1].token { QuietLine(lines); }
  }

  lemma NothingTabulated()
    ensures Tabulates(map[], [])
  {
  }

  /** The entries of the table; their order is not modelled. */
  method EntryList(aggregates: map<Key, Counters>, ghost lines: seq<Line>) returns (entries: seq<Entry>)
    requires Tabulates(aggregates, lines)
    ensures EntriesOf(entries, lines)
  {
    entries := [];
    var rest := aggregates.Keys;
    while rest != {}
      invariant rest <= aggregates.Keys
      invariant forall e <- entries :: e.date.Some? && KeyOfEntry(e) in aggregates && KeyOfEntry(e) !in rest && e.counters == aggregates[KeyOfEntry(e)]
      invariant forall key <- aggregates :: key in rest || exists e <- entries :: e.date == Some(key.0) && e.model == key.1
      invariant DistinctEntries(entries)
      decreases rest
    {
      var key :| key in rest;
      ghost var before := entries;
      var e := Entry(Some(key.0), key.1, aggregates[key]);
      entries := entries + [e];
      rest := rest - {key};
      forall k <- aggregates | k !in rest ensures exists e <- entries :: e.date == Some(k.0) && e.model == k.1 {
        if k == key {
          assert e in entries;
        } else {
          var f :| f in before && f.date == Some(k.0) && f.model == k.1;
          assert f in entries;
        }
      }
    }
  }

  /**
    Reads one file.  There is a source exactly when something was counted; its
    entries are the sums of the log, and its content hash is that of its table.
  */
  method ParseCodexUsageText(lines: seq<Line>, fallbackId: string, hash: map<Key, Counters> -> string)
    returns (source: Option<Source>, skippedEvents: nat)
    ensures skippedEvents == SkippedEvents(lines)
    ensures source.None? <==> CountedSum(lines) == ZERO
    ensures source.Some? ==>
              && EntriesOf(source.value.entries, lines) && source.value.entries != []
              && source.value.id == (if SessionId(lines) != "" then SessionId(lines) else fallbackId)
              && EntriesSum(source.value.entries) == CountedSum(lines)
              && forall table :: Tabulates(table, lines) ==> source.value.hash == hash(table)
  {
    hide Tabulates, CountedSum, EntrySum;
    var sourceId, skipped, aggregates := Aggregate(lines);
    var entries := EntryList(aggregates, lines);
    EntriesAddUp(entries, lines);
    if |entries| == 0 { return None, skipped; }
    assert entries[0] in entries;
    SomethingCounted(lines, KeyOfEntry(entries[0]));
    forall table | Tabulates(table, lines) ensures table == aggregates {
      SameTable(table, lines, aggregates, lines);
    }
    return Some(Source(if sourceId != "" then sourceId else fallbackId, hash(aggregates), entries)), skipped;
  }

  lemma {:induction false} SomethingCounted(lines: seq<Line>, key: Key)
    ensures EntrySum(lines, key).requests <= CountedSum(lines).requests
    ensures EntrySum(lines, key) != ZERO ==> CountedSum(lines).requests > 0
  {
    EntrySumRange(lines, key);
    if lines != [] { SomethingCounted(lines[..|lines| - 1], key); }
  }
}
