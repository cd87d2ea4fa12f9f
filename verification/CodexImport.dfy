/**
  Import of browser-extracted Codex usage: a table of sources with their
  entries, and the daily rows as a view that is rebuilt only when a source
  changed.
*/
module CodexImport {
  import opened Prelude
  import opened Schema
  import opened UsageCounters

  const PROVIDER := "codex"
  const MAX_COUNTER: int := 1_000_000_000_000_000

  /** One day of one model; the date is absent when the text was not a calendar date. */
  datatype Entry = Entry(date: Option<Date>, model: string, counters: Counters)

  datatype Source = Source(id: string, hash: string, entries: seq<Entry>)

  datatype ImportResult = ImportResult(importedSources: nat, unchangedSources: nat, importedEntries: nat, importedTokens: int)

  datatype ImportError = Invalid(index: nat) | BadRequest | NoAccount | NotCodex | SqlError

  // ----- validation -----

  predicate AcceptableEntry(e: Entry) {
    && e.date.Some?
    && 0 < |e.model| <= 200
    && NonNegative(e.counters) && e.counters != ZERO
    && e.counters.input <= MAX_COUNTER && e.counters.output <= MAX_COUNTER
    && e.counters.cache <= MAX_COUNTER && e.counters.requests <= MAX_COUNTER
  }

  ghost predicate DistinctEntries(entries: seq<Entry>) {
    forall i, j :: 0 <= i < j < |entries| ==> entries[i].date != entries[j].date || entries[i].model != entries[j].model
  }

  ghost predicate ValidSource(s: Source) {
    && 0 < |s.id| <= 160 && 0 < |s.hash| <= 160
    && 0 < |s.entries| <= 1000
    && (forall e <- s.entries :: AcceptableEntry(e))
    && DistinctEntries(s.entries)
  }

  method ValidateSource(s: Source) returns (ok: bool)
    ensures ok <==> ValidSource(s)
  {
    if |s.id| == 0 || |s.id| > 160 || |s.hash| == 0 || |s.hash| > 160 { return false; }
    if |s.entries| == 0 || |s.entries| > 1000 { return false; }
    var seen: set<(Option<Date>, string)> := {};
    for i := 0 to |s.entries|
      invariant forall p :: p in seen <==> exists j | 0 <= j < i :: p == (s.entries[j].date, s.entries[j].model)
      invariant forall j | 0 <= j < i :: AcceptableEntry(s.entries[j])
      invariant DistinctEntries(s.entries[..i])
    {
      var e := s.entries[i];
      if !AcceptableEntry(e) { return false; }
      if (e.date, e.model) in seen {
        var j :| 0 <= j < i && (e.date, e.model) == (s.entries[j].date, s.entries[j].model);
        return false;
      }
      seen := seen + {(e.date, e.model)};
    }
    assert s.entries[..|s.entries|] == s.entries;
    return true;
  }

  // ----- importing sources -----

  /** The rows of one source; a later entry would win, but valid sources have no two for one key. */
  function EntryRows(a: AccountId, id: string, entries: seq<Entry>): map<EntryKey, Counters> {
    if entries == [] then map[] else
      var e := entries[|entries| - 1];
      var rows := EntryRows(a, id, entries[..|entries| - 1]);
      if e.date.Some? then rows[EntryKey(a, id, e.date.value, e.model) := e.counters] else rows
  }

  predicate Unchanged(u: UsageTables, a: AccountId, s: Source) {
    SourceKey(a, s.id) in u.sources && u.sources[SourceKey(a, s.id)] == s.hash
  }

  /** The entries of one source exchanged for new ones. */
  function ReplaceEntries(rows: map<EntryKey, Counters>, a: AccountId, id: string, newRows: map<EntryKey, Counters>)
    : map<EntryKey, Counters>
  {
    (map k | k in rows && !(k.account == a && k.source == id) :: rows[k]) + newRows
  }

  /** A source whose content hash is known is skipped; any other replaces its older entries. */
  function ImportOne(u: UsageTables, a: AccountId, s: Source): UsageTables {
    if Unchanged(u, a, s) then u else
      u.(sources := u.sources[SourceKey(a, s.id) := s.hash],
         entries := ReplaceEntries(u.entries, a, s.id, EntryRows(a, s.id, s.entries)))
  }

  function ImportAll(u: UsageTables, a: AccountId, sources: seq<Source>): UsageTables {
    if sources == [] then u else
      ImportOne(ImportAll(u, a, sources[..|sources| - 1]), a, sources[|sources| - 1])
  }

  function UnchangedCount(u: UsageTables, a: AccountId, sources: seq<Source>): nat {
    if sources == [] then 0 else
      var before := sources[..|sources| - 1];
      UnchangedCount(u, a, before) + if Unchanged(ImportAll(u, a, before), a, sources[|sources| - 1]) then 1 else 0
  }

  function EntryTokens(entries: seq<Entry>): int {
    if entries == [] then 0 else EntryTokens(entries[..|entries| - 1]) + Tokens(entries[|entries| - 1].counters)
  }

  /** What an import reports, decided source by source against the tables as imported so far. */
  function Summary(u: UsageTables, a: AccountId, sources: seq<Source>): ImportResult {
    if sources == [] then ImportResult(0, 0, 0, 0) else
      var before, last := sources[..|sources| - 1], sources[|sources| - 1];
      var r := Summary(u, a, before);
      if Unchanged(ImportAll(u, a, before), a, last) then r.(unchangedSources := r.unchangedSources + 1)
      else ImportResult(r.importedSources + 1, r.unchangedSources, r.importedEntries + |last.entries|,
                        r.importedTokens + EntryTokens(last.entries))
  }

  lemma {:induction false} SummaryCounts(u: UsageTables, a: AccountId, sources: seq<Source>)
    ensures Summary(u, a, sources).unchangedSources == UnchangedCount(u, a, sources)
    ensures Summary(u, a, sources).importedSources + Summary(u, a, sources).unchangedSources == |sources|
  {
    if sources != [] { SummaryCounts(u, a, sources[..|sources| - 1]); }
  }

  lemma {:induction false} NothingImported(u: UsageTables, a: AccountId, sources: seq<Source>)
    requires Summary(u, a, sources).importedSources == 0
    ensures ImportAll(u, a, sources) == u
    ensures ViewConsistent(u, a) ==> Rebuilt(ImportAll(u, a, sources), u, a)
  {
    SummaryCounts(u, a, sources);
    AllUnchangedKeepsTables(u, a, sources);
    if ViewConsistent(u, a) { SkippingIsSound(u, a, sources); }
  }

  // ----- the view -----

  /** The entries of one account that fall into one day of one model. */
  ghost function Group(rows: map<EntryKey, Counters>, a: AccountId, date: Date, model: string): set<EntryKey> {
    set k | k in rows && k.account == a && k.date == date && k.model == model
  }

  predicate IsViewRow(row: DailyKey, a: AccountId) {
    row.account == a && row.provider == PROVIDER
  }

  /** The Codex rows of an account are the grouped sums of its stored entries. */
  ghost predicate ViewConsistent(u: UsageTables, a: AccountId) {
    forall row :: IsViewRow(row, a) ==>
      (row in u.daily <==> Group(u.entries, a, row.date, row.model) != {})
      && (row in u.daily ==> u.daily[row] == Sum(u.entries, Group(u.entries, a, row.date, row.model)))
  }

  /** Only the view of one account may differ, and it is consistent. */
  ghost predicate Rebuilt(u: UsageTables, v: UsageTables, a: AccountId) {
    && v.sources == u.sources && v.entries == u.entries && v.snapshots == u.snapshots && v.backfills == u.backfills
    && (forall row :: !IsViewRow(row, a) ==> (row in v.daily <==> row in u.daily) && (row in v.daily ==> v.daily[row] == u.daily[row]))
    && ViewConsistent(v, a)
  }

  /** Rebuilding has one possible outcome. */
  lemma RebuiltIsUnique(u: UsageTables, v: UsageTables, w: UsageTables, a: AccountId)
    requires Rebuilt(u, v, a) && Rebuilt(u, w, a)
    ensures v == w
  {
    assert forall row :: row in v.daily <==> row in w.daily by {
      forall row ensures row in v.daily <==> row in w.daily { assert IsViewRow(row, a) || !IsViewRow(row, a); }
    }
    assert forall row | row in v.daily :: v.daily[row] == w.daily[row] by {
      forall row | row in v.daily ensures v.daily[row] == w.daily[row] { assert IsViewRow(row, a) || !IsViewRow(row, a); }
    }
    assert v.daily == w.daily;
  }

  /** Not rebuilding when no source changed gives what a rebuild would have given. */
  lemma {:induction false} SkippingIsSound(u: UsageTables, a: AccountId, sources: seq<Source>)
    requires ViewConsistent(u, a) && UnchangedCount(u, a, sources) == |sources|
    ensures ImportAll(u, a, sources) == u && Rebuilt(ImportAll(u, a, sources), u, a)
  {
    AllUnchangedKeepsTables(u, a, sources);
  }

  lemma {:induction false} UnchangedCountIsBounded(u: UsageTables, a: AccountId, sources: seq<Source>)
    ensures UnchangedCount(u, a, sources) <= |sources|
  {
    if sources != [] { UnchangedCountIsBounded(u, a, sources[..|sources| - 1]); }
  }

  lemma {:induction false} AllUnchangedKeepsTables(u: UsageTables, a: AccountId, sources: seq<Source>)
    requires UnchangedCount(u, a, sources) == |sources|
    ensures ImportAll(u, a, sources) == u
    ensures forall s <- sources :: Unchanged(u, a, s)
  {
    if sources != [] {
      UnchangedCountIsBounded(u, a, sources[..|sources| - 1]);
      AllUnchangedKeepsTables(u, a, sources[..|sources| - 1]);
    }
  }

  lemma {:induction false} UnchangedSourcesCount(u: UsageTables, a: AccountId, sources: seq<Source>)
    requires forall s <- sources :: Unchanged(u, a, s)
    ensures UnchangedCount(u, a, sources) == |sources| && ImportAll(u, a, sources) == u
  {
    if sources != [] {
      UnchangedSourcesCount(u, a, sources[..|sources| - 1]);
      assert sources[|sources| - 1] in sources;
    }
  }

  // ----- laws of importing -----

  /** Importing does not look at the daily rows. */
  lemma {:induction false} ImportIgnoresDaily(u: UsageTables, daily: map<DailyKey, Counters>, a: AccountId, sources: seq<Source>)
    ensures ImportAll(u.(daily := daily), a, sources) == ImportAll(u, a, sources).(daily := daily)
    ensures UnchangedCount(u.(daily := daily), a, sources) == UnchangedCount(u, a, sources)
  {
    if sources != [] {
      ImportIgnoresDaily(u, daily, a, sources[..|sources| - 1]);
    }
  }

  lemma {:induction false} ImportKeepsDaily(u: UsageTables, a: AccountId, sources: seq<Source>)
    ensures ImportAll(u, a, sources).daily == u.daily
    ensures ImportAll(u, a, sources).snapshots == u.snapshots && ImportAll(u, a, sources).backfills == u.backfills
  {
    if sources != [] { ImportKeepsDaily(u, a, sources[..|sources| - 1]); }
  }

  lemma {:induction false} ImportSplits(u: UsageTables, a: AccountId, xs: seq<Source>, ys: seq<Source>)
    ensures ImportAll(u, a, xs + ys) == ImportAll(ImportAll(u, a, xs), a, ys)
    ensures UnchangedCount(u, a, xs + ys) == UnchangedCount(u, a, xs) + UnchangedCount(ImportAll(u, a, xs), a, ys)
  {
    if ys == [] {
      assert xs + ys == xs;
    } else {
      assert (xs + ys)[..|xs + ys| - 1] == xs + ys[..|ys| - 1];
      ImportSplits(u, a, xs, ys[..|ys| - 1]);
    }
  }

  /** Two imports in a row, each with its rebuild, give what one import of both batches gives. */
  lemma ImportsCompose(u: UsageTables, v: UsageTables, w: UsageTables, a: AccountId, xs: seq<Source>, ys: seq<Source>)
    requires Rebuilt(ImportAll(u, a, xs), v, a) && Rebuilt(ImportAll(v, a, ys), w, a)
    ensures Rebuilt(ImportAll(u, a, xs + ys), w, a)
    ensures UnchangedCount(u, a, xs + ys) == UnchangedCount(u, a, xs) + UnchangedCount(v, a, ys)
  {
    var m := ImportAll(u, a, xs);
    ImportSplits(u, a, xs, ys);
    assert v == m.(daily := v.daily);
    ImportIgnoresDaily(m, v.daily, a, ys);
    ImportKeepsDaily(v, a, ys);
    ImportKeepsDaily(m, a, ys);
  }

  lemma {:induction false} RowsOfSource(a: AccountId, id: string, entries: seq<Entry>)
    ensures forall k :: k in EntryRows(a, id, entries) ==> k.account == a && k.source == id
  {
    if entries != [] { RowsOfSource(a, id, entries[..|entries| - 1]); }
  }

  lemma UnchangedStays(u: UsageTables, a: AccountId, s: Source, t: Source)
    requires s.id != t.id
    ensures Unchanged(ImportOne(u, a, s), a, t) <==> Unchanged(u, a, t)
  {
    hide EntryRows, ReplaceEntries;
    assert SourceKey(a, s.id) != SourceKey(a, t.id);
  }

  /** Sources with different identifiers may be imported in either order. */
  lemma SourcesCommute(u: UsageTables, a: AccountId, s: Source, t: Source)
    requires s.id != t.id
    ensures ImportOne(ImportOne(u, a, s), a, t) == ImportOne(ImportOne(u, a, t), a, s)
  {
    hide EntryRows, ReplaceEntries, Unchanged;
    UnchangedStays(u, a, s, t);
    UnchangedStays(u, a, t, s);
    if !Unchanged(u, a, s) && !Unchanged(u, a, t) {
      RowsOfSource(a, s.id, s.entries);
      RowsOfSource(a, t.id, t.entries);
      ReplacementsCommute(u.entries, a, s.id, t.id, EntryRows(a, s.id, s.entries), EntryRows(a, t.id, t.entries));
      StampsCommute(u.sources, SourceKey(a, s.id), s.hash, SourceKey(a, t.id), t.hash);
    }
  }

  lemma StampsCommute(m: map<SourceKey, string>, j: SourceKey, x: string, k: SourceKey, y: string)
    requires j != k
    ensures m[j := x][k := y] == m[k := y][j := x]
  {
  }

  lemma ReplacementsCommute(
      rows: map<EntryKey, Counters>, a: AccountId, s: string, t: string,
      fs: map<EntryKey, Counters>, ft: map<EntryKey, Counters>)
    requires s != t
    requires forall k :: k in fs ==> k.account == a && k.source == s
    requires forall k :: k in ft ==> k.account == a && k.source == t
    ensures ReplaceEntries(ReplaceEntries(rows, a, s, fs), a, t, ft) == ReplaceEntries(ReplaceEntries(rows, a, t, ft), a, s, fs)
  {
    hide ReplaceEntries;
    var rs, rt := ReplaceEntries(rows, a, s, fs), ReplaceEntries(rows, a, t, ft);
    var st, ts := ReplaceEntries(rs, a, t, ft), ReplaceEntries(rt, a, s, fs);
    forall k: EntryKey ensures (k in st <==> k in ts) && (k in st ==> st[k] == ts[k]) {
      EntryAfterReplacement(rows, a, s, fs, k);
      EntryAfterReplacement(rows, a, t, ft, k);
      EntryAfterReplacement(rs, a, t, ft, k);
      EntryAfterReplacement(rt, a, s, fs, k);
    }
    assert st == ts;
  }

  lemma EntryAfterReplacement(rows: map<EntryKey, Counters>, a: AccountId, id: string, newRows: map<EntryKey, Counters>, k: EntryKey)
    requires forall k :: k in newRows ==> k.account == a && k.source == id
    ensures var after := ReplaceEntries(rows, a, id, newRows);
            if k.account == a && k.source == id
            then (k in after <==> k in newRows) && (k in after ==> after[k] == newRows[k])
            else (k in after <==> k in rows) && (k in after ==> after[k] == rows[k])
  {
  }

  /** In any batch, two neighbouring sources with different identifiers may be swapped. */
  lemma NeighboursCommute(u: UsageTables, a: AccountId, xs: seq<Source>, s: Source, t: Source, ys: seq<Source>)
    requires s.id != t.id
    ensures ImportAll(u, a, xs + [s, t] + ys) == ImportAll(u, a, xs + [t, s] + ys)
  {
    var m := ImportAll(u, a, xs);
    ImportSplits(u, a, xs + [s, t], ys);
    ImportSplits(u, a, xs + [t, s], ys);
    ImportSplits(u, a, xs, [s, t]);
    ImportSplits(u, a, xs, [t, s]);
    assert [s, t][..1] == [s] && [t, s][..1] == [t] && [s][..0] == [] && [t][..0] == [];
    SourcesCommute(u := m, a := a, s := s, t := t);
  }

  /** Sources of one identifier carry one content hash. */
  ghost predicate OneHashPerId(sources: seq<Source>) {
    forall i, j :: 0 <= i < |sources| && 0 <= j < |sources| && sources[i].id == sources[j].id ==> sources[i].hash == sources[j].hash
  }

  /** The content hash of the last occurrence of an identifier in a batch. */
  function LastHash(sources: seq<Source>, id: string): Option<string> {
    if sources == [] then None else
      var last := sources[|sources| - 1];
      if last.id == id then Some(last.hash) else LastHash(sources[..|sources| - 1], id)
  }

  function HashOf(u: UsageTables, a: AccountId, id: string): Option<string> {
    if SourceKey(a, id) in u.sources then Some(u.sources[SourceKey(a, id)]) else None
  }

  /** After an import the stored hash of an imported source is that of its last occurrence; other hashes stay. */
  lemma {:induction false} StoredHash(u: UsageTables, a: AccountId, sources: seq<Source>, id: string)
    ensures HashOf(ImportAll(u, a, sources), a, id) == if LastHash(sources, id).Some? then LastHash(sources, id) else HashOf(u, a, id)
    ensures LastHash(sources, id).Some? <==> exists s <- sources :: s.id == id
    ensures LastHash(sources, id).Some? ==> exists s <- sources :: s.id == id && LastHash(sources, id) == Some(s.hash)
  {
    if sources != [] {
      var before, last := sources[..|sources| - 1], sources[|sources| - 1];
      StoredHash(u, a, before, id);
      assert forall s :: s in sources <==> s in before || s == last;
      assert last.id != id ==> SourceKey(a, last.id) != SourceKey(a, id);
    }
  }

  /** Two stores agree on one source of an account: on its hash and on its entries. */
  ghost predicate SameSource(u: UsageTables, v: UsageTables, a: AccountId, id: string) {
    && HashOf(u, a, id) == HashOf(v, a, id)
    && forall k: EntryKey :: k.account == a && k.source == id ==>
         (k in u.entries <==> k in v.entries) && (k in u.entries ==> u.entries[k] == v.entries[k])
  }

  lemma ImportOneEntries(u: UsageTables, a: AccountId, s: Source)
    ensures var after, rows := ImportOne(u, a, s).entries, EntryRows(a, s.id, s.entries);
            forall k: EntryKey ::
              if !Unchanged(u, a, s) && k.account == a && k.source == s.id
              then (k in after <==> k in rows) && (k in after ==> after[k] == rows[k])
              else (k in after <==> k in u.entries) && (k in after ==> after[k] == u.entries[k])
  {
    hide EntryRows;
    RowsOfSource(a, s.id, s.entries);
  }

  lemma ImportOneHash(u: UsageTables, a: AccountId, s: Source, id: string)
    ensures HashOf(ImportOne(u, a, s), a, id) == if s.id == id then Some(s.hash) else HashOf(u, a, id)
  {
    hide EntryRows, ReplaceEntries;
    assert s.id != id ==> SourceKey(a, s.id) != SourceKey(a, id);
  }

  lemma ImportOneElsewhere(u: UsageTables, a: AccountId, s: Source, id: string)
    ensures s.id != id || Unchanged(u, a, s) ==> SameSource(ImportOne(u, a, s), u, a, id)
  {
    ImportOneHash(u, a, s, id);
    ImportOneEntries(u, a, s);
    hide EntryRows, ImportOne;
  }

  lemma ImportOneReplaces(u: UsageTables, v: UsageTables, a: AccountId, s: Source)
    ensures !Unchanged(u, a, s) && !Unchanged(v, a, s) ==> SameSource(ImportOne(u, a, s), ImportOne(v, a, s), a, s.id)
  {
    ImportOneHash(u, a, s, s.id);
    ImportOneHash(v, a, s, s.id);
    ImportOneEntries(u, a, s);
    ImportOneEntries(v, a, s);
    hide EntryRows, ImportOne;
  }

  /** What happens to one source depends on that source alone. */
  lemma ImportOneIsLocal(u: UsageTables, v: UsageTables, a: AccountId, s: Source, id: string)
    ensures SameSource(u, v, a, id) ==> SameSource(ImportOne(u, a, s), ImportOne(v, a, s), a, id)
    ensures s.id != id || Unchanged(u, a, s) ==> SameSource(ImportOne(u, a, s), u, a, id)
    ensures s.id == id && !Unchanged(u, a, s) && !Unchanged(v, a, s) ==> SameSource(ImportOne(u, a, s), ImportOne(v, a, s), a, id)
  {
    hide ImportOne, SameSource, Unchanged, HashOf;
    ImportOneElsewhere(u, a, s, id);
    ImportOneElsewhere(v, a, s, id);
    ImportOneReplaces(u, v, a, s);
    SameSourceTrans(a, id);
    UnchangedMeans(u, a, s);
    UnchangedMeans(v, a, s);
    SameHash(u, v, a, id);
  }

  lemma {:induction false} ImportAllIsLocal(u: UsageTables, v: UsageTables, a: AccountId, sources: seq<Source>, id: string)
    ensures SameSource(u, v, a, id) ==> SameSource(ImportAll(u, a, sources), ImportAll(v, a, sources), a, id)
    ensures LastHash(sources, id).None? ==> SameSource(ImportAll(u, a, sources), u, a, id)
  {
    if sources != [] {
      hide ImportOne, Unchanged;
      var before, last := sources[..|sources| - 1], sources[|sources| - 1];
      ImportAllIsLocal(u, v, a, before, id);
      ImportOneIsLocal(ImportAll(u, a, before), ImportAll(v, a, before), a, last, id);
    }
  }

  /** Importing a batch again leaves each source as the first import left it. */
  lemma {:induction false} ReimportKeepsSource(u: UsageTables, a: AccountId, sources: seq<Source>, id: string)
    ensures var v := ImportAll(u, a, sources); SameSource(ImportAll(v, a, sources), v, a, id)
  {
    if sources != [] {
      hide ImportOne, SameSource;
      var before, x := sources[..|sources| - 1], sources[|sources| - 1];
      var w, v := ImportAll(u, a, before), ImportAll(u, a, sources);
      var again := ImportAll(v, a, before);
      ReimportKeepsSource(u, a, before, id);
      ImportAllIsLocal(v, w, a, before, id);
      ImportOneIsLocal(w, w, a, x, id);
      ImportOneIsLocal(again, w, a, x, id);
      ImportOneIsLocal(again, again, a, x, id);
      StoredHash(u, a, before, id);
      StoredHash(v, a, before, id);
      StoredHash(u, a, sources, id);
      SameSourceTrans(a, id);
      UnchangedMeans(w, a, x);
      UnchangedMeans(again, a, x);
      SameHash(again, w, a, id);
      SameHash(again, v, a, id);
    }
  }

  lemma SameSourceTrans(a: AccountId, id: string)
    ensures forall u, v :: SameSource(u, v, a, id) ==> SameSource(v, u, a, id)
    ensures forall u, v, w :: SameSource(u, v, a, id) && SameSource(v, w, a, id) ==> SameSource(u, w, a, id)
  {
  }

  lemma UnchangedMeans(u: UsageTables, a: AccountId, s: Source)
    ensures Unchanged(u, a, s) <==> HashOf(u, a, s.id) == Some(s.hash)
    ensures Unchanged(u, a, s) ==> ImportOne(u, a, s) == u
  {
  }

  lemma SameHash(u: UsageTables, v: UsageTables, a: AccountId, id: string)
    ensures SameSource(u, v, a, id) ==> HashOf(u, a, id) == HashOf(v, a, id)
  {
  }

  /** Importing for one account leaves the sources of others alone. */
  lemma {:induction false} OtherSourcesStay(u: UsageTables, a: AccountId, sources: seq<Source>, k: SourceKey)
    requires k.account != a
    ensures k in ImportAll(u, a, sources).sources <==> k in u.sources
    ensures k in u.sources ==> ImportAll(u, a, sources).sources[k] == u.sources[k]
  {
    if sources != [] { OtherSourcesStay(u, a, sources[..|sources| - 1], k); }
  }

  /** Importing any batch again changes nothing, also one that gives an identifier two contents. */
  lemma ReimportChangesNothing(u: UsageTables, a: AccountId, sources: seq<Source>)
    ensures ImportAll(ImportAll(u, a, sources), a, sources) == ImportAll(u, a, sources)
  {
    hide ImportAll;
    var v := ImportAll(u, a, sources);
    var w := ImportAll(v, a, sources);
    forall k: SourceKey ensures (k in w.sources <==> k in v.sources) && (k in v.sources ==> w.sources[k] == v.sources[k]) {
      if k.account != a { OtherSourcesStay(v, a, sources, k); } else { ReimportKeepsSource(u, a, sources, k.source); }
    }
    forall k: EntryKey ensures (k in w.entries <==> k in v.entries) && (k in v.entries ==> w.entries[k] == v.entries[k]) {
      if k.account != a { OtherGroupsStay(v, a, sources, k); } else { ReimportKeepsSource(u, a, sources, k.source); }
    }
    assert w.sources == v.sources && w.entries == v.entries;
    ImportKeepsDaily(v, a, sources);
  }

  /** A second import of a batch leaves the tables and, rebuilt or not, the view as the first one did. */
  lemma ReimportKeepsView(u: UsageTables, v: UsageTables, w: UsageTables, a: AccountId, sources: seq<Source>)
    requires Rebuilt(ImportAll(u, a, sources), v, a) && Rebuilt(ImportAll(v, a, sources), w, a)
    ensures w == v
  {
    var m := ImportAll(u, a, sources);
    ReimportChangesNothing(u, a, sources);
    assert v == m.(daily := v.daily);
    ImportIgnoresDaily(m, v.daily, a, sources);
    RebuiltIsUnique(v, v, w, a);
  }

  /**
    Importing the same batch again reports every source as unchanged exactly
    when no identifier occurs in it with two different hashes; batches with
    distinct identifiers always qualify.  The tables stay the same either way.
  */
  lemma ReimportIsNoOp(u: UsageTables, a: AccountId, sources: seq<Source>)
    ensures UnchangedCount(ImportAll(u, a, sources), a, sources) == |sources| <==> OneHashPerId(sources)
    ensures ImportAll(ImportAll(u, a, sources), a, sources) == ImportAll(u, a, sources)
  {
    ReimportChangesNothing(u, a, sources);
    var m := ImportAll(u, a, sources);
    if OneHashPerId(sources) {
      forall s <- sources ensures Unchanged(m, a, s) {
        StoredHash(u, a, sources, s.id);
        var t :| t in sources && t.id == s.id && LastHash(sources, s.id) == Some(t.hash);
      }
      UnchangedSourcesCount(m, a, sources);
    }
    if UnchangedCount(m, a, sources) == |sources| {
      AllUnchangedKeepsTables(m, a, sources);
      forall i, j | 0 <= i < |sources| && 0 <= j < |sources| && sources[i].id == sources[j].id
        ensures sources[i].hash == sources[j].hash
      {
        assert Unchanged(m, a, sources[i]) && Unchanged(m, a, sources[j]);
      }
    }
  }

  lemma {:induction false} ReplacedKeepsIntact(accounts: set<AccountId>, u: UsageTables, a: AccountId, sources: seq<Source>)
    requires UsageIntact(accounts, u) && a in accounts
    ensures UsageIntact(accounts, ImportAll(u, a, sources))
  {
    if sources != [] {
      var last := sources[|sources| - 1];
      ReplacedKeepsIntact(accounts, u, a, sources[..|sources| - 1]);
      RowsOfSource(a, last.id, last.entries);
    }
  }

  /** Importing for one account leaves every other account's entries, and so its groups, alone. */
  lemma {:induction false} OtherGroupsStay(u: UsageTables, a: AccountId, sources: seq<Source>, k: EntryKey)
    requires k.account != a
    ensures k in ImportAll(u, a, sources).entries <==> k in u.entries
    ensures k in u.entries ==> ImportAll(u, a, sources).entries[k] == u.entries[k]
  {
    if sources != [] {
      var last := sources[|sources| - 1];
      OtherGroupsStay(u, a, sources[..|sources| - 1], k);
      RowsOfSource(a, last.id, last.entries);
    }
  }

  /** The views of other accounts stay consistent through an import. */
  lemma OtherViewsStay(u: UsageTables, v: UsageTables, a: AccountId, b: AccountId, sources: seq<Source>)
    requires a != b && ViewConsistent(u, b) && Rebuilt(ImportAll(u, a, sources), v, a)
    ensures ViewConsistent(v, b)
  {
    ImportKeepsDaily(u, a, sources);
    forall row | IsViewRow(row, b)
      ensures row in v.daily <==> Group(v.entries, b, row.date, row.model) != {}
      ensures row in v.daily ==> v.daily[row] == Sum(v.entries, Group(v.entries, b, row.date, row.model))
    {
      forall k: EntryKey | k.account == b
        ensures (k in v.entries <==> k in u.entries) && (k in u.entries ==> v.entries[k] == u.entries[k])
      {
        OtherGroupsStay(u, a, sources, k);
      }
      assert Group(v.entries, b, row.date, row.model) == Group(u.entries, b, row.date, row.model);
      SumsAgree(v.entries, u.entries, Group(u.entries, b, row.date, row.model));
    }
  }

  lemma OtherViewsStayAll(u: UsageTables, v: UsageTables, a: AccountId, sources: seq<Source>)
    requires Rebuilt(ImportAll(u, a, sources), v, a)
    ensures forall b :: b != a && ViewConsistent(u, b) ==> ViewConsistent(v, b)
  {
    forall b | b != a && ViewConsistent(u, b) ensures ViewConsistent(v, b) {
      OtherViewsStay(u, v, a, b, sources);
    }
  }

  // ----- what an import stores -----

  /** Each entry is stored with its own counters. */
  ghost predicate HoldsAll(rows: map<EntryKey, Counters>, a: AccountId, id: string, entries: seq<Entry>) {
    forall e <- entries :: e.date.Some? ==>
      EntryKey(a, id, e.date.value, e.model) in rows && rows[EntryKey(a, id, e.date.value, e.model)] == e.counters
  }

  /** The stored entries of a source are the given ones: each with its own counters, and no others. */
  ghost predicate HoldsEntries(rows: map<EntryKey, Counters>, a: AccountId, id: string, entries: seq<Entry>) {
    && HoldsAll(rows, a, id, entries)
    && (forall k <- rows :: k.account == a && k.source == id ==> exists e <- entries :: e.date == Some(k.date) && e.model == k.model)
  }

  /** The hash known for an identifier after a part of a batch: that of its last occurrence, otherwise the stored one. */
  function KnownHash(u: UsageTables, a: AccountId, sources: seq<Source>, id: string): Option<string> {
    if LastHash(sources, id).Some? then LastHash(sources, id) else HashOf(u, a, id)
  }

  /** The last source of a batch has another hash than the one known for its identifier by then. */
  predicate LastIsNew(u: UsageTables, a: AccountId, sources: seq<Source>)
    requires sources != []
  {
    var last := sources[|sources| - 1];
    KnownHash(u, a, sources[..|sources| - 1], last.id) != Some(last.hash)
  }

  /** The sources of a batch that change something, in order. */
  function NewSources(u: UsageTables, a: AccountId, sources: seq<Source>): seq<Source> {
    if sources == [] then [] else
      NewSources(u, a, sources[..|sources| - 1]) + if LastIsNew(u, a, sources) then [sources[|sources| - 1]] else []
  }

  function LastOf(sources: seq<Source>, id: string): Option<Source> {
    if sources == [] then None
    else if sources[|sources| - 1].id == id then Some(sources[|sources| - 1])
    else LastOf(sources[..|sources| - 1], id)
  }

  /** A source is stored with the hash and entries of the last new occurrence of its identifier; without one it stays. */
  ghost predicate SourceImported(u: UsageTables, v: UsageTables, a: AccountId, sources: seq<Source>, id: string) {
    match LastOf(NewSources(u, a, sources), id)
    case Some(s) => HashOf(v, a, id) == Some(s.hash) && HoldsEntries(v.entries, a, id, s.entries)
    case None => SameSource(v, u, a, id)
  }

  ghost predicate Imported(u: UsageTables, v: UsageTables, a: AccountId, sources: seq<Source>) {
    && (forall id :: SourceImported(u, v, a, sources, id))
    && (forall b, id :: b != a ==> SameSource(v, u, b, id))
  }

  lemma {:induction false} EntryRowsHold(a: AccountId, id: string, entries: seq<Entry>)
    requires DistinctEntries(entries)
    ensures HoldsEntries(EntryRows(a, id, entries), a, id, entries)
  {
    if entries != [] {
      var before, last := entries[..|entries| - 1], entries[|entries| - 1];
      EntryRowsHold(a, id, before);
      assert entries == before + [last];
    }
  }

  lemma HoldsElsewhere(rows: map<EntryKey, Counters>, others: map<EntryKey, Counters>, a: AccountId, id: string, entries: seq<Entry>)
    requires HoldsEntries(rows, a, id, entries)
    requires forall k: EntryKey :: k.account == a && k.source == id ==> (k in rows <==> k in others) && (k in rows ==> rows[k] == others[k])
    ensures HoldsEntries(others, a, id, entries)
  {
  }

  lemma ImportOneHolds(u: UsageTables, a: AccountId, s: Source)
    requires !Unchanged(u, a, s) && DistinctEntries(s.entries)
    ensures HoldsEntries(ImportOne(u, a, s).entries, a, s.id, s.entries)
  {
    hide HoldsEntries, HoldsAll, EntryRows, ImportOne, Unchanged, DistinctEntries;
    EntryRowsHold(a, s.id, s.entries);
    ImportOneEntries(u, a, s);
    HoldsElsewhere(EntryRows(a, s.id, s.entries), ImportOne(u, a, s).entries, a, s.id, s.entries);
  }

  /** A source is skipped exactly when it is not new. */
  lemma SkippedIsKnown(u: UsageTables, a: AccountId, sources: seq<Source>)
    requires sources != []
    ensures Unchanged(ImportAll(u, a, sources[..|sources| - 1]), a, sources[|sources| - 1]) <==> !LastIsNew(u, a, sources)
  {
    hide ImportAll, Unchanged, HashOf;
    var before, last := sources[..|sources| - 1], sources[|sources| - 1];
    StoredHash(u, a, before, last.id);
    UnchangedMeans(ImportAll(u, a, before), a, last);
  }

  lemma SourceStays(u: UsageTables, m: UsageTables, v: UsageTables, a: AccountId, sources: seq<Source>, id: string)
    requires SourceImported(u, m, a, sources, id) && SameSource(v, m, a, id)
    ensures SourceImported(u, v, a, sources, id)
  {
    hide NewSources, LastOf, HoldsEntries;
    if LastOf(NewSources(u, a, sources), id).Some? {
      HoldsElsewhere(m.entries, v.entries, a, id, LastOf(NewSources(u, a, sources), id).value.entries);
    }
  }

  lemma LastOfEnd(sources: seq<Source>, s: Source, id: string)
    ensures LastOf(sources + [s], id) == if s.id == id then Some(s) else LastOf(sources, id)
  {
    assert (sources + [s])[..|sources|] == sources;
  }

  /** One more source of a batch. */
  lemma NextSource(u: UsageTables, a: AccountId, sources: seq<Source>, id: string)
    requires sources != [] && DistinctEntries(sources[|sources| - 1].entries)
    requires SourceImported(u, ImportAll(u, a, sources[..|sources| - 1]), a, sources[..|sources| - 1], id)
    ensures SourceImported(u, ImportAll(u, a, sources), a, sources, id)
  {
    hide ImportOne, Unchanged, SameSource, HoldsEntries, LastIsNew, LastOf, HashOf, DistinctEntries;
    var before, last := sources[..|sources| - 1], sources[|sources| - 1];
    var m := ImportAll(u, a, before);
    SkippedIsKnown(u, a, sources);
    LastOfEnd(NewSources(u, a, before), last, id);
    if last.id == id && LastIsNew(u, a, sources) {
      ImportOneHolds(m, a, last);
      ImportOneHash(m, a, last, id);
    } else {
      ImportOneElsewhere(m, a, last, id);
      assert LastOf(NewSources(u, a, sources), id) == LastOf(NewSources(u, a, before), id) by {
        if !LastIsNew(u, a, sources) { assert NewSources(u, a, before) + [] == NewSources(u, a, before); }
      }
      SourceStays(u, m, ImportOne(m, a, last), a, before, id);
    }
  }

  lemma {:induction false} EverySourceIsImported(u: UsageTables, a: AccountId, sources: seq<Source>, id: string)
    requires forall s <- sources :: DistinctEntries(s.entries)
    ensures SourceImported(u, ImportAll(u, a, sources), a, sources, id)
  {
    if sources != [] {
      hide ImportAll, SourceImported, DistinctEntries;
      EverySourceIsImported(u, a, sources[..|sources| - 1], id);
      NextSource(u, a, sources, id);
    }
  }

  /** An import stores the entries of the batch, and no source of another account changes. */
  lemma {:induction false} BatchIsImported(u: UsageTables, v: UsageTables, a: AccountId, sources: seq<Source>)
    requires forall s <- sources :: ValidSource(s)
    requires v.sources == ImportAll(u, a, sources).sources && v.entries == ImportAll(u, a, sources).entries
    ensures Imported(u, v, a, sources)
  {
    hide ImportAll, SourceImported, DistinctEntries;
    var m := ImportAll(u, a, sources);
    forall id ensures SourceImported(u, v, a, sources, id) {
      EverySourceIsImported(u, a, sources, id);
      SourceStays(u, m, v, a, sources, id);
    }
    forall b, id | b != a ensures SameSource(v, u, b, id) {
      OtherSourcesStay(u, a, sources, SourceKey(b, id));
      forall k: EntryKey | k.account == b ensures (k in v.entries <==> k in u.entries) && (k in v.entries ==> v.entries[k] == u.entries[k]) {
        OtherGroupsStay(u, a, sources, k);
      }
    }
  }

  // ----- what an import reports -----

  function EntriesSum(entries: seq<Entry>): Counters {
    if entries == [] then ZERO else Add(EntriesSum(entries[..|entries| - 1]), entries[|entries| - 1].counters)
  }

  function BatchSum(sources: seq<Source>): Counters {
    if sources == [] then ZERO else Add(BatchSum(sources[..|sources| - 1]), EntriesSum(sources[|sources| - 1].entries))
  }

  function EntryCount(sources: seq<Source>): nat {
    if sources == [] then 0 else EntryCount(sources[..|sources| - 1]) + |sources[|sources| - 1].entries|
  }

  /** The report counts the new sources, their entries and their tokens. */
  ghost predicate Reports(r: ImportResult, u: UsageTables, a: AccountId, sources: seq<Source>) {
    var changed := NewSources(u, a, sources);
    && r.importedSources == |changed| && r.importedSources + r.unchangedSources == |sources|
    && r.importedEntries == EntryCount(changed)
    && r.importedTokens == BatchSum(changed).input + BatchSum(changed).output + BatchSum(changed).cache
  }

  lemma {:induction false} EntryTokensAddUp(entries: seq<Entry>)
    ensures EntryTokens(entries) == EntriesSum(entries).input + EntriesSum(entries).output + EntriesSum(entries).cache
  {
    if entries != [] { EntryTokensAddUp(entries[..|entries| - 1]); }
  }

  lemma BatchEnds(sources: seq<Source>, s: Source)
    ensures BatchSum(sources + [s]) == Add(BatchSum(sources), EntriesSum(s.entries))
    ensures EntryCount(sources + [s]) == EntryCount(sources) + |s.entries|
  {
    hide EntriesSum, Add;
    assert (sources + [s])[..|sources|] == sources;
  }

  lemma {:induction false} SummaryReports(u: UsageTables, a: AccountId, sources: seq<Source>)
    ensures Reports(Summary(u, a, sources), u, a, sources)
  {
    if sources != [] {
      hide Unchanged, ImportAll, LastIsNew, EntriesSum, BatchSum, EntryCount, EntryTokens;
      var before, last := sources[..|sources| - 1], sources[|sources| - 1];
      SummaryReports(u, a, before);
      SkippedIsKnown(u, a, sources);
      EntryTokensAddUp(last.entries);
      BatchEnds(NewSources(u, a, before), last);
      assert NewSources(u, a, before) + [] == NewSources(u, a, before);
    }
  }

  // ----- the view holds what was imported -----

  ghost function EntriesOfAccount(rows: map<EntryKey, Counters>, a: AccountId): set<EntryKey> {
    set k | k in rows && k.account == a
  }

  ghost function ViewRows(daily: map<DailyKey, Counters>, a: AccountId): set<DailyKey> {
    set row | row in daily && IsViewRow(row, a)
  }

  function RowOfEntry(k: EntryKey): DailyKey {
    DailyKey(k.date, k.account, PROVIDER, k.model)
  }

  lemma {:induction false} SumSplits<K(!new)>(rows: map<K, Counters>, xs: set<K>, ys: set<K>)
    requires xs !! ys && xs + ys <= rows.Keys
    ensures Sum(rows, xs + ys) == Add(Sum(rows, xs), Sum(rows, ys))
    decreases xs
  {
    if xs == {} {
      assert xs + ys == ys;
      assert Add(ZERO, Sum(rows, ys)) == Sum(rows, ys);
    } else {
      var k :| k in xs;
      assert (xs + ys) - {k} == (xs - {k}) + ys;
      SumTakesAny(rows, xs + ys, k);
      SumTakesAny(rows, xs, k);
      SumSplits(rows, xs - {k}, ys);
    }
  }

  lemma {:induction false} RowsHoldTheirGroups(u: UsageTables, a: AccountId, rows: set<DailyKey>)
    requires ViewConsistent(u, a) && rows <= ViewRows(u.daily, a)
    ensures Sum(u.daily, rows) == Sum(u.entries, set k | k in EntriesOfAccount(u.entries, a) && RowOfEntry(k) in rows)
    decreases rows
  {
    if rows == {} {
      assert (set k | k in EntriesOfAccount(u.entries, a) && RowOfEntry(k) in rows) == {};
    } else {
      var row :| row in rows;
      var group := Group(u.entries, a, row.date, row.model);
      var others := set k | k in EntriesOfAccount(u.entries, a) && RowOfEntry(k) in rows - {row};
      assert (set k | k in EntriesOfAccount(u.entries, a) && RowOfEntry(k) in rows) == group + others;
      RowsHoldTheirGroups(u, a, rows - {row});
      SumTakesAny(u.daily, rows, row);
      SumSplits(u.entries, group, others);
    }
  }

  /** The daily rows of an account add up to all its stored entries. */
  lemma ViewAddsUp(u: UsageTables, a: AccountId)
    requires ViewConsistent(u, a)
    ensures Sum(u.daily, ViewRows(u.daily, a)) == Sum(u.entries, EntriesOfAccount(u.entries, a))
  {
    var rows := ViewRows(u.daily, a);
    RowsHoldTheirGroups(u, a, rows);
    forall k | k in EntriesOfAccount(u.entries, a) ensures RowOfEntry(k) in rows {
      assert k in Group(u.entries, a, k.date, k.model);
      assert IsViewRow(RowOfEntry(k), a);
    }
    assert (set k | k in EntriesOfAccount(u.entries, a) && RowOfEntry(k) in rows) == EntriesOfAccount(u.entries, a);
  }

  ghost function KeysOfSource(rows: map<EntryKey, Counters>, a: AccountId, id: string): set<EntryKey> {
    set k | k in rows && k.account == a && k.source == id
  }

  lemma LastEntryIsNew(a: AccountId, id: string, entries: seq<Entry>)
    requires DistinctEntries(entries) && entries != [] && entries[|entries| - 1].date.Some?
    ensures var last := entries[|entries| - 1];
            var key := EntryKey(a, id, last.date.value, last.model);
            var earlier := EntryRows(a, id, entries[..|entries| - 1]).Keys;
            key !in earlier && EntryRows(a, id, entries).Keys == earlier + {key}
  {
    var before, last := entries[..|entries| - 1], entries[|entries| - 1];
    EntryRowsHold(a, id, before);
    assert forall e <- before :: e.date != last.date || e.model != last.model;
  }

  lemma {:induction false} SourceAddsUp(rows: map<EntryKey, Counters>, a: AccountId, id: string, entries: seq<Entry>)
    requires DistinctEntries(entries) && forall e <- entries :: e.date.Some?
    requires HoldsAll(rows, a, id, entries)
    ensures EntryRows(a, id, entries).Keys <= rows.Keys
    ensures Sum(rows, EntryRows(a, id, entries).Keys) == EntriesSum(entries)
  {
    if entries != [] {
      hide EntryRows, DistinctEntries, Add;
      var before, last := entries[..|entries| - 1], entries[|entries| - 1];
      assert entries == before + [last] && last in entries;
      DistinctBefore(entries);
      SourceAddsUp(rows, a, id, before);
      LastEntryIsNew(a, id, entries);
      var key := EntryKey(a, id, last.date.value, last.model);
      var keys, earlier := EntryRows(a, id, entries).Keys, EntryRows(a, id, before).Keys;
      assert keys - {key} == earlier;
      SumTakesAny(rows, keys, key);
      AddIsSymmetric(rows[key], EntriesSum(before));
    }
  }

  lemma DistinctBefore(entries: seq<Entry>)
    requires DistinctEntries(entries) && entries != []
    ensures DistinctEntries(entries[..|entries| - 1])
  {
  }

  ghost predicate DistinctIds(sources: seq<Source>) {
    forall i, j :: 0 <= i < j < |sources| ==> sources[i].id != sources[j].id
  }

  /** The entries of several sources, each stored in full. */
  lemma {:induction false} SourcesAddUp(rows: map<EntryKey, Counters>, a: AccountId, sources: seq<Source>)
    requires DistinctIds(sources) && forall s <- sources :: ValidSource(s) && HoldsEntries(rows, a, s.id, s.entries)
    ensures Sum(rows, set k | k in rows && k.account == a && exists s <- sources :: s.id == k.source) == BatchSum(sources)
  {
    var all := set k | k in rows && k.account == a && exists s <- sources :: s.id == k.source;
    if sources == [] {
      assert all == {};
    } else {
      hide ValidSource, HoldsEntries;
      var before, last := sources[..|sources| - 1], sources[|sources| - 1];
      assert sources == before + [last];
      var earlier := set k | k in rows && k.account == a && exists s <- before :: s.id == k.source;
      var own := KeysOfSource(rows, a, last.id);
      assert all == earlier + own;
      SourcesAddUp(rows, a, before);
      HeldSourceAddsUp(rows, a, last);
      SumSplits(rows, earlier, own);
    }
  }

  lemma SameEntryKeys(rows: map<EntryKey, Counters>, others: map<EntryKey, Counters>, a: AccountId, id: string, entries: seq<Entry>)
    requires HoldsEntries(rows, a, id, entries) && HoldsEntries(others, a, id, entries) && forall e <- entries :: e.date.Some?
    requires forall k :: k in others ==> k.account == a && k.source == id
    ensures KeysOfSource(rows, a, id) == others.Keys
  {
    forall k ensures k in KeysOfSource(rows, a, id) <==> k in others {
      if k in rows && k.account == a && k.source == id {
        var e :| e in entries && e.date == Some(k.date) && e.model == k.model;
        assert k == EntryKey(a, id, e.date.value, e.model);
      }
      if k in others {
        var e :| e in entries && e.date == Some(k.date) && e.model == k.model;
        assert k == EntryKey(a, id, e.date.value, e.model);
      }
    }
  }

  lemma HeldSourceAddsUp(rows: map<EntryKey, Counters>, a: AccountId, s: Source)
    requires ValidSource(s) && HoldsEntries(rows, a, s.id, s.entries)
    ensures Sum(rows, KeysOfSource(rows, a, s.id)) == EntriesSum(s.entries)
  {
    hide Sum, EntriesSum, EntryRows;
    assert forall e <- s.entries :: AcceptableEntry(e);
    SourceAddsUp(rows, a, s.id, s.entries);
    EntryRowsHold(a, s.id, s.entries);
    RowsOfSource(a, s.id, s.entries);
    SameEntryKeys(rows, EntryRows(a, s.id, s.entries), a, s.id, s.entries);
  }

  lemma {:induction false} AllAreNew(u: UsageTables, a: AccountId, sources: seq<Source>)
    requires DistinctIds(sources) && forall k <- u.sources :: k.account != a
    ensures NewSources(u, a, sources) == sources
  {
    if sources != [] {
      hide LastHash, ImportAll;
      var before, last := sources[..|sources| - 1], sources[|sources| - 1];
      AllAreNew(u, a, before);
      StoredHash(u, a, before, last.id);
      assert forall s <- before :: s.id != last.id;
      assert sources == before + [last];
    }
  }

  lemma {:induction false} OnlyOccurrenceIsLast(sources: seq<Source>)
    requires DistinctIds(sources)
    ensures forall s <- sources :: LastOf(sources, s.id) == Some(s)
    ensures forall id :: LastOf(sources, id).Some? ==> LastOf(sources, id).value in sources && LastOf(sources, id).value.id == id
  {
    if sources != [] {
      OnlyOccurrenceIsLast(sources[..|sources| - 1]);
      assert sources == sources[..|sources| - 1] + [sources[|sources| - 1]];
    }
  }

  /**
    A batch with distinct identifiers that is imported into an account without
    sources leaves daily rows that add up, counter by counter, to its entries.
  */
  lemma ImportAddsUp(u: UsageTables, v: UsageTables, a: AccountId, sources: seq<Source>, accounts: set<AccountId>)
    requires UsageIntact(accounts, u) && forall k <- u.sources :: k.account != a
    requires DistinctIds(sources) && forall s <- sources :: ValidSource(s)
    requires Imported(u, v, a, sources) && ViewConsistent(v, a)
    ensures Sum(v.daily, ViewRows(v.daily, a)) == BatchSum(sources)
  {
    hide ValidSource, HoldsAll, ViewConsistent, DistinctIds, NewSources, LastOf;
    AllAreNew(u, a, sources);
    OnlyOccurrenceIsLast(sources);
    forall s <- sources ensures HoldsEntries(v.entries, a, s.id, s.entries) {
      assert SourceImported(u, v, a, sources, s.id);
    }
    forall k | k in EntriesOfAccount(v.entries, a) ensures exists s <- sources :: s.id == k.source {
      assert SourceImported(u, v, a, sources, k.source);
    }
    assert EntriesOfAccount(v.entries, a) == set k | k in v.entries && k.account == a && exists s <- sources :: s.id == k.source;
    SourcesAddUp(v.entries, a, sources);
    ViewAddsUp(v, a);
  }

  // ----- the store -----

  ghost predicate Accepted(db: Db, a: AccountId, sources: seq<Source>) {
    && a != "" && 1 <= |sources| <= 500 && (forall s <- sources :: ValidSource(s))
    && a in db.accounts && db.accounts[a] == PROVIDER
  }

  class CodexUsageStore {
    var db: Db

    constructor (initial: Db)
      ensures db == initial
    {
      db := initial;
    }

    /** Imports a batch for a Codex account and rebuilds its daily rows when at least one source changed. */
    method ReplaceCodexUsageSources(a: AccountId, sources: seq<Source>, mayFail: bool) returns (r: Result<ImportResult, ImportError>)
      requires UsageIntact(db.accounts.Keys, db.usage)
      modifies this
      ensures r.Err? ==> db == old(db)
      ensures r == Err(BadRequest) <==> a == "" || !(1 <= |sources| <= 500)
      ensures r.Err? && r.error.Invalid? ==>
                && r.error.index < |sources| && !ValidSource(sources[r.error.index])
                && forall i | 0 <= i < r.error.index :: ValidSource(sources[i])
      ensures r.Ok? ==> a in db.accounts && db.accounts[a] == PROVIDER && forall s <- sources :: ValidSource(s)
      ensures UsageIntact(db.accounts.Keys, db.usage) && db.accounts == old(db.accounts)
      ensures r == Err(SqlError) ==> mayFail
      ensures r == Err(NoAccount) ==> a !in db.accounts
      ensures r == Err(NotCodex) ==> a in db.accounts && db.accounts[a] != PROVIDER
      ensures !mayFail && Accepted(db, a, sources) ==> r.Ok?
      ensures r.Ok? ==> Imported(old(db.usage), db.usage, a, sources) && Reports(r.value, old(db.usage), a, sources)
      ensures r.Ok? ==> r.value == Summary(old(db.usage), a, sources)
      ensures r.Ok? && r.value.importedSources == 0 ==> db == old(db)
      ensures r.Ok? && (r.value.importedSources > 0 || ViewConsistent(old(db.usage), a)) ==>
                Rebuilt(ImportAll(old(db.usage), a, sources), db.usage, a)
      ensures forall b :: b != a && ViewConsistent(old(db.usage), b) ==> ViewConsistent(db.usage, b)
    {
      hide ViewConsistent, Rebuilt, EntryRows, ReplaceEntries, ImportAll, Summary, UsageIntact, ValidSource, Imported, Reports;
      if a == "" || !(1 <= |sources| <= 500) { return Err(BadRequest); }
      var invalid := ValidateSources(sources);
      if invalid.Some? { return Err(Invalid(invalid.value)); }
      var failed: bool := *;
      if mayFail && failed { return Err(SqlError); }
      if a !in db.accounts { return Err(NoAccount); }
      if db.accounts[a] != PROVIDER { return Err(NotCodex); }
      var batch := InsertSources(db.usage, a, sources, mayFail);
      failed := *;
      if batch.None? || (mayFail && failed) { return Err(SqlError); }
      var (tx, result) := batch.value;
      ghost var u := db.usage;
      ReplacedKeepsIntact(db.accounts.Keys, u, a, sources);
      SummaryReports(u, a, sources);
      if result.importedSources > 0 {
        tx := RebuildView(tx, a);
        RebuiltTables(ImportAll(u, a, sources), tx, a);
        RebuiltKeepsIntact(db.accounts.Keys, ImportAll(u, a, sources), tx, a);
        OtherViewsStayAll(u, tx, a, sources);
      } else {
        NothingImported(u, a, sources);
      }
      BatchIsImported(u, tx, a, sources);
      db := db.(usage := tx);
      return Ok(result);
    }

    /** The position of the first invalid source. */
    method ValidateSources(sources: seq<Source>) returns (invalid: Option<nat>)
      ensures invalid.None? ==> forall s <- sources :: ValidSource(s)
      ensures invalid.Some? ==>
                && invalid.value < |sources| && !ValidSource(sources[invalid.value])
                && forall i | 0 <= i < invalid.value :: ValidSource(sources[i])
    {
      hide ValidSource;
      for i := 0 to |sources|
        invariant forall j | 0 <= j < i :: ValidSource(sources[j])
      {
        var ok := ValidateSource(sources[i]);
        if !ok { return Some(i); }
      }
      return None;
    }

    /** The import loop of the transaction; nothing is returned when a statement fails. */
    method InsertSources(u: UsageTables, a: AccountId, sources: seq<Source>, mayFail: bool) returns (batch: Option<(UsageTables, ImportResult)>)
      requires forall s <- sources :: ValidSource(s)
      ensures batch.None? ==> mayFail
      ensures batch.Some? ==> batch.value == (ImportAll(u, a, sources), Summary(u, a, sources))
    {
      hide ValidSource, EntryRows, ReplaceEntries;
      var tx, result := u, ImportResult(0, 0, 0, 0);
      for i := 0 to |sources|
        invariant tx == ImportAll(u, a, sources[..i])
        invariant result == Summary(u, a, sources[..i])
      {
        assert sources[..i + 1][..i] == sources[..i];
        var s := sources[i];
        if Unchanged(tx, a, s) {
          result := result.(unchangedSources := result.unchangedSources + 1);
        } else {
          var failed: bool := *;
          if mayFail && failed { return None; }
          var entries, count, tokens := InsertEntries(tx.entries, a, s);
          tx := tx.(sources := tx.sources[SourceKey(a, s.id) := s.hash], entries := entries);
          result := ImportResult(result.importedSources + 1, result.unchangedSources,
                                 result.importedEntries + count, result.importedTokens + tokens);
        }
      }
      assert sources[..|sources|] == sources;
      return Some((tx, result));
    }

    /** The rows of one account are deleted and selected anew from its entries. */
    method RebuildView(u: UsageTables, a: AccountId) returns (v: UsageTables)
      ensures Rebuilt(u, v, a)
    {
      var daily := GroupByDayAndModel(u.daily, u.entries, a);
      v := u.(daily := daily);
    }

    /** Deletes the old entries of a source and inserts the new ones. */
    method InsertEntries(rows: map<EntryKey, Counters>, a: AccountId, s: Source)
      returns (entries: map<EntryKey, Counters>, count: nat, tokens: int)
      requires ValidSource(s)
      ensures entries == ReplaceEntries(rows, a, s.id, EntryRows(a, s.id, s.entries))
      ensures count == |s.entries| && tokens == EntryTokens(s.entries)
    {
      var kept := map k | k in rows && !(k.account == a && k.source == s.id) :: rows[k];
      entries, count, tokens := kept, 0, 0;
      for i := 0 to |s.entries|
        invariant entries == kept + EntryRows(a, s.id, s.entries[..i])
        invariant count == i && tokens == EntryTokens(s.entries[..i])
      {
        assert s.entries[..i + 1][..i] == s.entries[..i];
        var e := s.entries[i];
        assert AcceptableEntry(e);
        entries := entries[EntryKey(a, s.id, e.date.value, e.model) := e.counters];
        count, tokens := count + 1, tokens + Tokens(e.counters);
      }
      assert s.entries[..|s.entries|] == s.entries;
    }

    /** The grouped sums of an account's entries replace its Codex rows. */
    method GroupByDayAndModel(daily: map<DailyKey, Counters>, rows: map<EntryKey, Counters>, a: AccountId)
      returns (after: map<DailyKey, Counters>)
      ensures forall row :: !IsViewRow(row, a) ==> (row in after <==> row in daily) && (row in after ==> after[row] == daily[row])
      ensures forall row :: IsViewRow(row, a) ==>
                (row in after <==> Group(rows, a, row.date, row.model) != {})
                && (row in after ==> after[row] == Sum(rows, Group(rows, a, row.date, row.model)))
    {
      after := map row | row in daily && !IsViewRow(row, a) :: daily[row];
      var remaining := set k | k in rows && k.account == a;
      ghost var done: set<EntryKey> := {};
      while remaining != {}
        invariant done + remaining == (set k | k in rows && k.account == a) && done !! remaining
        invariant forall row :: !IsViewRow(row, a) ==> (row in after <==> row in daily) && (row in after ==> after[row] == daily[row])
        invariant forall row :: IsViewRow(row, a) ==>
                    (row in after <==> Group(rows, a, row.date, row.model) * done != {})
                    && (row in after ==> after[row] == Sum(rows, Group(rows, a, row.date, row.model) * done))
        decreases remaining
      {
        var k :| k in remaining;
        var row := DailyKey(k.date, a, PROVIDER, k.model);
        ghost var more := done + {k};
        forall other | IsViewRow(other, a) && other != row
          ensures Group(rows, a, other.date, other.model) * more == Group(rows, a, other.date, other.model) * done
        {
        }
        ghost var group := Group(rows, a, k.date, k.model);
        assert group * more == group * done + {k} && (group * more) - {k} == group * done;
        SumTakesAny(rows, group * more, k);
        after := after[row := if row in after then Add(rows[k], after[row]) else rows[k]];
        if group * done == {} { assert Add(rows[k], ZERO) == rows[k]; }
        done := more;
        remaining := remaining - {k};
      }
      forall row | IsViewRow(row, a)
        ensures Group(rows, a, row.date, row.model) * done == Group(rows, a, row.date, row.model)
      {
      }
    }
  }

  lemma RebuiltTables(u: UsageTables, v: UsageTables, a: AccountId)
    requires Rebuilt(u, v, a)
    ensures v.sources == u.sources && v.entries == u.entries
  {
  }

  lemma RebuiltKeepsIntact(accounts: set<AccountId>, u: UsageTables, v: UsageTables, a: AccountId)
    requires UsageIntact(accounts, u) && Rebuilt(u, v, a) && a in accounts
    ensures UsageIntact(accounts, v)
  {
    forall row | row in v.daily ensures row.account in accounts {
      assert IsViewRow(row, a) || row in u.daily;
    }
  }
}
