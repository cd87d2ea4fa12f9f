/** Saving and deleting connected accounts, one transaction each. */
module AccountStore {
  import opened Prelude
  import opened Schema

  datatype StoreError = NoRows | SqlError

  class AccountStore {
    var db: Db

    constructor (initial: Db)
      ensures db == initial
    {
      db := initial;
    }

    /** Upserts the account, its credential and its quota windows; if statements may fail, any of them rolls all back. */
    method SaveConnectedAccount(a: AccountId, provider: string, credential: string, windows: seq<Signal>, mayFail: bool)
      returns (r: Result<(), StoreError>)
      modifies this
      ensures r.Err? ==> mayFail
      ensures r.Ok? ==> db.accounts.Keys == old(db).accounts.Keys + {a}
      ensures r.Ok? ==> db.credentials == old(db).credentials[a := credential] && db.windows == old(db).windows[a := windows]
      ensures r.Ok? ==> db == WithAccount(old(db), a, provider, credential, windows)
      ensures r.Err? ==> db == old(db)
    {
      var failed: bool := *;
      if mayFail && failed { return Err(SqlError); }
      var tx := db;
      tx := tx.(accounts := tx.accounts[a := if a in tx.accounts then tx.accounts[a] else provider]);
      tx := tx.(credentials := tx.credentials[a := credential]);
      tx := tx.(windows := tx.windows - {a});
      var rows: seq<Signal> := [];
      for i := 0 to |windows|
        invariant rows == windows[..i]
      {
        var rejected: bool := *;
        if mayFail && rejected { return Err(SqlError); }
        rows := rows + [windows[i]];
      }
      tx := tx.(windows := tx.windows[a := rows]);
      failed := *;
      if mayFail && failed { return Err(SqlError); }
      db := tx;
      assert rows == windows;
      assert db.windows == old(db).windows[a := windows];
      return Ok(());
    }

    /** The statements in order, then the cascade of the usage import tables; if they may fail, any of them rolls all back. */
    method DeleteConnectedAccount(a: AccountId, mayFail: bool) returns (r: Result<(), StoreError>)
      modifies this
      ensures !mayFail && a in old(db).accounts ==> r.Ok?
      ensures r.Ok? ==> a in old(db).accounts
      ensures r.Ok? && Intact(old(db)) ==> db == WithoutAccount(old(db), a)
      ensures r.Err? ==> db == old(db)
      ensures a !in old(db).accounts ==> r == Err(NoRows)
    {
      if a !in db.accounts { return Err(NoRows); }
      var tx := DeleteRows(db, a, mayFail);
      if tx.None? { return Err(SqlError); }
      db := tx.value;
      return Ok(());
    }

    /** The statements of the transaction; nothing is returned when one of them fails. */
    method DeleteRows(was: Db, a: AccountId, mayFail: bool) returns (tx: Option<Db>)
      ensures tx.None? ==> mayFail
      ensures tx.Some? && Intact(was) ==> tx.value == WithoutAccount(was, a)
    {
      hide UsageIntact;
      var Db(accounts, credentials, windows, channels, events, alerts, deliveries, states, usage) := was;
      var UsageTables(backfills, daily, snapshots, sources, entries) := usage;
      var failed: bool := *;
      if mayFail && failed { return None; }
      alerts := set k | k in alerts && !(k in events && events[k] == a);
      deliveries := set d | d in deliveries && !(d.key in events && events[d.key] == a);
      states := map k | k in states && states[k].account != a :: states[k];
      events := map k | k in events && events[k] != a :: events[k];
      failed := *;
      if mayFail && failed { return None; }
      backfills := map k | k in backfills && k.account != a :: backfills[k];
      daily := map k | k in daily && k.account != a :: daily[k];
      snapshots := map k | k in snapshots && k.account != a :: snapshots[k];
      failed := *;
      if mayFail && failed { return None; }
      windows := windows - {a};
      credentials := credentials - {a};
      accounts := accounts - {a};
      // ON DELETE CASCADE: the import sources go with the account, their entries with the sources.
      sources := map k | k in sources && k.account != a :: sources[k];
      entries := map k | k in entries && SourceKey(k.account, k.source) in sources :: entries[k];
      failed := *;
      if mayFail && failed { return None; }
      if Intact(was) { EntriesCascade(was.usage, was.accounts.Keys, a); }
      return Some(Db(accounts, credentials, windows, channels, events, alerts, deliveries, states,
                     UsageTables(backfills, daily, snapshots, sources, entries)));
    }
  }

  /** Dropping entries whose source went with the account drops exactly the account's entries. */
  lemma EntriesCascade(u: UsageTables, accounts: set<AccountId>, a: AccountId)
    requires UsageIntact(accounts, u)
    ensures var sources := map k | k in u.sources && k.account != a :: u.sources[k];
            (map k | k in u.entries && SourceKey(k.account, k.source) in sources :: u.entries[k])
            == UsageWithout(u, a).entries
  {
  }

  /** After a deletion no table holds a row of the account and no alert of its events is left. */
  lemma DeletionRemovesEverything(db: Db, a: AccountId)
    requires Intact(db) && Owned(db)
    ensures Absent(WithoutAccount(db, a), a)
  {
  }

  lemma UsageDeletionIsLocal(u: UsageTables, a: AccountId)
    ensures SameUsageForOthers(u, UsageWithout(u, a), a)
  {
  }

  lemma NotificationDeletionIsLocal(db: Db, a: AccountId)
    requires Owned(db)
    ensures SameNotificationsForOthers(db, WithoutAccount(db, a), a)
  {
  }

  /** A deletion touches nobody else's rows or alerts. */
  lemma DeletionIsLocal(db: Db, a: AccountId)
    requires Intact(db) && Owned(db)
    ensures SameForOthers(db, WithoutAccount(db, a), a)
  {
    UsageDeletionIsLocal(db.usage, a);
    NotificationDeletionIsLocal(db, a);
  }

  /** A deletion leaves no dangling reference. */
  lemma DeletionKeepsReferences(db: Db, a: AccountId)
    requires Intact(db) && Owned(db)
    ensures Intact(WithoutAccount(db, a)) && Owned(WithoutAccount(db, a))
  {
  }

  /** Saving an account keeps every reference. */
  lemma SavingKeepsReferences(db: Db, a: AccountId, provider: string, credential: string, windows: seq<Signal>)
    requires Intact(db) && Owned(db)
    ensures Intact(WithAccount(db, a, provider, credential, windows))
    ensures Owned(WithAccount(db, a, provider, credential, windows))
  {
    assert db.accounts.Keys <= WithAccount(db, a, provider, credential, windows).accounts.Keys;
  }

  /** Saving an account touches nobody else's rows, and never moves an account to another provider. */
  lemma SavingIsLocal(db: Db, a: AccountId, provider: string, credential: string, windows: seq<Signal>)
    ensures SameForOthers(db, WithAccount(db, a, provider, credential, windows), a)
    ensures a in db.accounts ==> WithAccount(db, a, provider, credential, windows).accounts == db.accounts
  {
    if a in db.accounts {
      assert db.accounts[a := db.accounts[a]] == db.accounts;
    }
  }
}
