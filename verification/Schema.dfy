/**
  The tables of the SQLite store as finite maps, with the foreign keys of the
  migrations.  Identifiers that the program builds by joining fields with ":"
  are tuples here, and a hash of such a key is represented by the key itself.
*/
module Schema {
  import opened Prelude

  type AccountId = string
  type ChannelId = string
  type Date = int
  /** Nanoseconds since the epoch. */
  type Time = int

  const SECOND: int := 1_000_000_000
  const MINUTE: int := 60 * SECOND
  const HOUR: int := 60 * MINUTE
  const DAY: int := 24 * HOUR

  /** A time printed with whole-second precision. */
  function Seconds(t: Time): int {
    t / SECOND
  }

  datatype Signal = Signal(
    kind: string, name: string, unit: string, source: string,
    total: Option<real>, remainingPercent: Option<real>, windowSeconds: int,
    resetAt: Option<Time>, expiresAt: Option<Time>)

  /** The fields of a quota window that survive a refresh. */
  datatype Identity = Identity(
    kind: string, name: string, unit: string, source: string,
    total: Option<real>, windowSeconds: int, resetAt: Option<int>, expiresAt: Option<int>)

  datatype EventKey =
    | LowQuota(account: AccountId, identity: Identity, at: Time)
    | QuotaReset(days: int, account: AccountId, identity: Identity, reset: int)
    | ActivityFailed(account: AccountId, activity: string, date: Date)
    | ActivityCompleted(account: AccountId, activity: string, date: Date)

  datatype StateKey =
    | LowQuotaState(account: AccountId, identity: Identity)
    | QuotaResetState(account: AccountId, identity: Identity)
    | ActivityAttempt(account: AccountId, activity: string, date: Date)

  datatype StateValue =
    | Active(key: EventKey)
    | Clear
    | Running(stamp: int)
    | Failed(stamp: int)
    | Completed(stamp: int)

  datatype StateRow = StateRow(account: AccountId, value: StateValue)

  datatype Receipt = Receipt(key: EventKey, channel: ChannelId)

  datatype Counters = Counters(input: int, output: int, cache: int, requests: int)

  datatype Snapshot = Snapshot(counters: Counters, capturedAt: Time)

  datatype DailyKey = DailyKey(date: Date, account: AccountId, provider: string, model: string)
  datatype SeriesKey = SeriesKey(account: AccountId, provider: string, model: string)
  datatype SourceKey = SourceKey(account: AccountId, source: string)
  datatype EntryKey = EntryKey(account: AccountId, source: string, date: Date, model: string)
  datatype BackfillKey = BackfillKey(account: AccountId, provider: string, source: string)

  datatype UsageTables = UsageTables(
    backfills: map<BackfillKey, Time>,
    daily: map<DailyKey, Counters>,
    snapshots: map<SeriesKey, Snapshot>,
    sources: map<SourceKey, string>,
    entries: map<EntryKey, Counters>)

  datatype Db = Db(
    accounts: map<AccountId, string>,
    credentials: map<AccountId, string>,
    windows: map<AccountId, seq<Signal>>,
    channels: map<ChannelId, bool>,
    events: map<EventKey, AccountId>,
    alerts: set<EventKey>,
    deliveries: set<Receipt>,
    states: map<StateKey, StateRow>,
    usage: UsageTables)

  /** Every child row of the usage tables has its parent. */
  predicate UsageIntact(accounts: set<AccountId>, u: UsageTables) {
    && (forall k :: k in u.backfills ==> k.account in accounts)
    && (forall k :: k in u.daily ==> k.account in accounts)
    && (forall k :: k in u.snapshots ==> k.account in accounts)
    && (forall k :: k in u.sources ==> k.account in accounts)
    && (forall k :: k in u.entries ==> SourceKey(k.account, k.source) in u.sources)
  }

  /** The foreign keys of every table. */
  ghost predicate Intact(db: Db) {
    && db.credentials.Keys <= db.accounts.Keys
    && db.windows.Keys <= db.accounts.Keys
    && (forall k :: k in db.events ==> db.events[k] in db.accounts)
    && (forall r :: r in db.deliveries ==> r.key in db.events && r.channel in db.channels)
    && (forall k :: k in db.states ==> db.states[k].account in db.accounts)
    && UsageIntact(db.accounts.Keys, db.usage)
  }

  /** The usage tables without the rows of one account. */
  function UsageWithout(u: UsageTables, a: AccountId): UsageTables {
    UsageTables(
      map k | k in u.backfills && k.account != a :: u.backfills[k],
      map k | k in u.daily && k.account != a :: u.daily[k],
      map k | k in u.snapshots && k.account != a :: u.snapshots[k],
      map k | k in u.sources && k.account != a :: u.sources[k],
      map k | k in u.entries && k.account != a :: u.entries[k])
  }

  /** The store without one account and everything that belongs to it. */
  function WithoutAccount(db: Db, a: AccountId): Db {
    Db(
      db.accounts - {a},
      db.credentials - {a},
      db.windows - {a},
      db.channels,
      map k | k in db.events && db.events[k] != a :: db.events[k],
      set k | k in db.alerts && !(k in db.events && db.events[k] == a),
      set r | r in db.deliveries && !(r.key in db.events && db.events[r.key] == a),
      map k | k in db.states && db.states[k].account != a :: db.states[k],
      UsageWithout(db.usage, a))
  }

  /** Saving an account keeps the provider it was first stored with. */
  function WithAccount(db: Db, a: AccountId, provider: string, credential: string, windows: seq<Signal>): Db {
    db.(accounts := db.accounts[a := if a in db.accounts then db.accounts[a] else provider],
        credentials := db.credentials[a := credential],
        windows := db.windows[a := windows])
  }

  /** Deleting a channel cascades to its receipts. */
  function WithoutChannel(db: Db, c: ChannelId): Db {
    db.(channels := db.channels - {c},
        deliveries := set r | r in db.deliveries && r.channel != c)
  }

  /** The notification tables agree on who owns a row. */
  ghost predicate Owned(db: Db) {
    && db.alerts <= db.events.Keys
    && (forall k :: k in db.events ==> db.events[k] == k.account)
    && (forall k :: k in db.states ==> db.states[k].account == k.account)
  }

  /** No row of any table belongs to the account. */
  ghost predicate Absent(db: Db, a: AccountId) {
    && a !in db.accounts && a !in db.credentials && a !in db.windows
    && (forall k :: k in db.events ==> k.account != a)
    && (forall k :: k in db.alerts ==> k.account != a)
    && (forall r :: r in db.deliveries ==> r.key.account != a)
    && (forall k :: k in db.states ==> k.account != a)
    && (forall k :: k in db.usage.backfills ==> k.account != a)
    && (forall k :: k in db.usage.daily ==> k.account != a)
    && (forall k :: k in db.usage.snapshots ==> k.account != a)
    && (forall k :: k in db.usage.sources ==> k.account != a)
    && (forall k :: k in db.usage.entries ==> k.account != a)
  }

  /** Two tables agree on every key that satisfies a condition. */
  ghost predicate SameRows<K(!new), V>(m: map<K, V>, n: map<K, V>, chosen: K -> bool) {
    forall k :: chosen(k) ==> (k in m <==> k in n) && (k in m ==> m[k] == n[k])
  }

  ghost predicate SameUsageForOthers(u: UsageTables, after: UsageTables, a: AccountId) {
    && SameRows(u.backfills, after.backfills, (k: BackfillKey) => k.account != a)
    && SameRows(u.daily, after.daily, (k: DailyKey) => k.account != a)
    && SameRows(u.snapshots, after.snapshots, (k: SeriesKey) => k.account != a)
    && SameRows(u.sources, after.sources, (k: SourceKey) => k.account != a)
    && SameRows(u.entries, after.entries, (k: EntryKey) => k.account != a)
  }

  ghost predicate SameNotificationsForOthers(db: Db, after: Db, a: AccountId) {
    && SameRows(db.events, after.events, (k: EventKey) => k.account != a)
    && (forall k: EventKey :: k.account != a ==> (k in after.alerts <==> k in db.alerts))
    && (forall r: Receipt :: r.key.account != a ==> (r in after.deliveries <==> r in db.deliveries))
    && SameRows(db.states, after.states, (k: StateKey) => k.account != a)
  }

  /** Two stores hold the same rows for every account but one. */
  ghost predicate SameForOthers(db: Db, after: Db, a: AccountId) {
    && after.channels == db.channels
    && SameRows(db.accounts, after.accounts, (b: AccountId) => b != a)
    && SameRows(db.credentials, after.credentials, (b: AccountId) => b != a)
    && SameRows(db.windows, after.windows, (b: AccountId) => b != a)
    && SameNotificationsForOthers(db, after, a)
    && SameUsageForOthers(db.usage, after.usage, a)
  }
}
