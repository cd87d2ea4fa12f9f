/**
  The steps that the alert evaluation and its environment take on the
  notification tables, the rule each step obeys, and what follows for every
  run.  The environment deletes and saves accounts, adds and deletes channels
  and writes usage between any two steps.
*/
module NotificationProtocol {
  import opened Prelude
  import opened Schema
  import AccountStore

  /** What the evaluator is in the middle of. */
  datatype Control = Idle | InFlight(receipt: Receipt) | Armed(key: StateKey, at: Time)

  datatype EnvOp =
    | DeleteAccount(account: AccountId)
    | SaveAccount(account: AccountId, provider: string, credential: string, windows: seq<Signal>)
    | SaveChannel(channel: ChannelId, enabled: bool)
    | DeleteChannel(channel: ChannelId)
    | WriteUsage(usage: UsageTables)

  /** Why a store call fails: it is refused, or its account is gone. */
  datatype Failure = Refused(call: nat) | ForeignKey(account: AccountId)

  /** What the provider answered to the latest attempt at an activity of a day. */
  datatype Answer = Answer(at: Time, succeeded: bool)

  /** One activity of one account as the provider reports it. */
  datatype Activity = Activity(account: AccountId, id: string, available: bool)

  /**
    Reading takes several steps: the accounts, the quota windows of one account
    after another, the channels, and then the time at which evaluation starts.
  */
  datatype Step =
    | Env(op: EnvOp)
    | ListAccounts(accounts: set<AccountId>)
    | ReadWindows(account: AccountId, windows: seq<Signal>)
    | ListChannels(enabled: set<ChannelId>)
    | ListActivities(activities: seq<Activity>)
    | Observe(view: map<AccountId, seq<Signal>>, now: Time)
    | PutState(key: StateKey, value: StateValue, at: Time)
    | DropState(key: StateKey)
    | DropAlert(event: EventKey)
    | PutEvent(event: EventKey, withAlert: bool, created: bool)
    | Send(receipt: Receipt, accepted: bool)
    | PutReceipt(receipt: Receipt)
    | LostReceipt(receipt: Receipt)
    | NoChannel(channel: ChannelId)
    | Run(key: StateKey, at: Time, succeeded: bool)
    | Fault(failure: Failure)

  /**
    The tables, the identifiers ever issued, what is being read, what the
    current evaluation has read and when it started, and what the provider
    answered to attempts at activities.
  */
  datatype Monitor = Monitor(
    db: Db, issued: set<AccountId>, issuedChannels: set<ChannelId>,
    control: Control, listed: set<AccountId>, reading: map<AccountId, seq<Signal>>,
    view: map<AccountId, seq<Signal>>, clock: Time, answers: map<StateKey, Answer>)

  // ----- the rules of a quota signal -----

  const LOW_QUOTA_PERCENT: real := 15.0

  function SignalKey(s: Signal): Identity {
    Identity(s.kind, s.name, s.unit, s.source, s.total, s.windowSeconds,
             if s.resetAt.Some? then Some(Seconds(s.resetAt.value)) else None,
             if s.expiresAt.Some? then Some(Seconds(s.expiresAt.value)) else None)
  }

  /** Two readings are of one window when these fields agree, times to the second; how much is left does not matter. */
  lemma SameWindow(s: Signal, t: Signal)
    ensures SignalKey(s) == SignalKey(t) <==>
            && s.kind == t.kind && s.name == t.name && s.unit == t.unit && s.source == t.source
            && s.total == t.total && s.windowSeconds == t.windowSeconds
            && SameSecond(s.resetAt, t.resetAt) && SameSecond(s.expiresAt, t.expiresAt)
  {
  }

  predicate SameSecond(s: Option<Time>, t: Option<Time>) {
    s == t || (s.Some? && t.Some? && Seconds(s.value) == Seconds(t.value))
  }

  predicate BelowThreshold(s: Signal) {
    s.remainingPercent.Some? && s.remainingPercent.value <= LOW_QUOTA_PERCENT
  }

  /** Alerts that evaluation derives from quota windows, as opposed to activity alerts. */
  predicate IsSignal(k: EventKey) {
    k.LowQuota? || k.QuotaReset?
  }

  /** The state row that has to name a signal alert. */
  function StateOf(k: EventKey): StateKey
    requires IsSignal(k)
  {
    if k.LowQuota? then LowQuotaState(k.account, k.identity) else QuotaResetState(k.account, k.identity)
  }

  /** An attempt may start when none is recorded or its backoff is over. */
  predicate AttemptReady(v: StateValue, now: Time) {
    match v
    case Completed(_) => false
    case Running(s) => now - s * SECOND >= 30 * MINUTE
    case Failed(s) => now - s * SECOND >= 6 * HOUR
    case _ => true
  }

  ghost predicate ActiveWith(db: Db, key: StateKey, k: EventKey) {
    key in db.states && db.states[key].value == Active(k)
  }

  /** The row names no alert. */
  ghost predicate Inactive(db: Db, key: StateKey) {
    key in db.states ==> !db.states[key].value.Active?
  }

  /** The alert a state row names is gone, so the row may be overwritten or dropped. */
  ghost predicate AlertCleared(db: Db, key: StateKey) {
    key in db.states && db.states[key].value.Active? ==> db.states[key].value.key !in db.alerts
  }

  // ----- which steps are allowed -----

  predicate Allowed(db: Db, issued: set<AccountId>, issuedChannels: set<ChannelId>, op: EnvOp) {
    match op
    case DeleteAccount(a) => a in db.accounts
    case SaveAccount(a, _, _, _) => a in db.accounts || a !in issued
    case SaveChannel(c, _) => c in db.channels || c !in issuedChannels
    case DeleteChannel(c) => c in db.channels
    case WriteUsage(_) => true
  }

  ghost predicate Fits(key: StateKey, v: StateValue) {
    match key
    case ActivityAttempt(_, _, _) => v.Running? || v.Failed? || v.Completed?
    case _ => v.Clear? || (v.Active? && IsSignal(v.key) && StateOf(v.key) == key)
  }

  /** The provider's latest answer was a success, or a failure. */
  predicate Answered(m: Monitor, key: StateKey, succeeded: bool) {
    key in m.answers && m.answers[key].succeeded == succeeded
  }

  ghost predicate PutStateRule(m: Monitor, key: StateKey, v: StateValue, at: Time) {
    && m.control.Idle?
    && Fits(key, v)
    && match key
       case LowQuotaState(a, id) =>
         (match v
          case Active(k) =>
            && k.at == m.clock && !(key in m.db.states && m.db.states[key].value.Active?)
            && a in m.view && exists s <- m.view[a] :: SignalKey(s) == id && BelowThreshold(s)
          case _ => AlertCleared(m.db, key) && a in m.view && exists s <- m.view[a] :: SignalKey(s) == id && !BelowThreshold(s))
       case QuotaResetState(_, _) =>
         AlertCleared(m.db, key)
       case ActivityAttempt(_, _, _) =>
         if v.Running?
         then v.stamp == Seconds(at) && (key in m.db.states ==> AttemptReady(m.db.states[key].value, at))
         else && (key in m.db.states ==> m.db.states[key].value == Running(v.stamp))
              && Answered(m, key, v.Completed?) && Seconds(m.answers[key].at) == v.stamp
  }

  ghost predicate DropStateRule(m: Monitor, key: StateKey) {
    && !key.ActivityAttempt?
    && AlertCleared(m.db, key)
    && (key.LowQuotaState? ==> key.account in m.view && forall s <- m.view[key.account] :: SignalKey(s) != key.identity)
  }

  ghost predicate PutEventRule(m: Monitor, k: EventKey, withAlert: bool) {
    match k
    case ActivityFailed(a, activity, date) => withAlert && Answered(m, ActivityAttempt(a, activity, date), false)
    case ActivityCompleted(a, activity, date) => !withAlert && Answered(m, ActivityAttempt(a, activity, date), true)
    case _ => withAlert && ActiveWith(m.db, StateOf(k), k)
  }

  const ACTIVITY_PROVIDER := "workbuddy-cn"
  const ACTIVITY_ID := "daily-checkin"

  function WindowsOf(db: Db, a: AccountId): seq<Signal> {
    if a in db.windows then db.windows[a] else []
  }

  function EnabledChannels(db: Db): set<ChannelId> {
    set c | c in db.channels && db.channels[c]
  }

  function Elements(list: seq<ChannelId>): set<ChannelId> {
    set c | c in list
  }

  /** One activity for every account of the provider that has them, available or not. */
  ghost predicate ActivitiesOf(db: Db, activities: seq<Activity>) {
    && (forall i, j :: 0 <= i < j < |activities| ==> activities[i].account != activities[j].account)
    && (forall x <- activities :: x.account in db.accounts && db.accounts[x.account] == ACTIVITY_PROVIDER && x.id == ACTIVITY_ID)
    && (forall a :: a in db.accounts && db.accounts[a] == ACTIVITY_PROVIDER ==> exists x <- activities :: x.account == a)
  }

  ghost predicate Legal(m: Monitor, step: Step) {
    match step
    case Env(op) =>
      && Allowed(m.db, m.issued, m.issuedChannels, op)
      && (op.WriteUsage? ==> UsageIntact(m.db.accounts.Keys, op.usage))
    case ListAccounts(accounts) => accounts == m.db.accounts.Keys
    case ReadWindows(a, windows) => a in m.listed && windows == WindowsOf(m.db, a)
    case ListChannels(enabled) => enabled == EnabledChannels(m.db)
    case ListActivities(activities) => ActivitiesOf(m.db, activities)
    case Observe(view, _) => m.control.Idle? && view == m.reading && view.Keys == m.listed
    case PutState(key, v, at) => key.account in m.db.accounts && PutStateRule(m, key, v, at)
    case DropState(key) => DropStateRule(m, key)
    case DropAlert(_) => true
    case PutEvent(k, withAlert, created) =>
      k.account in m.db.accounts && PutEventRule(m, k, withAlert) && (created <==> k !in m.db.events)
    case Send(r, _) => m.control.Idle? && r !in m.db.deliveries
    case PutReceipt(r) => m.control == InFlight(r) && r.key in m.db.events && r.channel in m.db.channels
    case LostReceipt(r) => m.control == InFlight(r)
    case NoChannel(c) => c !in m.db.channels
    case Run(key, at, _) => m.control == Armed(key, at)
    case Fault(failure) => failure.ForeignKey? ==> Dead(m, failure.account)
  }

  /** Steps with which an evaluation only reads, or others act. */
  predicate IsReading(step: Step) {
    step.Env? || step.Fault? || step.ListAccounts? || step.ReadWindows? || step.ListChannels? || step.ListActivities? ||
    step.NoChannel?
  }

  function ApplyEnv(db: Db, op: EnvOp): Db {
    match op
    case DeleteAccount(a) => WithoutAccount(db, a)
    case SaveAccount(a, provider, credential, windows) => WithAccount(db, a, provider, credential, windows)
    case SaveChannel(c, enabled) => db.(channels := db.channels[c := enabled])
    case DeleteChannel(c) => WithoutChannel(db, c)
    case WriteUsage(u) => db.(usage := u)
  }

  function Apply(m: Monitor, step: Step): Monitor {
    match step
    case Env(op) =>
      m.(db := ApplyEnv(m.db, op),
         issued := if op.SaveAccount? then m.issued + {op.account} else m.issued,
         issuedChannels := if op.SaveChannel? then m.issuedChannels + {op.channel} else m.issuedChannels)
    case ListAccounts(accounts) => m.(listed := accounts, reading := map[])
    case ReadWindows(a, windows) => m.(reading := m.reading[a := windows])
    case ListChannels(_) => m
    case ListActivities(_) => m
    case Observe(view, now) => m.(view := view, clock := now)
    case PutState(key, v, at) =>
      m.(db := m.db.(states := m.db.states[key := StateRow(key.account, v)]),
         control := if v.Running? then Armed(key, at) else m.control)
    case DropState(key) => m.(db := m.db.(states := m.db.states - {key}))
    case DropAlert(k) => m.(db := m.db.(alerts := m.db.alerts - {k}))
    case PutEvent(k, withAlert, _) =>
      m.(db := m.db.(events := m.db.events[k := if k in m.db.events then m.db.events[k] else k.account],
                     alerts := if withAlert then m.db.alerts + {k} else m.db.alerts))
    case Send(r, accepted) => if accepted then m.(control := InFlight(r)) else m
    case PutReceipt(r) => m.(db := m.db.(deliveries := m.db.deliveries + {r}), control := Idle)
    case LostReceipt(_) => m.(control := Idle)
    case NoChannel(_) => m
    case Run(key, at, succeeded) => m.(control := Idle, answers := m.answers[key := Answer(at, succeeded)])
    case Fault(_) => m
  }

  ghost function Replay(m: Monitor, steps: seq<Step>): Monitor {
    if steps == [] then m else Apply(Replay(m, steps[..|steps| - 1]), steps[|steps| - 1])
  }

  /** A run in which every step obeys its rule. */
  ghost predicate Conforms(m: Monitor, steps: seq<Step>) {
    steps == [] ||
    (Conforms(m, steps[..|steps| - 1]) && Legal(Replay(m, steps[..|steps| - 1]), steps[|steps| - 1]))
  }

  // ----- the invariant -----

  /** Every quota alert is named by the active state of a live account's signal. */
  ghost predicate NoOrphan(db: Db) {
    forall k :: k in db.alerts && IsSignal(k) ==> k.account in db.accounts && ActiveWith(db, StateOf(k), k)
  }

  ghost predicate Inv(m: Monitor) {
    && Intact(m.db)
    && Owned(m.db)
    && NoOrphan(m.db)
    && (forall key :: key in m.db.states ==> Fits(key, m.db.states[key].value))
    && m.db.accounts.Keys <= m.issued
    && m.db.channels.Keys <= m.issuedChannels
    && m.reading.Keys <= m.listed <= m.issued
    && m.view.Keys <= m.issued
    && (m.control.InFlight? ==> m.control.receipt !in m.db.deliveries)
    && (m.control.Armed? ==> ArmedRow(m, m.control.key, m.control.at))
  }

  /** An account that existed once and is gone; its identifier is never used again. */
  predicate Dead(m: Monitor, a: AccountId) {
    a in m.issued && a !in m.db.accounts
  }

  /** Between arming an attempt and running it, its row says so, unless the account went away. */
  ghost predicate ArmedRow(m: Monitor, key: StateKey, at: Time) {
    && key.ActivityAttempt?
    && (Dead(m, key.account) || (key in m.db.states && m.db.states[key].value == Running(Seconds(at))))
  }

  lemma DeletionKeepsAlertsNamed(db: Db, a: AccountId)
    requires Owned(db) && NoOrphan(db)
    ensures NoOrphan(WithoutAccount(db, a))
  {
    var after := WithoutAccount(db, a);
    forall k | k in after.alerts && IsSignal(k) ensures k.account in after.accounts && ActiveWith(after, StateOf(k), k) {
      assert ActiveWith(db, StateOf(k), k);
    }
  }

  lemma DeletionKeepsInv(m: Monitor, a: AccountId)
    requires Inv(m)
    ensures Inv(Apply(m, Env(DeleteAccount(a))))
  {
    hide NoOrphan, UsageIntact;
    AccountStore.DeletionKeepsReferences(m.db, a);
    DeletionKeepsAlertsNamed(m.db, a);
  }

  lemma SavingKeepsInv(m: Monitor, op: EnvOp)
    requires Inv(m) && Legal(m, Env(op)) && op.SaveAccount?
    ensures Inv(Apply(m, Env(op)))
  {
    AccountStore.SavingKeepsReferences(m.db, op.account, op.provider, op.credential, op.windows);
  }

  lemma EnvKeepsInv(m: Monitor, op: EnvOp)
    requires Inv(m) && Legal(m, Env(op))
    ensures Inv(Apply(m, Env(op)))
  {
    match op
    case DeleteAccount(a) => DeletionKeepsInv(m, a);
    case SaveAccount(_, _, _, _) => SavingKeepsInv(m, op);
    case SaveChannel(_, _) =>
    case DeleteChannel(_) =>
    case WriteUsage(_) =>
  }

  lemma PutStateKeepsInv(m: Monitor, key: StateKey, v: StateValue, at: Time)
    requires Inv(m) && Legal(m, PutState(key, v, at))
    ensures Inv(Apply(m, PutState(key, v, at)))
  {
  }

  lemma PutEventKeepsInv(m: Monitor, k: EventKey, withAlert: bool, created: bool)
    requires Inv(m) && Legal(m, PutEvent(k, withAlert, created))
    ensures Inv(Apply(m, PutEvent(k, withAlert, created)))
  {
  }

  lemma ReadingKeepsInv(m: Monitor, step: Step)
    requires Inv(m) && Legal(m, step)
    requires step.ListAccounts? || step.ReadWindows? || step.ListChannels? || step.ListActivities? || step.NoChannel? ||
             step.Observe? || step.Fault?
    ensures Inv(Apply(m, step))
  {
    hide Intact, Owned, NoOrphan, Fits;
  }

  lemma DroppingKeepsInv(m: Monitor, step: Step)
    requires Inv(m) && Legal(m, step) && (step.DropState? || step.DropAlert?)
    ensures Inv(Apply(m, step))
  {
    hide Fits, UsageIntact, PutStateRule, PutEventRule, ActivitiesOf;
  }

  lemma SendingKeepsInv(m: Monitor, step: Step)
    requires Inv(m) && Legal(m, step) && (step.Send? || step.PutReceipt? || step.LostReceipt? || step.Run?)
    ensures Inv(Apply(m, step))
  {
    hide Fits, UsageIntact;
  }

  lemma StepKeepsInv(m: Monitor, step: Step)
    requires Inv(m) && Legal(m, step)
    ensures Inv(Apply(m, step))
  {
    hide Inv, Legal, Apply;
    match step
    case Env(op) => EnvKeepsInv(m, op);
    case PutState(key, v, at) => PutStateKeepsInv(m, key, v, at);
    case PutEvent(k, withAlert, created) => PutEventKeepsInv(m, k, withAlert, created);
    case DropState(_) => DroppingKeepsInv(m, step);
    case DropAlert(_) => DroppingKeepsInv(m, step);
    case Send(_, _) => SendingKeepsInv(m, step);
    case PutReceipt(_) => SendingKeepsInv(m, step);
    case LostReceipt(_) => SendingKeepsInv(m, step);
    case Run(_, _, _) => SendingKeepsInv(m, step);
    case _ => ReadingKeepsInv(m, step);
  }
}
