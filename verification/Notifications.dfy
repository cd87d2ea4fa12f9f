/** The alert evaluation: one pass over all quota windows and activities. */
module Notifications {
  import opened Prelude
  import opened Schema
  import opened NotificationProtocol
  import opened NotificationStore
  import NotificationRuns

  datatype Evaluation = Evaluation(
    checkedAccounts: nat, triggeredAlerts: nat, deliveredMessages: nat, failedMessages: nat,
    availableActivities: nat, completedActivities: nat)

  // ----- reset reminders -----

  const SHORT_WINDOW_NAMES: seq<string> :=
    ["5h", "5 h", "5\U{5C0F}\U{65F6}", "5 \U{5C0F}\U{65F6}", "\U{65E5}\U{9650}\U{989D}", "\U{6BCF}\U{65E5}",
     "daily", "hourly", "\U{5C0F}\U{65F6}\U{9650}\U{989D}"]

  predicate SupportsLongResetReminder(s: Signal) {
    if s.windowSeconds > 0 then s.windowSeconds >= 72 * 60 * 60
    else forall part <- SHORT_WINDOW_NAMES :: !Contains(LowerCase(s.name), part)
  }

  /** 1 within a day of the reset, 3 within three days, 0 otherwise. */
  function ReminderDays(s: Signal, now: Time): int {
    if s.resetAt.None? || !SupportsLongResetReminder(s) then 0 else
      var untilReset := s.resetAt.value - now;
      if 0 < untilReset <= 24 * HOUR then 1
      else if 24 * HOUR < untilReset <= 72 * HOUR then 3
      else 0
  }

  function ResetKey(a: AccountId, s: Signal, now: Time): EventKey
    requires ReminderDays(s, now) != 0
  {
    QuotaReset(ReminderDays(s, now), a, SignalKey(s), Seconds(s.resetAt.value))
  }

  /** A calendar day in China. */
  function ActivityDate(now: Time): (d: Date)
    ensures d * DAY <= now + 8 * HOUR < (d + 1) * DAY
  {
    (now + 8 * HOUR) / DAY
  }

  // ----- what a pass establishes -----

  ghost predicate LowSettled(db: Db, a: AccountId, s: Signal) {
    var key := LowQuotaState(a, SignalKey(s));
    if BelowThreshold(s)
    then exists k :: ActiveWith(db, key, k) && k in db.alerts && k in db.events
    else Inactive(db, key)
  }

  ghost predicate ResetSettled(db: Db, a: AccountId, s: Signal, now: Time) {
    var key := QuotaResetState(a, SignalKey(s));
    if ReminderDays(s, now) != 0
    then var k := ResetKey(a, s, now); ActiveWith(db, key, k) && k in db.alerts && k in db.events
    else Inactive(db, key)
  }

  ghost predicate WindowSettled(db: Db, a: AccountId, s: Signal, now: Time) {
    LowSettled(db, a, s) && ResetSettled(db, a, s, now)
  }

  ghost predicate Observed(windows: seq<Signal>, key: StateKey) {
    !key.ActivityAttempt? ==> exists s <- windows :: SignalKey(s) == key.identity
  }

  ghost predicate AccountSettled(db: Db, a: AccountId, windows: seq<Signal>, now: Time) {
    && (forall s <- windows :: WindowSettled(db, a, s, now))
    && (forall key :: key in db.states && key.account == a ==> Observed(windows, key))
  }

  /** The signal states and alerts are what the quota windows that were read call for. */
  ghost predicate Settled(db: Db, view: map<AccountId, seq<Signal>>, now: Time) {
    && (forall a :: a in view ==> AccountSettled(db, a, view[a], now))
    && (forall key :: key in db.states && !key.ActivityAttempt? ==> key.account in view)
  }

  /** No two windows of one account share an identity. */
  ghost predicate Distinct(windows: seq<Signal>) {
    forall i, j :: 0 <= i < j < |windows| ==> SignalKey(windows[i]) != SignalKey(windows[j])
  }

  lemma AlertHasSettledWindow(m: Monitor, view: map<AccountId, seq<Signal>>, now: Time, k: EventKey) returns (s: Signal)
    requires Inv(m) && Settled(m.db, view, now) && IsSignal(k) && k in m.db.alerts
    ensures k.account in view && s in view[k.account] && SignalKey(s) == k.identity
    ensures WindowSettled(m.db, k.account, s, now) && ActiveWith(m.db, StateOf(k), k)
  {
    assert ActiveWith(m.db, StateOf(k), k);
    assert AccountSettled(m.db, k.account, view[k.account], now);
    assert Observed(view[k.account], StateOf(k));
    s :| s in view[k.account] && SignalKey(s) == k.identity;
  }

  /** After a settled pass every window at or below the threshold has exactly one low-quota alert. */
  lemma OneAlertPerLowWindow(m: Monitor, view: map<AccountId, seq<Signal>>, now: Time, a: AccountId, s: Signal)
    requires Inv(m) && Settled(m.db, view, now) && a in view && s in view[a]
    requires s.remainingPercent.Some? && s.remainingPercent.value <= 15.0
    ensures exists k :: k in m.db.alerts && k.LowQuota? && k.account == a && k.identity == SignalKey(s)
    ensures forall k, l | k in m.db.alerts && l in m.db.alerts && k.LowQuota? && l.LowQuota? ::
              k.account == a == l.account && k.identity == SignalKey(s) == l.identity ==> k == l
  {
    assert AccountSettled(m.db, a, view[a], now) && WindowSettled(m.db, a, s, now);
    var key := LowQuotaState(a, SignalKey(s));
    var k :| ActiveWith(m.db, key, k) && k in m.db.alerts;
    assert forall l :: l in m.db.alerts && l.LowQuota? && l.account == a && l.identity == SignalKey(s) ==>
        StateOf(l) == key && ActiveWith(m.db, key, l);
  }

  /** After a settled pass every low-quota alert belongs to a window at or below the threshold. */
  lemma LowAlertsAreJustified(m: Monitor, view: map<AccountId, seq<Signal>>, now: Time, k: EventKey)
    requires Inv(m) && Settled(m.db, view, now) && k in m.db.alerts && k.LowQuota?
    ensures k.account in view && exists s <- view[k.account] ::
              SignalKey(s) == k.identity && s.remainingPercent.Some? && s.remainingPercent.value <= 15.0
  {
    var s := AlertHasSettledWindow(m, view, now, k);
    assert LowSettled(m.db, k.account, s);
  }

  /** The reminder of a long window that resets within one day, or within three but not one. */
  ghost predicate RemindsOf(k: EventKey, s: Signal, now: Time)
    requires k.QuotaReset?
  {
    && k.identity == SignalKey(s) && s.resetAt.Some? && k.reset == Seconds(s.resetAt.value)
    && (if s.windowSeconds > 0 then s.windowSeconds >= 3 * 86400 else SupportsLongResetReminder(s))
    && ((k.days == 1 && now < s.resetAt.value <= now + 24 * HOUR)
        || (k.days == 3 && now + 24 * HOUR < s.resetAt.value <= now + 72 * HOUR))
  }

  /** After a settled pass the reminders are exactly those of the windows that reset within 72 hours. */
  lemma RemindersAreExact(m: Monitor, view: map<AccountId, seq<Signal>>, now: Time, k: EventKey)
    requires Inv(m) && Settled(m.db, view, now) && k.QuotaReset?
    ensures k in m.db.alerts <==> k.account in view && exists s <- view[k.account] :: RemindsOf(k, s, now)
  {
    forall s ensures RemindsOf(k, s, now) <==> ReminderDays(s, now) != 0 && k == ResetKey(k.account, s, now) {
    }
    if k in m.db.alerts {
      var s := AlertHasSettledWindow(m, view, now, k);
      assert ResetSettled(m.db, k.account, s, now);
    }
    if k.account in view && exists s <- view[k.account] :: ReminderDays(s, now) != 0 && k == ResetKey(k.account, s, now) {
      var s :| s in view[k.account] && ReminderDays(s, now) != 0 && k == ResetKey(k.account, s, now);
      assert AccountSettled(m.db, k.account, view[k.account], now) && WindowSettled(m.db, k.account, s, now);
    }
  }

  /** The state keys that the windows of an account own. */
  function KeysOf(a: AccountId, windows: seq<Signal>): set<StateKey> {
    if windows == [] then {} else
      var s := windows[|windows| - 1];
      KeysOf(a, windows[..|windows| - 1]) + {LowQuotaState(a, SignalKey(s)), QuotaResetState(a, SignalKey(s))}
  }

  lemma {:induction false} KeysOfMeans(a: AccountId, windows: seq<Signal>)
    ensures forall key :: key in KeysOf(a, windows) ==> key.account == a && !key.ActivityAttempt? && Observed(windows, key)
    ensures forall s <- windows :: LowQuotaState(a, SignalKey(s)) in KeysOf(a, windows)
    ensures forall s <- windows :: QuotaResetState(a, SignalKey(s)) in KeysOf(a, windows)
  {
    if windows != [] {
      var before, last := windows[..|windows| - 1], windows[|windows| - 1];
      KeysOfMeans(a, before);
      assert forall s :: s in windows <==> s in before || s == last;
    }
  }

  // ----- what one part of a pass leaves alone -----

  /** States and signal alerts outside some state keys are untouched, and no account went away. */
  ghost predicate Kept(m: Monitor, n: Monitor, touched: set<StateKey>) {
    && m.db.accounts.Keys <= n.db.accounts.Keys
    && (forall key: StateKey :: key !in touched ==> (key in n.db.states <==> key in m.db.states))
    && (forall key: StateKey :: key !in touched && key in m.db.states ==> n.db.states[key] == m.db.states[key])
    && (forall k :: IsSignal(k) && StateOf(k) !in touched ==> (k in n.db.alerts <==> k in m.db.alerts))
    && (forall k :: k in m.db.events ==> k in n.db.events)
  }

  lemma KeptComposes(m: Monitor, n: Monitor, o: Monitor, a: set<StateKey>, b: set<StateKey>)
    requires Kept(m, n, a) && Kept(n, o, b)
    ensures Kept(m, o, a + b)
  {
  }

  lemma KeptTwice(m: Monitor, n: Monitor, o: Monitor, key: StateKey)
    requires (Kept(m, n, {}) || Kept(m, n, {key})) && Kept(n, o, {key})
    ensures Kept(m, o, {key})
  {
  }

  lemma KeptMore(m: Monitor, n: Monitor, key: StateKey)
    requires Kept(m, n, {})
    ensures Kept(m, n, {key})
  {
  }

  lemma QuietIsKept(m: Monitor, n: Monitor)
    requires Quiet(m, n)
    ensures Kept(m, n, {})
  {
  }

  lemma LowSettledIsKept(m: Monitor, n: Monitor, touched: set<StateKey>, a: AccountId, s: Signal)
    requires Inv(m) && Kept(m, n, touched) && LowSettled(m.db, a, s) && LowQuotaState(a, SignalKey(s)) !in touched
    ensures LowSettled(n.db, a, s)
  {
    if BelowThreshold(s) {
      var k :| ActiveWith(m.db, LowQuotaState(a, SignalKey(s)), k) && k in m.db.alerts && k in m.db.events;
      assert ActiveWith(n.db, LowQuotaState(a, SignalKey(s)), k) && k in n.db.alerts && k in n.db.events;
    }
  }

  lemma SettledWindowIsKept(m: Monitor, n: Monitor, touched: set<StateKey>, a: AccountId, s: Signal, now: Time)
    requires Inv(m) && Kept(m, n, touched) && WindowSettled(m.db, a, s, now)
    requires LowQuotaState(a, SignalKey(s)) !in touched && QuotaResetState(a, SignalKey(s)) !in touched
    ensures WindowSettled(n.db, a, s, now)
  {
    LowSettledIsKept(m, n, touched, a, s);
  }

  // ----- deliveries of one pass -----

  /** A send of the pair was tried since a point of the run. */
  ghost predicate Tried(steps: seq<Step>, from: nat, r: Receipt) {
    exists i :: from <= i < |steps| && steps[i].Send? && steps[i].receipt == r
  }

  /** Since a point of the run an attempt was made, and this was its answer. */
  ghost predicate RanWith(steps: seq<Step>, from: nat, key: StateKey, now: Time, succeeded: bool) {
    exists i :: from <= i < |steps| && steps[i] == Run(key, now, succeeded)
  }

  lemma RanWithPersists(steps: seq<Step>, more: seq<Step>, from: nat, earlier: nat, key: StateKey, now: Time, succeeded: bool)
    requires steps <= more && earlier <= from && RanWith(steps, from, key, now, succeeded)
    ensures RanWith(more, earlier, key, now, succeeded)
  {
    var i :| from <= i < |steps| && steps[i] == Run(key, now, succeeded);
    assert more[i] == steps[i];
  }

  /** A pair needed no message, got one tried since a point of the run, or has lost its channel. */
  ghost predicate Announced(steps: seq<Step>, from: nat, delivered: set<Receipt>, m: Monitor, r: Receipt) {
    || r in delivered
    || Tried(steps, from, r)
    || (r.channel in m.issuedChannels && r.channel !in m.db.channels)
  }

  lemma TriedPersists(steps: seq<Step>, more: seq<Step>, from: nat, r: Receipt)
    requires steps <= more && Tried(steps, from, r)
    ensures Tried(more, from, r)
  {
    var i :| from <= i < |steps| && steps[i].Send? && steps[i].receipt == r;
    assert more[i] == steps[i];
  }

  lemma TriedSooner(steps: seq<Step>, from: nat, earlier: nat, r: Receipt)
    requires earlier <= from && Tried(steps, from, r)
    ensures Tried(steps, earlier, r)
  {
    var i :| from <= i < |steps| && steps[i].Send? && steps[i].receipt == r;
    assert steps[i].Send?;
  }

  lemma AnnouncedPersists(steps: seq<Step>, more: seq<Step>, from: nat, delivered: set<Receipt>, m: Monitor, n: Monitor, r: Receipt)
    requires steps <= more && Announced(steps, from, delivered, m, r)
    requires m.issuedChannels <= n.issuedChannels
    requires forall c :: c in m.issuedChannels && c in n.db.channels ==> c in m.db.channels
    ensures Announced(more, from, delivered, n, r)
  {
    if Tried(steps, from, r) { TriedPersists(steps, more, from, r); }
  }

  /**
    What every part of a pass leaves behind: identifiers stay issued, deleted
    channels stay deleted, and a new receipt comes from a send of this pass.
  */
  ghost predicate Progress(m: Monitor, s: seq<Step>, n: Monitor, t: seq<Step>) {
    && s <= t
    && m.issued <= n.issued && m.issuedChannels <= n.issuedChannels
    && (forall c :: c in m.issuedChannels && c in n.db.channels ==> c in m.db.channels)
    && n.view == m.view && n.clock == m.clock && n.control.Idle?
    && (forall r <- n.db.deliveries :: r in m.db.deliveries || Tried(t, |s|, r))
  }

  lemma ProgressComposes(m: Monitor, s: seq<Step>, n: Monitor, t: seq<Step>, o: Monitor, u: seq<Step>)
    requires Progress(m, s, n, t) && Progress(n, t, o, u)
    ensures Progress(m, s, o, u)
  {
    forall r <- o.db.deliveries ensures r in m.db.deliveries || Tried(u, |s|, r) {
      if Tried(u, |t|, r) {
        TriedSooner(u, |t|, |s|, r);
      } else if Tried(t, |s|, r) {
        TriedPersists(t, u, |s|, r);
      }
    }
  }

  /** An armed attempt in the middle does not hide progress. */
  lemma ProgressThroughRun(
      m: Monitor, s: seq<Step>, armed: Monitor, armedSteps: seq<Step>, ran: Monitor, ranSteps: seq<Step>)
    requires Progress(m, s, armed.(control := Idle), armedSteps) && Progress(armed, armedSteps, ran, ranSteps)
    ensures Progress(m, s, ran, ranSteps)
  {
    ProgressComposes(m, s, armed.(control := Idle), armedSteps, ran, ranSteps);
  }

  lemma ProgressIsReflexive(m: Monitor, s: seq<Step>)
    requires m.control.Idle?
    ensures Progress(m, s, m, s) && Kept(m, m, {})
  {
  }

  lemma ProgressKeeps(m: Monitor, s: seq<Step>, n: Monitor, t: seq<Step>)
    requires Progress(m, s, n, t)
    ensures s <= t && n.control.Idle? && n.view == m.view && n.clock == m.clock
    ensures m.issued <= n.issued && m.issuedChannels <= n.issuedChannels
  {
  }

  /** What the delivery loop uses of a relied-on change. */
  lemma RelyForDeliveries(m: Monitor, n: Monitor)
    requires Rely(m, n)
    ensures n.control == m.control && n.view == m.view && n.clock == m.clock
    ensures m.issued <= n.issued && m.issuedChannels <= n.issuedChannels
    ensures forall c :: c in m.issuedChannels && c in n.db.channels ==> c in m.db.channels
    ensures n.db.deliveries <= m.db.deliveries
  {
  }

  lemma AnnouncedFromEarlier(
      m: Monitor, s: seq<Step>, n: Monitor, t: seq<Step>, o: Monitor, u: seq<Step>, r: Receipt)
    requires Progress(m, s, n, t) && Progress(n, t, o, u)
    requires Announced(u, |t|, n.db.deliveries, o, r)
    ensures Announced(u, |s|, m.db.deliveries, o, r)
  {
    if r in n.db.deliveries && r !in m.db.deliveries {
      TriedPersists(t, u, |s|, r);
    } else if Tried(u, |t|, r) {
      TriedSooner(u, |t|, |s|, r);
    }
  }

  /** The event, and the alert if there is one, were added and no signal state changed. */
  ghost predicate Announcing(m: Monitor, n: Monitor, k: EventKey, withAlert: bool) {
    && n.db.states == m.db.states
    && n.db.alerts == (if withAlert then m.db.alerts + {k} else m.db.alerts)
    && n.db.events.Keys == m.db.events.Keys + {k}
    && m.db.accounts.Keys <= n.db.accounts.Keys
  }

  lemma QuietAroundEvent(m: Monitor, mid: Monitor, n: Monitor, k: EventKey, withAlert: bool, created: bool)
    requires Quiet(m, mid) && Quiet(Apply(mid, PutEvent(k, withAlert, created)), n)
    ensures Announcing(m, n, k, withAlert)
  {
  }

  lemma RelyIsProgress(m: Monitor, s: seq<Step>, n: Monitor, t: seq<Step>)
    requires Rely(m, n) && s <= t && m.control.Idle?
    ensures Progress(m, s, n, t)
  {
  }

  /** The counters of a pass grow by what its run counts. */
  ghost predicate Tallied(before: Evaluation, s: seq<Step>, after: Evaluation, t: seq<Step>) {
    && Counted(s, t, after.deliveredMessages - before.deliveredMessages, after.failedMessages - before.failedMessages,
               after.triggeredAlerts - before.triggeredAlerts, after.completedActivities - before.completedActivities)
    && after.checkedAccounts == before.checkedAccounts
  }

  lemma TalliesCompose(a: Evaluation, s: seq<Step>, b: Evaluation, t: seq<Step>, c: Evaluation, u: seq<Step>)
    requires Tallied(a, s, b, t) && Tallied(b, t, c, u)
    ensures Tallied(a, s, c, u)
  {
    hide Receipts, Raised, Misses, Completions, FailuresOf;
  }

  lemma TallyStartsEarlier(a: Evaluation, s: seq<Step>, t: seq<Step>, c: Evaluation, u: seq<Step>)
    requires SameCounts(s, t) && Tallied(a, t, c, u)
    ensures Tallied(a, s, c, u)
  {
    hide Receipts, Raised, Misses, Completions, FailuresOf;
  }

  lemma NothingTallied(a: Evaluation, s: seq<Step>)
    ensures Tallied(a, s, a, s)
  {
    hide Receipts, Raised, Misses, Completions, FailuresOf;
  }

  /** The counters of activities are as they were. */
  predicate SameActivities(before: Evaluation, after: Evaluation) {
    after.availableActivities == before.availableActivities && after.completedActivities == before.completedActivities
  }

  lemma AnnouncedForAll(
      m: Monitor, s: seq<Step>, n: Monitor, t: seq<Step>, o: Monitor, u: seq<Step>, k: EventKey, channels: seq<ChannelId>)
    requires Progress(m, s, n, t) && Progress(n, t, o, u)
    requires forall c <- channels :: Announced(u, |t|, n.db.deliveries, o, Receipt(k, c))
    ensures forall c <- channels :: Announced(u, |s|, m.db.deliveries, o, Receipt(k, c))
  {
    forall c <- channels ensures Announced(u, |s|, m.db.deliveries, o, Receipt(k, c)) {
      AnnouncedFromEarlier(m, s, n, t, o, u, Receipt(k, c));
    }
  }

  /** Every channel was told about the alert that a state row names, or needed no message. */
  ghost predicate KeyAnnounced(
      steps: seq<Step>, from: nat, delivered: set<Receipt>, m: Monitor, channels: seq<ChannelId>, key: StateKey)
  {
    key in m.db.states && m.db.states[key].value.Active? ==>
      forall c <- channels :: Announced(steps, from, delivered, m, Receipt(m.db.states[key].value.key, c))
  }

  /** The window being evaluated is one that this pass has read. */
  ghost predicate Reading(m: Monitor, a: AccountId, s: Signal, now: Time) {
    m.control.Idle? && now == m.clock && a in m.view && s in m.view[a]
  }

  lemma ViewIsIssued(m: Monitor)
    requires Inv(m)
    ensures m.view.Keys <= m.issued
  {
  }

  lemma ActiveIsSettled(db: Db, a: AccountId, s: Signal, k: EventKey)
    requires BelowThreshold(s) && ActiveWith(db, LowQuotaState(a, SignalKey(s)), k) && k in db.alerts && k in db.events
    ensures LowSettled(db, a, s)
  {
  }

  lemma NamedIsAnnounced(steps: seq<Step>, from: nat, delivered: set<Receipt>, m: Monitor, channels: seq<ChannelId>, key: StateKey, k: EventKey)
    requires ActiveWith(m.db, key, k) && forall c <- channels :: Announced(steps, from, delivered, m, Receipt(k, c))
    ensures KeyAnnounced(steps, from, delivered, m, channels, key)
  {
  }

  lemma InactiveNeedsNothing(steps: seq<Step>, from: nat, delivered: set<Receipt>, m: Monitor, channels: seq<ChannelId>, key: StateKey)
    requires Inactive(m.db, key)
    ensures KeyAnnounced(steps, from, delivered, m, channels, key)
  {
  }

  /** A signal is announced after its row was raised or found. */
  lemma AnnouncedSince(
      m: Monitor, s: seq<Step>, raised: Monitor, r: seq<Step>, n: Monitor, t: seq<Step>,
      channels: seq<ChannelId>, key: StateKey, k: EventKey)
    requires Progress(m, s, raised, r) && Progress(raised, r, n, t)
    requires (Kept(m, raised, {}) || Kept(m, raised, {key})) && Kept(raised, n, {key}) && ActiveWith(n.db, key, k)
    requires forall c <- channels :: Announced(t, |r|, raised.db.deliveries, n, Receipt(k, c))
    ensures Kept(m, n, {key}) && KeyAnnounced(t, |s|, m.db.deliveries, n, channels, key)
  {
    hide Progress, Kept, Announced;
    AnnouncedForAll(m, s, raised, r, n, t, k, channels);
    NamedIsAnnounced(t, |s|, m.db.deliveries, n, channels, key, k);
    KeptTwice(m, raised, n, key);
  }

  lemma ActiveRowFits(m: Monitor, key: StateKey)
    requires Inv(m) && key in m.db.states && m.db.states[key].value.Active?
    ensures IsSignal(m.db.states[key].value.key) && StateOf(m.db.states[key].value.key) == key
  {
  }

  lemma ActiveRowsFit(m: Monitor)
    requires Inv(m)
    ensures forall key :: key in m.db.states && m.db.states[key].value.Active? ==>
              IsSignal(m.db.states[key].value.key) && StateOf(m.db.states[key].value.key) == key
  {
  }

  /** A state row is cleared only after the alert it names is gone. */
  lemma MayClear(m: Monitor, mid: Monitor, key: StateKey, k: EventKey, now: Time)
    requires Rely(m, mid) && m.control.Idle? && !key.ActivityAttempt?
    requires key in m.db.states ==> m.db.states[key].value == Active(k)
    requires key.LowQuotaState? ==>
               key.account in m.view && exists s <- m.view[key.account] :: SignalKey(s) == key.identity && !BelowThreshold(s)
    ensures PutStateRule(Apply(mid, DropAlert(k)), key, Clear, now)
  {
  }

  lemma MayForget(m: Monitor, n: Monitor, key: StateKey, state: StateValue)
    requires !key.ActivityAttempt? && n.view == m.view
    requires key in n.db.states ==> n.db.states[key].value == state
    requires state.Active? ==> AlertCleared(n.db, key)
    requires key.LowQuotaState? ==> key.account in m.view && forall s <- m.view[key.account] :: SignalKey(s) != key.identity
    ensures DropStateRule(n, key)
  {
  }

  lemma MayArm(m: Monitor, key: StateKey, now: Time)
    requires m.control.Idle? && key.ActivityAttempt? && (key in m.db.states ==> AttemptReady(m.db.states[key].value, now))
    ensures PutStateRule(m, key, Running(Seconds(now)), now)
  {
  }

  /** While an armed attempt runs its row still says so, unless the account goes away; afterwards its answer is known. */
  lemma RunKeepsRow(m: Monitor, s: seq<Step>, n: Monitor, t: seq<Step>, key: StateKey, now: Time, succeeded: bool)
    requires Inv(m) && m.control == Armed(key, now) && Rely(Apply(m, Run(key, now, succeeded)), n) && s <= t
    ensures Progress(m, s, n, t)
    ensures key in n.db.states ==> n.db.states[key].value == Running(Seconds(now))
    ensures key in n.answers && n.answers[key] == Answer(now, succeeded)
    ensures Quiet(m, n) ==> Kept(m, n, {}) && SameTables(m, n)
  {
  }

  lemma ClearedIsKept(m: Monitor, mid: Monitor, late: Monitor, key: StateKey, k: EventKey, now: Time)
    requires Quiet(m, mid) && Quiet(Apply(mid, DropAlert(k)), late) && !key.ActivityAttempt?
    ensures var n := Apply(late, PutState(key, Clear, now));
            Inactive(n.db, key) && (IsSignal(k) && StateOf(k) == key ==> Kept(m, n, {key}))
  {
  }

  lemma RelyThenDrop(m: Monitor, s: seq<Step>, mid: Monitor, k: EventKey, n: Monitor, t: seq<Step>, ok: bool)
    requires Rely(m, mid) && s <= t && m.control.Idle? && n == if ok then Apply(mid, DropAlert(k)) else mid
    ensures Progress(m, s, n, t) && m.issued <= n.issued
  {
  }

  lemma RelyThenPut(m: Monitor, s: seq<Step>, mid: Monitor, key: StateKey, now: Time, n: Monitor, t: seq<Step>, ok: bool)
    requires Rely(m, mid) && s <= t && m.control.Idle? && n == if ok then Apply(mid, PutState(key, Clear, now)) else mid
    ensures Progress(m, s, n, t)
  {
  }

  lemma RelyThenForget(m: Monitor, s: seq<Step>, mid: Monitor, key: StateKey, n: Monitor, t: seq<Step>, ok: bool)
    requires Rely(m, mid) && s <= t && m.control.Idle? && n == if ok then Apply(mid, DropState(key)) else mid
    ensures Progress(m, s, n, t)
    ensures forall other :: other in n.db.states ==> other in m.db.states && n.db.states[other] == m.db.states[other]
    ensures ok && Quiet(m, mid) ==> key !in n.db.states && Kept(m, n, {key})
  {
  }

  lemma AnnouncingActivityIsKept(m: Monitor, n: Monitor, k: EventKey, withAlert: bool)
    requires Announcing(m, n, k, withAlert) && !IsSignal(k)
    ensures Kept(m, n, {})
  {
  }

  lemma AnnouncingIsKept(m: Monitor, n: Monitor, k: EventKey)
    requires Announcing(m, n, k, true) && IsSignal(k)
    ensures Kept(m, n, {StateOf(k)}) && n.db.states == m.db.states && k in n.db.alerts && k in n.db.events
  {
  }

  /** A window is settled and every channel knows about the alerts its states name. */
  ghost predicate WindowDone(
      m: Monitor, steps: seq<Step>, from: nat, delivered: set<Receipt>,
      channels: seq<ChannelId>, a: AccountId, s: Signal, now: Time)
  {
    && WindowSettled(m.db, a, s, now)
    && KeyAnnounced(steps, from, delivered, m, channels, LowQuotaState(a, SignalKey(s)))
    && KeyAnnounced(steps, from, delivered, m, channels, QuotaResetState(a, SignalKey(s)))
  }

  ghost predicate AccountDone(
      m: Monitor, steps: seq<Step>, from: nat, delivered: set<Receipt>,
      channels: seq<ChannelId>, a: AccountId, windows: seq<Signal>, now: Time)
  {
    && (forall s <- windows :: WindowDone(m, steps, from, delivered, channels, a, s, now))
    && (forall key :: key in m.db.states && key.account == a ==> Observed(windows, key))
  }

  lemma KeyAnnouncedPersists(
      m: Monitor, s: seq<Step>, n: Monitor, t: seq<Step>, from: nat, delivered: set<Receipt>,
      channels: seq<ChannelId>, key: StateKey, touched: set<StateKey>)
    requires Progress(m, s, n, t) && Kept(m, n, touched) && key !in touched && !key.ActivityAttempt?
    requires KeyAnnounced(s, from, delivered, m, channels, key)
    ensures KeyAnnounced(t, from, delivered, n, channels, key)
  {
    if key in n.db.states && n.db.states[key].value.Active? {
      forall c <- channels ensures Announced(t, from, delivered, n, Receipt(n.db.states[key].value.key, c)) {
        AnnouncedPersists(s, t, from, delivered, m, n, Receipt(n.db.states[key].value.key, c));
      }
    }
  }

  lemma KeyAnnouncedEarlier(
      m: Monitor, s: seq<Step>, n: Monitor, t: seq<Step>, o: Monitor, u: seq<Step>, channels: seq<ChannelId>, key: StateKey)
    requires Progress(m, s, n, t) && Progress(n, t, o, u)
    requires KeyAnnounced(u, |t|, n.db.deliveries, o, channels, key)
    ensures KeyAnnounced(u, |s|, m.db.deliveries, o, channels, key)
  {
    if key in o.db.states && o.db.states[key].value.Active? {
      AnnouncedForAll(m, s, n, t, o, u, o.db.states[key].value.key, channels);
    }
  }

  lemma WindowDonePersists(
      m: Monitor, s: seq<Step>, n: Monitor, t: seq<Step>, from: nat, delivered: set<Receipt>,
      channels: seq<ChannelId>, a: AccountId, w: Signal, now: Time, touched: set<StateKey>)
    requires Inv(m) && Progress(m, s, n, t) && Kept(m, n, touched)
    requires LowQuotaState(a, SignalKey(w)) !in touched && QuotaResetState(a, SignalKey(w)) !in touched
    requires WindowDone(m, s, from, delivered, channels, a, w, now)
    ensures WindowDone(n, t, from, delivered, channels, a, w, now)
  {
    SettledWindowIsKept(m, n, touched, a, w, now);
    KeyAnnouncedPersists(m, s, n, t, from, delivered, channels, LowQuotaState(a, SignalKey(w)), touched);
    KeyAnnouncedPersists(m, s, n, t, from, delivered, channels, QuotaResetState(a, SignalKey(w)), touched);
  }

  lemma WindowDoneEarlier(
      m: Monitor, s: seq<Step>, n: Monitor, t: seq<Step>, o: Monitor, u: seq<Step>,
      channels: seq<ChannelId>, a: AccountId, w: Signal, now: Time)
    requires Progress(m, s, n, t) && Progress(n, t, o, u)
    requires WindowDone(o, u, |t|, n.db.deliveries, channels, a, w, now)
    ensures WindowDone(o, u, |s|, m.db.deliveries, channels, a, w, now)
  {
    KeyAnnouncedEarlier(m, s, n, t, o, u, channels, LowQuotaState(a, SignalKey(w)));
    KeyAnnouncedEarlier(m, s, n, t, o, u, channels, QuotaResetState(a, SignalKey(w)));
  }

  /** An account is done when its windows are and its other rows have been dropped. */
  lemma AccountFinished(
      m: Monitor, s: seq<Step>, n: Monitor, t: seq<Step>, from: nat, delivered: set<Receipt>,
      channels: seq<ChannelId>, a: AccountId, windows: seq<Signal>, now: Time, observed: set<StateKey>, dropped: set<StateKey>)
    requires Inv(m) && Progress(m, s, n, t) && Kept(m, n, dropped)
    requires forall w <- windows :: WindowDone(m, s, from, delivered, channels, a, w, now)
    requires observed == KeysOf(a, windows) && forall key <- dropped :: key.account == a && key !in observed
    requires forall key :: key in n.db.states && key.account == a && !key.ActivityAttempt? ==> key in observed
    ensures AccountDone(n, t, from, delivered, channels, a, windows, now)
  {
    hide Inv, Progress, WindowDone, Kept;
    KeysOfMeans(a, windows);
    forall w <- windows ensures WindowDone(n, t, from, delivered, channels, a, w, now) {
      WindowDonePersists(m, s, n, t, from, delivered, channels, a, w, now, dropped);
    }
  }

  lemma AccountDonePersists(
      m: Monitor, s: seq<Step>, n: Monitor, t: seq<Step>, from: nat, delivered: set<Receipt>,
      channels: seq<ChannelId>, a: AccountId, windows: seq<Signal>, now: Time, touched: set<StateKey>)
    requires Inv(m) && Progress(m, s, n, t) && Kept(m, n, touched) && forall key <- touched :: key.ActivityAttempt? || key.account != a
    requires AccountDone(m, s, from, delivered, channels, a, windows, now)
    ensures AccountDone(n, t, from, delivered, channels, a, windows, now)
  {
    hide Inv, Progress, WindowDone;
    forall w <- windows ensures WindowDone(n, t, from, delivered, channels, a, w, now) {
      WindowDonePersists(m, s, n, t, from, delivered, channels, a, w, now, touched);
    }
  }

  lemma AccountDoneEarlier(
      m: Monitor, s: seq<Step>, n: Monitor, t: seq<Step>, o: Monitor, u: seq<Step>,
      channels: seq<ChannelId>, a: AccountId, windows: seq<Signal>, now: Time)
    requires Progress(m, s, n, t) && Progress(n, t, o, u)
    requires AccountDone(o, u, |t|, n.db.deliveries, channels, a, windows, now)
    ensures AccountDone(o, u, |s|, m.db.deliveries, channels, a, windows, now)
  {
    hide Progress, WindowDone;
    forall w <- windows ensures WindowDone(o, u, |s|, m.db.deliveries, channels, a, w, now) {
      WindowDoneEarlier(m, s, n, t, o, u, channels, a, w, now);
    }
  }

  /** Counting from an earlier point of the run, with more receipts in store, only weakens the claim. */
  lemma AccountDoneWidens(
      m: Monitor, u: seq<Step>, from: nat, earlier: nat, delivered: set<Receipt>, more: set<Receipt>,
      channels: seq<ChannelId>, a: AccountId, windows: seq<Signal>, now: Time)
    requires earlier <= from && delivered <= more && AccountDone(m, u, from, delivered, channels, a, windows, now)
    ensures AccountDone(m, u, earlier, more, channels, a, windows, now)
  {
    forall r | Tried(u, from, r) ensures Tried(u, earlier, r) { TriedSooner(u, from, earlier, r); }
    forall w <- windows ensures WindowDone(m, u, earlier, more, channels, a, w, now) {
      assert WindowDone(m, u, from, delivered, channels, a, w, now);
    }
  }

  ghost predicate AllDistinct(view: map<AccountId, seq<Signal>>) {
    forall a :: a in view ==> Distinct(view[a])
  }

  ghost predicate StatesListed(m: Monitor, view: map<AccountId, seq<Signal>>) {
    forall key :: key in m.db.states && !key.ActivityAttempt? ==> key.account in view
  }

  lemma StatesStayListed(m: Monitor, n: Monitor, touched: set<StateKey>, view: map<AccountId, seq<Signal>>)
    requires Kept(m, n, touched) && StatesListed(m, view) && forall key <- touched :: key.ActivityAttempt? || key.account in view
    ensures StatesListed(n, view)
  {
  }

  lemma DoneIsSettled(
      m: Monitor, u: seq<Step>, from: nat, delivered: set<Receipt>,
      channels: seq<ChannelId>, view: map<AccountId, seq<Signal>>, now: Time)
    requires StatesListed(m, view)
    requires forall a :: a in view ==> AccountDone(m, u, from, delivered, channels, a, view[a], now)
    ensures Settled(m.db, view, now)
  {
    forall a | a in view ensures AccountSettled(m.db, a, view[a], now) {
      assert AccountDone(m, u, from, delivered, channels, a, view[a], now);
      forall s <- view[a] ensures WindowSettled(m.db, a, s, now) {
        assert WindowDone(m, u, from, delivered, channels, a, s, now);
      }
    }
  }

  // ----- activities -----

  function AttemptKey(activity: Activity, now: Time): StateKey {
    ActivityAttempt(activity.account, activity.id, ActivityDate(now))
  }

  function FailedEvent(activity: Activity, now: Time): EventKey {
    ActivityFailed(activity.account, activity.id, ActivityDate(now))
  }

  function OutcomeEvent(activity: Activity, succeeded: bool, now: Time): EventKey {
    if succeeded then ActivityCompleted(activity.account, activity.id, ActivityDate(now)) else FailedEvent(activity, now)
  }

  /** The tables after an attempt: its row says how it ended, and the failure alert stands exactly after a failure. */
  ghost predicate Attempted(m: Monitor, n: Monitor, activity: Activity, succeeded: bool, now: Time) {
    var key := AttemptKey(activity, now);
    && n.db.states == m.db.states[key := StateRow(key.account, OutcomeValue(succeeded, now))]
    && n.db.alerts == (if succeeded then m.db.alerts - {FailedEvent(activity, now)} else m.db.alerts + {FailedEvent(activity, now)})
    && n.db.events.Keys == m.db.events.Keys + {OutcomeEvent(activity, succeeded, now)}
  }

  /** The row of the activity allows an attempt. */
  predicate MayAttempt(db: Db, activity: Activity, now: Time) {
    var key := AttemptKey(activity, now);
    key in db.states ==> AttemptReady(db.states[key].value, now)
  }

  lemma AttemptedFromArmed(m: Monitor, armed: Monitor, n: Monitor, activity: Activity, succeeded: bool, now: Time)
    requires Attempted(armed, n, activity, succeeded, now)
    requires armed.db.states == m.db.states[AttemptKey(activity, now) := StateRow(activity.account, Running(Seconds(now)))]
    requires armed.db.alerts == m.db.alerts && armed.db.events.Keys == m.db.events.Keys
    ensures Attempted(m, n, activity, succeeded, now)
  {
  }

  lemma AttemptedWhenAnnounced(m: Monitor, recorded: Monitor, n: Monitor, activity: Activity, succeeded: bool, now: Time)
    requires Announcing(recorded, n, OutcomeEvent(activity, succeeded, now), !succeeded)
    requires recorded.db.states ==
             m.db.states[AttemptKey(activity, now) := StateRow(activity.account, OutcomeValue(succeeded, now))]
    requires recorded.db.alerts == (if succeeded then m.db.alerts - {FailedEvent(activity, now)} else m.db.alerts)
    requires recorded.db.events.Keys == m.db.events.Keys
    ensures Attempted(m, n, activity, succeeded, now)
  {
  }

  /** The row that records how an attempt ended. */
  function OutcomeValue(succeeded: bool, now: Time): StateValue {
    if succeeded then Completed(Seconds(now)) else Failed(Seconds(now))
  }

  ghost predicate SameRow(before: Db, after: Db, key: StateKey) {
    (key in after.states <==> key in before.states) && (key in before.states ==> after.states[key] == before.states[key])
  }

  /** An available activity whose row allowed an attempt has the row its outcome calls for; any other keeps its row. */
  ghost predicate ActivityDone(before: Db, after: Db, x: Activity, now: Time, succeeded: bool) {
    var key := AttemptKey(x, now);
    if x.available && MayAttempt(before, x, now)
    then key in after.states && after.states[key].value == OutcomeValue(succeeded, now)
    else SameRow(before, after, key)
  }

  ghost predicate ActivitiesDone(before: Db, after: Db, activities: seq<Activity>, now: Time, provider: (StateKey, Time) -> bool) {
    forall x <- activities :: ActivityDone(before, after, x, now, provider(AttemptKey(x, now), now))
  }

  /** Every available activity whose row allowed an attempt was attempted since a point of the run, and this was the answer. */
  ghost predicate ActivitiesRan(
      before: Db, from: nat, steps: seq<Step>, activities: seq<Activity>, now: Time, provider: (StateKey, Time) -> bool)
  {
    forall x <- activities :: x.available && MayAttempt(before, x, now) ==>
      RanWith(steps, from, AttemptKey(x, now), now, provider(AttemptKey(x, now), now))
  }

  ghost predicate DistinctAccounts(activities: seq<Activity>) {
    forall i, j :: 0 <= i < j < |activities| ==> activities[i].account != activities[j].account
  }

  function AttemptKeys(activities: seq<Activity>, now: Time): set<StateKey> {
    set x | x in activities :: AttemptKey(x, now)
  }

  ghost predicate SameAttempts(before: Db, after: Db) {
    forall key: StateKey :: key.ActivityAttempt? ==> SameRow(before, after, key)
  }

  lemma DoneStays(before: Db, m: Db, n: Db, x: Activity, now: Time, succeeded: bool)
    requires ActivityDone(before, m, x, now, succeeded) && SameRow(m, n, AttemptKey(x, now))
    ensures ActivityDone(before, n, x, now, succeeded)
  {
  }

  lemma DoneSince(before: Db, m: Db, n: Db, x: Activity, now: Time, succeeded: bool)
    requires SameRow(before, m, AttemptKey(x, now)) && ActivityDone(m, n, x, now, succeeded)
    ensures ActivityDone(before, n, x, now, succeeded)
  {
  }

  lemma AllDoneSince(before: Db, m: Db, n: Db, activities: seq<Activity>, now: Time, provider: (StateKey, Time) -> bool)
    requires SameAttempts(before, m) && ActivitiesDone(m, n, activities, now, provider)
    ensures ActivitiesDone(before, n, activities, now, provider)
  {
    hide ActivityDone, SameRow;
    forall x <- activities ensures ActivityDone(before, n, x, now, provider(AttemptKey(x, now), now)) {
      DoneSince(before, m, n, x, now, provider(AttemptKey(x, now), now));
    }
  }

  lemma SameStatesSameAttempts(before: Db, after: Db)
    requires after.states == before.states
    ensures SameAttempts(before, after)
  {
  }

  lemma AttemptKeysMeans(activities: seq<Activity>, now: Time)
    ensures forall key <- AttemptKeys(activities, now) :: key.ActivityAttempt?
  {
  }

  /** No activity that is done may be attempted again. */
  lemma DoneMayNotRepeat(before: Db, after: Db, activities: seq<Activity>, now: Time, provider: (StateKey, Time) -> bool)
    requires ActivitiesDone(before, after, activities, now, provider)
    ensures forall x <- activities :: x.available ==> !MayAttempt(after, x, now)
  {
    forall x <- activities | x.available ensures !MayAttempt(after, x, now) {
      assert ActivityDone(before, after, x, now, provider(AttemptKey(x, now), now));
    }
  }

  lemma SameAttemptsCompose(m: Db, n: Db, o: Db)
    requires SameAttempts(m, n) && SameAttempts(n, o)
    ensures SameAttempts(m, o)
  {
  }

  lemma KeptAttempts(m: Monitor, n: Monitor, touched: set<StateKey>)
    requires Kept(m, n, touched) && forall key <- touched :: !key.ActivityAttempt?
    ensures SameAttempts(m.db, n.db)
  {
  }

  lemma NoAttemptKeys(activities: seq<Activity>, now: Time)
    requires |activities| == 0
    ensures AttemptKeys(activities, now) == {}
  {
  }

  lemma AttemptKeysOf(activities: seq<Activity>, i: nat, now: Time)
    requires i < |activities|
    ensures AttemptKeys(activities[..i + 1], now) == AttemptKeys(activities[..i], now) + {AttemptKey(activities[i], now)}
    ensures DistinctAccounts(activities) ==> AttemptKey(activities[i], now) !in AttemptKeys(activities[..i], now)
  {
    assert activities[..i + 1] == activities[..i] + [activities[i]];
  }

  /** One activity after the other is done, each on its own row. */
  lemma NextActivityDone(
      start: Monitor, m: Monitor, n: Monitor, activities: seq<Activity>, i: nat, now: Time, provider: (StateKey, Time) -> bool)
    requires i < |activities| && DistinctAccounts(activities)
    requires Kept(start, m, AttemptKeys(activities[..i], now)) && ActivitiesDone(start.db, m.db, activities[..i], now, provider)
    requires Kept(m, n, {AttemptKey(activities[i], now)})
    requires ActivityDone(m.db, n.db, activities[i], now, provider(AttemptKey(activities[i], now), now))
    ensures Kept(start, n, AttemptKeys(activities[..i + 1], now)) && ActivitiesDone(start.db, n.db, activities[..i + 1], now, provider)
  {
    hide ActivityDone, SameRow, AttemptKeys;
    var key := AttemptKey(activities[i], now);
    AttemptKeysOf(activities, i, now);
    KeptComposes(start, m, n, AttemptKeys(activities[..i], now), {key});
    KeptRow(start, m, AttemptKeys(activities[..i], now), key);
    DoneSince(start.db, m.db, n.db, activities[i], now, provider(key, now));
    forall x <- activities[..i] ensures ActivityDone(start.db, n.db, x, now, provider(AttemptKey(x, now), now)) {
      var j :| 0 <= j < i && activities[j] == x;
      KeptRow(m, n, {key}, AttemptKey(x, now));
      DoneStays(start.db, m.db, n.db, x, now, provider(AttemptKey(x, now), now));
    }
    assert activities[..i + 1] == activities[..i] + [activities[i]];
  }

  lemma SameRowSameAttempt(before: Db, after: Db, x: Activity, now: Time)
    requires SameRow(before, after, AttemptKey(x, now))
    ensures MayAttempt(before, x, now) <==> MayAttempt(after, x, now)
  {
  }

  lemma NextActivityRan(
      start: Monitor, from: nat, m: Monitor, steps: seq<Step>, more: seq<Step>, activities: seq<Activity>, i: nat, now: Time,
      provider: (StateKey, Time) -> bool)
    requires i < |activities| && DistinctAccounts(activities) && from <= |steps| && steps <= more
    requires Kept(start, m, AttemptKeys(activities[..i], now)) && ActivitiesRan(start.db, from, steps, activities[..i], now, provider)
    requires activities[i].available && MayAttempt(m.db, activities[i], now) ==>
               RanWith(more, |steps|, AttemptKey(activities[i], now), now, provider(AttemptKey(activities[i], now), now))
    ensures ActivitiesRan(start.db, from, more, activities[..i + 1], now, provider)
  {
    hide MayAttempt, RanWith, SameRow, AttemptKeys, Kept;
    AttemptKeysOf(activities, i, now);
    KeptRow(start, m, AttemptKeys(activities[..i], now), AttemptKey(activities[i], now));
    SameRowSameAttempt(start.db, m.db, activities[i], now);
    assert activities[..i + 1] == activities[..i] + [activities[i]];
    forall x <- activities[..i + 1] | x.available && MayAttempt(start.db, x, now)
      ensures RanWith(more, from, AttemptKey(x, now), now, provider(AttemptKey(x, now), now))
    {
      if x in activities[..i] {
        RanWithPersists(steps, more, from, from, AttemptKey(x, now), now, provider(AttemptKey(x, now), now));
      } else {
        RanWithPersists(more, more, |steps|, from, AttemptKey(x, now), now, provider(AttemptKey(x, now), now));
      }
    }
  }

  lemma AllRanSince(
      before: Db, from: nat, m: Db, later: nat, steps: seq<Step>, activities: seq<Activity>, now: Time, provider: (StateKey, Time) -> bool)
    requires SameAttempts(before, m) && from <= later && ActivitiesRan(m, later, steps, activities, now, provider)
    ensures ActivitiesRan(before, from, steps, activities, now, provider)
  {
    hide MayAttempt, RanWith, SameRow;
    forall x <- activities | x.available && MayAttempt(before, x, now)
      ensures RanWith(steps, from, AttemptKey(x, now), now, provider(AttemptKey(x, now), now))
    {
      SameRowSameAttempt(before, m, x, now);
      RanWithPersists(steps, steps, later, from, AttemptKey(x, now), now, provider(AttemptKey(x, now), now));
    }
  }

  lemma KeptRow(m: Monitor, n: Monitor, touched: set<StateKey>, key: StateKey)
    requires Kept(m, n, touched) && key !in touched
    ensures SameRow(m.db, n.db, key)
  {
  }

  lemma AttemptedIsDone(m: Monitor, n: Monitor, ran: bool, activity: Activity, succeeded: bool, now: Time)
    requires activity.available && (ran <==> MayAttempt(m.db, activity, now))
    requires if ran then Attempted(m, n, activity, succeeded, now) else SameTables(m, n)
    ensures ActivityDone(m.db, n.db, activity, now, succeeded)
  {
  }

  lemma UnavailableIsDone(m: Monitor, activity: Activity, succeeded: bool, now: Time)
    requires !activity.available
    ensures ActivityDone(m.db, m.db, activity, now, succeeded) && Kept(m, m, {AttemptKey(activity, now)})
  {
  }

  function Available(activities: seq<Activity>): nat {
    if activities == [] then 0 else
      Available(activities[..|activities| - 1]) + if activities[|activities| - 1].available then 1 else 0
  }

  /** The signal, event and alert tables after a quiet step. */
  ghost predicate SameTables(m: Monitor, n: Monitor) {
    n.db.states == m.db.states && n.db.alerts == m.db.alerts && n.db.events.Keys == m.db.events.Keys
  }

  lemma QuietIsSame(m: Monitor, n: Monitor)
    requires Quiet(m, n)
    ensures SameTables(m, n)
  {
  }

  // ----- a whole pass -----

  /**
    What the pass that began at a position of the run works on: all accounts of
    one moment, the windows of each as the table held them at a later one, and
    the channels that were enabled at another.
  */
  ghost predicate PassRead(
      origin: Monitor, from: nat, steps: seq<Step>, channels: seq<ChannelId>, view: map<AccountId, seq<Signal>>, now: Time)
  {
    && NotificationRuns.ReadFrom(origin, steps, from, view)
    && (exists c: nat :: from <= c < |steps| && NotificationRuns.ChannelsListedAt(origin, steps, c, Elements(channels)))
    && (exists o: nat :: NotificationRuns.StartedAt(from, steps, o, view, now))
  }

  ghost predicate ActivitiesRead(origin: Monitor, from: nat, steps: seq<Step>, activities: seq<Activity>) {
    exists i: nat :: from <= i < |steps| && NotificationRuns.ActivitiesListedAt(origin, steps, i, activities)
  }

  lemma PassReadExtends(
      origin: Monitor, from: nat, steps: seq<Step>, more: seq<Step>, channels: seq<ChannelId>, view: map<AccountId, seq<Signal>>, now: Time)
    requires PassRead(origin, from, steps, channels, view, now) && steps <= more
    requires forall q :: |steps| <= q < |more| ==> !more[q].Observe?
    ensures PassRead(origin, from, more, channels, view, now)
  {
    NotificationRuns.ReadFromExtends(origin, steps, more, from, view);
    NotificationRuns.ReadsExtend(origin, steps, more);
    hide NotificationRuns.ReadFrom, NotificationRuns.ChannelsListedAt;
    var c: nat :| from <= c < |steps| && NotificationRuns.ChannelsListedAt(origin, steps, c, Elements(channels));
    assert NotificationRuns.ChannelsListedAt(origin, more, c, Elements(channels));
    var o: nat :| NotificationRuns.StartedAt(from, steps, o, view, now);
    assert NotificationRuns.StartedAt(from, more, o, view, now);
  }

  lemma ActivitiesReadEarlier(origin: Monitor, from: nat, earlier: nat, steps: seq<Step>, activities: seq<Activity>)
    requires earlier <= from
    ensures ActivitiesRead(origin, from, steps, activities) ==> ActivitiesRead(origin, earlier, steps, activities)
  {
    hide NotificationRuns.ActivitiesListedAt;
  }

  /** A pair that needed a message during the pass was tried, unless its channel has been deleted. */
  ghost predicate Retried(m: Monitor, from: nat, steps: seq<Step>, delivered: set<Receipt>, channels: seq<ChannelId>) {
    forall k, c :: k in m.db.alerts && IsSignal(k) && c in channels && c in m.db.channels && Receipt(k, c) !in delivered ==>
      Tried(steps, from, Receipt(k, c))
  }

  /** A finished pass is settled and has tried every pair that needed a message. */
  lemma DoneMeans(
      m: Monitor, u: seq<Step>, from: nat, earlier: nat, delivered: set<Receipt>, more: set<Receipt>,
      channels: seq<ChannelId>, view: map<AccountId, seq<Signal>>, now: Time)
    requires Inv(m) && StatesListed(m, view) && earlier <= from && delivered <= more
    requires forall a :: a in view ==> AccountDone(m, u, from, delivered, channels, a, view[a], now)
    ensures Settled(m.db, view, now) && Retried(m, earlier, u, more, channels)
  {
    hide Inv, WindowDone, Announced;
    forall a | a in view ensures AccountDone(m, u, earlier, more, channels, a, view[a], now) {
      AccountDoneWidens(m, u, from, earlier, delivered, more, channels, a, view[a], now);
    }
    DoneIsSettled(m, u, earlier, more, channels, view, now);
    forall k, c | k in m.db.alerts && IsSignal(k) && c in channels && c in m.db.channels && Receipt(k, c) !in more
      ensures Tried(u, earlier, Receipt(k, c))
    {
      PairIsTried(m, u, earlier, more, channels, view, now, k, c);
    }
  }

  lemma PairIsTried(
      m: Monitor, u: seq<Step>, from: nat, delivered: set<Receipt>,
      channels: seq<ChannelId>, view: map<AccountId, seq<Signal>>, now: Time, k: EventKey, c: ChannelId)
    requires Inv(m) && Settled(m.db, view, now)
    requires forall a :: a in view ==> AccountDone(m, u, from, delivered, channels, a, view[a], now)
    requires k in m.db.alerts && IsSignal(k) && c in channels && c in m.db.channels && Receipt(k, c) !in delivered
    ensures Tried(u, from, Receipt(k, c))
  {
    hide WindowSettled;
    var s := AlertHasSettledWindow(m, view, now, k);
    assert AccountDone(m, u, from, delivered, channels, k.account, view[k.account], now);
    assert WindowDone(m, u, from, delivered, channels, k.account, s, now);
    assert KeyAnnounced(u, from, delivered, m, channels, StateOf(k));
    assert Announced(u, from, delivered, m, Receipt(k, c));
  }

  /**
    Per signal that was read low, the pass created one event when none was
    standing before, and none otherwise, if time has advanced; and at any time,
    when the row was inactive, one unless an event of the signal carries the
    time of this pass already.
  */
  ghost predicate CountsLowEvents(m: Monitor, before: seq<Step>, steps: seq<Step>, view: map<AccountId, seq<Signal>>, now: Time) {
    forall a, id :: CountsLowEvent(m, before, steps, view, now, a, id)
  }

  ghost predicate CountsLowEvent(
      m: Monitor, before: seq<Step>, steps: seq<Step>, view: map<AccountId, seq<Signal>>, now: Time, a: AccountId, id: Identity)
  {
    && (NotificationRuns.WatchedLow(view, a, id) && NotificationRuns.KeysInOrder(m, a, id) && NotificationRuns.Unmixed(m.view, a, id) && now > m.clock ==>
          NotificationRuns.LowEvents(steps, a, id) ==
          NotificationRuns.LowEvents(before, a, id) + if NotificationRuns.Standing(m.db, a, id) then 0 else 1)
    && (NotificationRuns.WatchedLow(view, a, id) && Inactive(m.db, LowQuotaState(a, id)) ==>
          NotificationRuns.LowEvents(steps, a, id) ==
          NotificationRuns.LowEvents(before, a, id) + if LowQuota(a, id, now) in m.db.events then 0 else 1)
  }

  lemma PassCounts(origin: Monitor, before: seq<Step>, steps: seq<Step>, channels: seq<ChannelId>, view: map<AccountId, seq<Signal>>, now: Time)
    requires Inv(origin) && Conforms(origin, steps) && before <= steps && PassRead(origin, |before|, steps, channels, view, now)
    requires Settled(Replay(origin, steps).db, view, now)
    ensures CountsLowEvents(Replay(origin, before), before, steps, view, now)
  {
    hide Inv, NotificationRuns.WatchedLow, NotificationRuns.KeysInOrder, NotificationRuns.Unmixed, NotificationRuns.Standing,
      NotificationRuns.ReadFrom, NotificationRuns.ChannelsListedAt, Settled, NotificationRuns.StartedAt;
    var o: nat :| NotificationRuns.StartedAt(|before|, steps, o, view, now);
    var m := Replay(origin, before);
    forall a, id ensures CountsLowEvent(m, before, steps, view, now, a, id) {
      if NotificationRuns.WatchedLow(view, a, id) {
        if NotificationRuns.KeysInOrder(m, a, id) && NotificationRuns.Unmixed(m.view, a, id) && now > m.clock {
          SignalCounts(origin, before, steps, o, view, now, a, id);
        }
        if Inactive(m.db, LowQuotaState(a, id)) { DropCounts(origin, before, steps, o, view, now, a, id); }
      }
    }
  }

  lemma DropCounts(
      origin: Monitor, before: seq<Step>, steps: seq<Step>, o: nat, view: map<AccountId, seq<Signal>>, now: Time, a: AccountId, id: Identity)
    requires Inv(origin) && Conforms(origin, steps) && before <= steps && NotificationRuns.StartedAt(|before|, steps, o, view, now)
    requires Settled(Replay(origin, steps).db, view, now)
    requires NotificationRuns.WatchedLow(view, a, id) && Inactive(Replay(origin, before).db, LowQuotaState(a, id))
    ensures NotificationRuns.LowEvents(steps, a, id) ==
            NotificationRuns.LowEvents(before, a, id) + if LowQuota(a, id, now) in Replay(origin, before).db.events then 0 else 1
  {
    hide *;
    var pass := steps[|before|..];
    NotificationRuns.StartShifts(before, steps, o, view, now);
    NotificationRuns.LowEventsSplit(before, pass, a, id);
    NotificationRuns.PrefixConforms(origin, steps, |before|);
    NotificationRuns.RunKeepsInv(origin, before);
    NotificationRuns.RunKeepsInv(origin, steps);
    NotificationRuns.ReplaySplits(origin, steps, |before|);
    LowIsStanding(Replay(origin, steps), view, now, a, id);
    NotificationRuns.DropIsNewUnlessTimeRepeats(Replay(origin, before), pass, o - |before|, view, now, a, id);
  }

  lemma SignalCounts(
      origin: Monitor, before: seq<Step>, steps: seq<Step>, o: nat, view: map<AccountId, seq<Signal>>, now: Time, a: AccountId, id: Identity)
    requires Inv(origin) && Conforms(origin, steps) && before <= steps && NotificationRuns.StartedAt(|before|, steps, o, view, now)
    requires Settled(Replay(origin, steps).db, view, now)
    requires NotificationRuns.WatchedLow(view, a, id) && NotificationRuns.KeysInOrder(Replay(origin, before), a, id)
    requires NotificationRuns.Unmixed(Replay(origin, before).view, a, id) && now > Replay(origin, before).clock
    ensures NotificationRuns.LowEvents(steps, a, id) ==
            NotificationRuns.LowEvents(before, a, id) + if NotificationRuns.Standing(Replay(origin, before).db, a, id) then 0 else 1
  {
    hide *;
    var pass := steps[|before|..];
    NotificationRuns.StartShifts(before, steps, o, view, now);
    NotificationRuns.LowEventsSplit(before, pass, a, id);
    NotificationRuns.PrefixConforms(origin, steps, |before|);
    NotificationRuns.RunKeepsInv(origin, before);
    NotificationRuns.RunKeepsInv(origin, steps);
    NotificationRuns.ReplaySplits(origin, steps, |before|);
    LowIsStanding(Replay(origin, steps), view, now, a, id);
    NotificationRuns.PassCreatesOne(Replay(origin, before), pass, o - |before|, view, now, a, id);
  }

  /** A settled signal that was read low has a standing event; one that was not low, or not read, has an inactive row. */
  lemma LowIsStanding(m: Monitor, view: map<AccountId, seq<Signal>>, now: Time, a: AccountId, id: Identity)
    requires Inv(m) && Settled(m.db, view, now)
    ensures NotificationRuns.WatchedLow(view, a, id) ==> NotificationRuns.Standing(m.db, a, id)
    ensures (a in view ==> forall s <- view[a] :: SignalKey(s) == id ==> !BelowThreshold(s)) ==> Inactive(m.db, LowQuotaState(a, id))
  {
    hide NoOrphan, ResetSettled;
    var key := LowQuotaState(a, id);
    if a in view {
      assert AccountSettled(m.db, a, view[a], now);
      if NotificationRuns.WatchedLow(view, a, id) {
        var s :| s in view[a] && SignalKey(s) == id;
        assert WindowSettled(m.db, a, s, now);
        var k :| ActiveWith(m.db, key, k) && k in m.db.alerts && k in m.db.events;
        assert Fits(key, m.db.states[key].value);
        assert ActiveWith(m.db, key, LowQuota(a, id, k.at));
      }
      if key in m.db.states && forall s <- view[a] :: SignalKey(s) == id ==> !BelowThreshold(s) {
        assert Observed(view[a], key);
        var s :| s in view[a] && SignalKey(s) == id;
        assert WindowSettled(m.db, a, s, now);
      }
    }
  }

  lemma {:induction false} DistinctLength(ids: seq<AccountId>, keys: set<AccountId>)
    requires (forall i, j :: 0 <= i < j < |ids| ==> ids[i] != ids[j]) && forall a :: a in ids <==> a in keys
    ensures |ids| == |keys|
  {
    if ids == [] {
      assert keys == {};
    } else {
      var before, last := ids[..|ids| - 1], ids[|ids| - 1];
      assert ids == before + [last];
      assert forall a :: a in before <==> a in keys - {last};
      DistinctLength(before, keys - {last});
    }
  }

  datatype Delivery = Delivered | Failure | AlreadyDone

  class Notifications {
    const store: NotificationStore
    var running: bool
    var result: Evaluation

    constructor (store: NotificationStore)
      ensures this.store == store && !running
    {
      this.store := store;
      running := false;
      result := Evaluation(0, 0, 0, 0, 0, 0);
    }

    /** One message to one channel, unless its receipt is there. */
    method Deliver(k: EventKey, c: ChannelId) returns (d: Delivery)
      requires store.Valid() && store.m.control.Idle? && c in store.m.issuedChannels
      modifies store
      ensures store.Valid() && store.Extends() && Progress(old(store.m), old(store.steps), store.m, store.steps)
      ensures Counted(old(store.steps), store.steps, if d.Delivered? then 1 else 0, if d.Failure? then 1 else 0, 0, 0)
      ensures store.faults == old(store.faults) ==> Quiet(old(store.m), store.m)
      ensures store.faults == old(store.faults) ==>
                Announced(store.steps, |old(store.steps)|, old(store.m.db.deliveries), store.m, Receipt(k, c))
      ensures !d.Failure? ==> store.failures == old(store.failures)
    {
      hide Inv, Rely, Quiet, Conforms, Replay, Receipts, Raised, Misses, Completions, FailuresOf, Starts, Acts, NotificationStore.Valid, NotificationStore.Tracked;
      var r := Receipt(k, c);
      ghost var start := store.m;
      var read, done := store.NotificationDelivered(r);
      RelyForDeliveries(start, store.m);
      if !read { return Failure; }
      if done { return AlreadyDone; }
      ghost var checked := store.m;
      var found := store.NotificationChannel(c);
      RelyForDeliveries(checked, store.m);
      QuietIsTransitive(start, checked, store.m);
      if !found { return Failure; }
      ghost var ready, steps := store.m, store.steps;
      d := SendOnce(r);
      QuietIsTransitive(start, ready, store.m);
      assert |old(store.steps)| <= |steps|;
    }

    /** A send and, when it was accepted, one attempt to write the receipt. */
    method SendOnce(r: Receipt) returns (d: Delivery)
      requires store.Valid() && store.m.control.Idle? && r !in store.m.db.deliveries
      modifies store
      ensures store.Valid() && store.Extends() && Progress(old(store.m), old(store.steps), store.m, store.steps) && !d.AlreadyDone?
      ensures Counted(old(store.steps), store.steps, if d.Delivered? then 1 else 0, if d.Failure? then 1 else 0, 0, 0)
      ensures store.faults == old(store.faults) ==> Quiet(old(store.m), store.m)
      ensures Tried(store.steps, |old(store.steps)|, r)
      ensures !d.Failure? ==> store.failures == old(store.failures)
    {
      hide Inv, Rely, Conforms, Replay, Receipts, Raised, Misses, Completions, FailuresOf, Starts, Acts, NotificationStore.Valid, NotificationStore.Tracked;
      ghost var start := store.m;
      ghost var mid;
      var accepted;
      accepted, mid := store.SendChannel(r);
      RelyForDeliveries(start, mid);
      assert Tried(store.steps, |old(store.steps)|, r);
      if !accepted { return Failure; }
      ghost var sent, steps := store.m, store.steps;
      var recorded;
      recorded, mid := store.RecordNotificationDelivery(r);
      RelyForDeliveries(sent, mid);
      TriedPersists(steps, store.steps, |old(store.steps)|, r);
      return if recorded then Delivered else Failure;
    }

    /** One message to every channel that has no receipt yet. */
    method DeliverAll(channels: seq<ChannelId>, k: EventKey) returns (delivered: nat, failed: nat)
      requires store.Valid() && store.m.control.Idle?
      requires forall c <- channels :: c in store.m.issuedChannels
      modifies store
      ensures store.Valid() && store.Extends() && Progress(old(store.m), old(store.steps), store.m, store.steps)
      ensures Counted(old(store.steps), store.steps, delivered, failed, 0, 0)
      ensures store.faults == old(store.faults) ==> Quiet(old(store.m), store.m)
      ensures store.faults == old(store.faults) ==>
                forall c <- channels :: Announced(store.steps, |old(store.steps)|, old(store.m.db.deliveries), store.m, Receipt(k, c))
      ensures failed == 0 ==> store.failures == old(store.failures)
    {
      hide Inv, Rely, Quiet, Conforms, Replay, Receipts, Raised, Misses, Completions, FailuresOf, Starts, Acts, NotificationStore.Valid, NotificationStore.Tracked;
      delivered, failed := 0, 0;
      RelyIsReflexive(store.m);
      for i := 0 to |channels|
        invariant failed == 0 ==> store.failures == old(store.failures)
        invariant store.Valid() && store.Extends() && Progress(old(store.m), old(store.steps), store.m, store.steps)
        invariant Counted(old(store.steps), store.steps, delivered, failed, 0, 0)
        invariant store.faults == old(store.faults) ==> Quiet(old(store.m), store.m)
        invariant store.faults == old(store.faults) ==> forall c <- channels[..i] ::
                    Announced(store.steps, |old(store.steps)|, old(store.m.db.deliveries), store.m, Receipt(k, c))
      {
        ghost var before, steps := store.m, store.steps;
        var d := Deliver(k, channels[i]);
        match d {
          case Delivered => delivered := delivered + 1;
          case Failure => failed := failed + 1;
          case AlreadyDone =>
        }
        QuietIsTransitive(old(store.m), before, store.m);
        ProgressComposes(old(store.m), old(store.steps), before, steps, store.m, store.steps);
        if store.faults == old(store.faults) {
          AnnouncedFromEarlier(old(store.m), old(store.steps), before, steps, store.m, store.steps, Receipt(k, channels[i]));
          forall c <- channels[..i]
            ensures Announced(store.steps, |old(store.steps)|, old(store.m.db.deliveries), store.m, Receipt(k, c))
          {
            AnnouncedPersists(steps, store.steps, |old(store.steps)|, old(store.m.db.deliveries), before, store.m, Receipt(k, c));
          }
        }
        assert channels[..i + 1] == channels[..i] + [channels[i]];
      }
      assert channels[..|channels|] == channels;
    }

    /** Saves the event with its alert, then delivers it. */
    method Emit(channels: seq<ChannelId>, k: EventKey, withAlert: bool)
      returns (delivered: nat, failed: nat, created: bool, ok: bool)
      requires store.Valid() && store.m.control.Idle? && PutEventRule(store.m, k, withAlert)
      requires forall c <- channels :: c in store.m.issuedChannels
      requires k.account in store.m.issued
      modifies store
      ensures store.Valid() && store.Extends() && Progress(old(store.m), old(store.steps), store.m, store.steps)
      ensures Counted(old(store.steps), store.steps, delivered, failed, if created && withAlert then 1 else 0, 0)
      ensures store.faults == old(store.faults) ==> Announcing(old(store.m), store.m, k, withAlert)
      ensures store.faults == old(store.faults) ==>
                forall c <- channels :: Announced(store.steps, |old(store.steps)|, old(store.m.db.deliveries), store.m, Receipt(k, c))
      ensures ok ==> store.failures == old(store.failures)
    {
      hide Inv, Rely, Quiet, Conforms, Replay, Receipts, Raised, Misses, Completions, FailuresOf, Starts, Acts, Announcing, NotificationStore.Valid, NotificationStore.Tracked;
      delivered, failed := 0, 0;
      ghost var mid;
      ok, created, mid := store.SaveNotificationEventAndAlert(k, withAlert);
      RelyForDeliveries(old(store.m), mid);
      if !ok {
        created := false;
        return;
      }
      ghost var saved := store.steps;
      delivered, failed := DeliverAll(channels, k);
      ok := failed == 0;
      if store.faults == old(store.faults) {
        QuietAroundEvent(old(store.m), mid, store.m, k, withAlert, created);
        forall r | Tried(store.steps, |saved|, r) ensures Tried(store.steps, |old(store.steps)|, r) {
          TriedSooner(store.steps, |saved|, |old(store.steps)|, r);
        }
      }
    }

    /** Emits an event and adds up what came of it. */
    method EmitAndCount(channels: seq<ChannelId>, k: EventKey, withAlert: bool) returns (ok: bool)
      requires store.Valid() && store.m.control.Idle? && PutEventRule(store.m, k, withAlert)
      requires forall c <- channels :: c in store.m.issuedChannels
      requires k.account in store.m.issued
      modifies store, this`result
      ensures store.Valid() && store.Extends() && Progress(old(store.m), old(store.steps), store.m, store.steps)
      ensures Tallied(old(result), old(store.steps), result, store.steps) && SameActivities(old(result), result)
      ensures store.faults == old(store.faults) ==>
                && Announcing(old(store.m), store.m, k, withAlert)
                && forall c <- channels :: Announced(store.steps, |old(store.steps)|, old(store.m.db.deliveries), store.m, Receipt(k, c))
      ensures ok ==> store.failures == old(store.failures)
    {
      hide Inv, Rely, Quiet, Conforms, Replay, Receipts, Raised, Misses, Completions, FailuresOf, Starts, Acts, Progress, Kept, Announcing,
        Announced, PutEventRule, NotificationStore.Valid, NotificationStore.Tracked;
      var delivered, failed, created;
      delivered, failed, created, ok := Emit(channels, k, withAlert);
      result := result.(deliveredMessages := result.deliveredMessages + delivered,
                        failedMessages := result.failedMessages + failed,
                        triggeredAlerts := result.triggeredAlerts + if created && withAlert then 1 else 0);
    }

    /** Emits the alert that a state row names and adds up the outcome. */
    method Announce(channels: seq<ChannelId>, k: EventKey) returns (ok: bool)
      requires store.Valid() && store.m.control.Idle? && IsSignal(k) && PutEventRule(store.m, k, true)
      requires forall c <- channels :: c in store.m.issuedChannels
      requires k.account in store.m.issued
      modifies store, this`result
      ensures store.Valid() && store.Extends() && Progress(old(store.m), old(store.steps), store.m, store.steps)
      ensures Tallied(old(result), old(store.steps), result, store.steps) && SameActivities(old(result), result)
      ensures store.faults == old(store.faults) ==>
                && Kept(old(store.m), store.m, {StateOf(k)}) && store.m.db.states == old(store.m.db.states)
                && k in store.m.db.alerts && k in store.m.db.events
                && forall c <- channels :: Announced(store.steps, |old(store.steps)|, old(store.m.db.deliveries), store.m, Receipt(k, c))
      ensures ok ==> store.failures == old(store.failures)
    {
      hide Inv, Rely, Quiet, Conforms, Replay, Receipts, Raised, Misses, Completions, FailuresOf, Starts, Acts, Progress, Kept, Announcing, NotificationStore.Valid, NotificationStore.Tracked;
      ok := EmitAndCount(channels, k, true);
      if store.faults == old(store.faults) {
        AnnouncingIsKept(old(store.m), store.m, k);
      }
    }

    /** Marks a state row active for a new alert. */
    method RaiseSignal(key: StateKey, k: EventKey, now: Time) returns (ok: bool)
      requires store.Valid() && !key.ActivityAttempt? && PutStateRule(store.m, key, Active(k), now)
      requires key.account in store.m.issued
      modifies store
      ensures store.Valid() && store.Extends() && Progress(old(store.m), old(store.steps), store.m, store.steps)
      ensures SameCounts(old(store.steps), store.steps)
      ensures ok ==> ActiveWith(store.m.db, key, k)
      ensures store.faults == old(store.faults) ==> ok && Kept(old(store.m), store.m, {key})
      ensures ok ==> store.failures == old(store.failures)
    {
      hide Inv, Conforms, Replay, Receipts, Raised, Misses, Completions, FailuresOf, Starts, Acts, NotificationStore.Valid, NotificationStore.Tracked;
      ghost var mid;
      ok, mid := store.SaveNotificationState(key, Active(k), now);
    }

    /** Removes the alert a state row names, then marks the row clear. */
    method ClearSignal(key: StateKey, k: EventKey, now: Time) returns (ok: bool)
      requires store.Valid() && store.m.control.Idle? && !key.ActivityAttempt?
      requires key in store.m.db.states ==> store.m.db.states[key].value == Active(k)
      requires key.LowQuotaState? ==>
                 key.account in store.m.view && exists s <- store.m.view[key.account] :: SignalKey(s) == key.identity && !BelowThreshold(s)
      requires key.account in store.m.issued
      modifies store
      ensures store.Valid() && store.Extends() && Progress(old(store.m), old(store.steps), store.m, store.steps)
      ensures SameCounts(old(store.steps), store.steps)
      ensures store.faults == old(store.faults) ==> Inactive(store.m.db, key)
      ensures store.faults == old(store.faults) && IsSignal(k) && StateOf(k) == key ==> Kept(old(store.m), store.m, {key})
      ensures ok ==> store.failures == old(store.failures)
    {
      hide Inv, Rely, Quiet, Kept, Progress, PutStateRule, Conforms, Replay, Receipts, Raised, Misses, Completions, FailuresOf, Starts, Acts,
        NotificationStore.Valid, NotificationStore.Tracked;
      ghost var start, mid, late, began := store.m, store.m, store.m, store.steps;
      ok, mid := store.DeleteAlert(k);
      ghost var dropped, steps := store.m, store.steps;
      RelyThenDrop(start, began, mid, k, dropped, steps, ok);
      if !ok { return; }
      MayClear(start, mid, key, k, now);
      ok, late := store.SaveNotificationState(key, Clear, now);
      RelyThenPut(dropped, steps, late, key, now, store.m, store.steps, ok);
      ProgressComposes(start, began, dropped, steps, store.m, store.steps);
      if store.faults == old(store.faults) { ClearedIsKept(start, mid, late, key, k, now); }
    }

    /** The state row of a signal; an active one names an alert of that signal. */
    method ReadSignal(key: StateKey) returns (ok: bool, found: bool, state: StateValue)
      requires store.Valid() && store.m.control.Idle? && key.account in store.m.issued
      modifies store
      ensures store.Valid() && store.Extends() && Progress(old(store.m), old(store.steps), store.m, store.steps)
      ensures SameCounts(old(store.steps), store.steps)
      ensures ok ==> store.failures == old(store.failures)
      ensures ok ==> (found <==> key in store.m.db.states)
      ensures ok && found ==> store.m.db.states[key].value == state && (state.Active? ==> IsSignal(state.key) && StateOf(state.key) == key)
      ensures store.faults == old(store.faults) ==> ok && Kept(old(store.m), store.m, {})
    {
      hide Inv, Rely, Quiet, Conforms, Replay, Receipts, Raised, Misses, Completions, FailuresOf, Starts, Acts, Kept, Progress, NotificationStore.Valid, NotificationStore.Tracked;
      ok, found, state := store.NotificationState(key);
      store.ValidMeans();
      RelyIsProgress(old(store.m), old(store.steps), store.m, store.steps);
      if store.faults == old(store.faults) { QuietIsKept(old(store.m), store.m); }
      if ok && found && state.Active? { ActiveRowFits(store.m, key); }
    }

    /** The alert of a window at or below the threshold, or its recovery. */
    method EvaluateLowQuota(channels: seq<ChannelId>, a: AccountId, s: Signal, now: Time) returns (ok: bool)
      requires store.Valid() && Reading(store.m, a, s, now)
      requires forall c <- channels :: c in store.m.issuedChannels
      modifies store, this`result
      ensures store.Valid() && store.Extends() && Progress(old(store.m), old(store.steps), store.m, store.steps)
      ensures Tallied(old(result), old(store.steps), result, store.steps) && SameActivities(old(result), result)
      ensures store.faults == old(store.faults) ==>
                && Kept(old(store.m), store.m, {LowQuotaState(a, SignalKey(s))}) && LowSettled(store.m.db, a, s)
                && KeyAnnounced(store.steps, |old(store.steps)|, old(store.m.db.deliveries), store.m, channels, LowQuotaState(a, SignalKey(s)))
      ensures ok ==> store.failures == old(store.failures)
    {
      hide Inv, Rely, Quiet, Conforms, Replay, Receipts, Raised, Misses, Completions, FailuresOf, Starts, Acts, Kept, Announced, KeyAnnounced, Progress, NotificationStore.Valid, NotificationStore.Tracked;
      var key := LowQuotaState(a, SignalKey(s));
      var found, state;
      store.ValidMeans();
      ViewIsIssued(store.m);
      ok, found, state := ReadSignal(key);
      ghost var m, steps := store.m, store.steps;
      ProgressKeeps(old(store.m), old(store.steps), m, steps);
      if !ok { return; }
      if !BelowThreshold(s) {
        if found && state.Active? {
          ok := ClearSignal(key, state.key, now);
          ProgressComposes(old(store.m), old(store.steps), m, steps, store.m, store.steps);
          if store.faults == old(store.faults) { KeptTwice(old(store.m), m, store.m, key); }
        } else if store.faults == old(store.faults) {
          KeptMore(old(store.m), m, key);
        }
        if store.faults == old(store.faults) {
          InactiveNeedsNothing(store.steps, |old(store.steps)|, old(store.m.db.deliveries), store.m, channels, key);
        }
      } else {
        var k := LowQuota(a, SignalKey(s), now);
        if found && state.Active? {
          k := state.key;
        } else {
          ok := RaiseSignal(key, k, now);
          ProgressComposes(old(store.m), old(store.steps), m, steps, store.m, store.steps);
          if store.faults == old(store.faults) { KeptTwice(old(store.m), m, store.m, key); }
          ProgressKeeps(m, steps, store.m, store.steps);
          if !ok { return; }
        }
        ghost var raised, raisedSteps := store.m, store.steps;
        ok := Announce(channels, k);
        ProgressComposes(old(store.m), old(store.steps), raised, raisedSteps, store.m, store.steps);
        if store.faults == old(store.faults) {
          AnnouncedSince(old(store.m), old(store.steps), raised, raisedSteps, store.m, store.steps, channels, key, k);
          ActiveIsSettled(store.m.db, a, s, k);
        }
      }
    }

    /** Removes the alert a state row names and leaves the row to be overwritten. */
    method DropNamedAlert(key: StateKey, k: EventKey) returns (ok: bool)
      requires store.Valid() && store.m.control.Idle? && !key.ActivityAttempt?
      requires key in store.m.db.states && store.m.db.states[key].value.Active? ==> store.m.db.states[key].value.key == k
      modifies store
      ensures store.Valid() && store.Extends() && Progress(old(store.m), old(store.steps), store.m, store.steps)
      ensures SameCounts(old(store.steps), store.steps)
      ensures ok ==> AlertCleared(store.m.db, key)
      ensures forall other :: other in store.m.db.states ==>
                other in old(store.m.db.states) && store.m.db.states[other] == old(store.m.db.states)[other]
      ensures store.faults == old(store.faults) ==>
                ok && (IsSignal(k) && StateOf(k) == key ==> Kept(old(store.m), store.m, {key}))
      ensures ok ==> store.failures == old(store.failures)
    {
      hide Inv, Conforms, Replay, Receipts, Raised, Misses, Completions, FailuresOf, Starts, Acts, NotificationStore.Valid, NotificationStore.Tracked;
      ghost var mid;
      ok, mid := store.DeleteAlert(k);
    }

    /** The reminder of a window that resets within three days or one, or its removal. */
    method EvaluateResetReminder(channels: seq<ChannelId>, a: AccountId, s: Signal, now: Time) returns (ok: bool)
      requires store.Valid() && Reading(store.m, a, s, now)
      requires forall c <- channels :: c in store.m.issuedChannels
      modifies store, this`result
      ensures store.Valid() && store.Extends() && Progress(old(store.m), old(store.steps), store.m, store.steps)
      ensures Tallied(old(result), old(store.steps), result, store.steps) && SameActivities(old(result), result)
      ensures store.faults == old(store.faults) ==>
                && Kept(old(store.m), store.m, {QuotaResetState(a, SignalKey(s))}) && ResetSettled(store.m.db, a, s, now)
                && KeyAnnounced(store.steps, |old(store.steps)|, old(store.m.db.deliveries), store.m, channels, QuotaResetState(a, SignalKey(s)))
      ensures ok ==> store.failures == old(store.failures)
    {
      hide Inv, Rely, Quiet, Conforms, Replay, Receipts, Raised, Misses, Completions, FailuresOf, Starts, Acts, Kept, Announced, KeyAnnounced, Progress, ReminderDays, AlertCleared, NotificationStore.Valid, NotificationStore.Tracked;
      var key := QuotaResetState(a, SignalKey(s));
      var found, state;
      store.ValidMeans();
      ViewIsIssued(store.m);
      ok, found, state := ReadSignal(key);
      ghost var m, steps := store.m, store.steps;
      ProgressKeeps(old(store.m), old(store.steps), m, steps);
      if !ok { return; }
      if ReminderDays(s, now) == 0 {
        if found && state.Active? {
          ok := ClearSignal(key, state.key, now);
          ProgressComposes(old(store.m), old(store.steps), m, steps, store.m, store.steps);
          if store.faults == old(store.faults) { KeptTwice(old(store.m), m, store.m, key); }
        } else if store.faults == old(store.faults) {
          KeptMore(old(store.m), m, key);
        }
        if store.faults == old(store.faults) {
          InactiveNeedsNothing(store.steps, |old(store.steps)|, old(store.m.db.deliveries), store.m, channels, key);
        }
      } else {
        var k := ResetKey(a, s, now);
        ok := PointAt(key, k, found, state, now);
        ProgressComposes(old(store.m), old(store.steps), m, steps, store.m, store.steps);
        if store.faults == old(store.faults) { KeptTwice(old(store.m), m, store.m, key); }
        ProgressKeeps(m, steps, store.m, store.steps);
        if !ok { return; }
        ghost var raised, raisedSteps := store.m, store.steps;
        ok := Announce(channels, k);
        ProgressComposes(old(store.m), old(store.steps), raised, raisedSteps, store.m, store.steps);
        if store.faults == old(store.faults) {
          AnnouncedSince(old(store.m), old(store.steps), raised, raisedSteps, store.m, store.steps, channels, key, k);
        }
      }
    }

    /** Makes a reset state row name the given reminder, removing the alert of an earlier one first. */
    method PointAt(key: StateKey, k: EventKey, found: bool, state: StateValue, now: Time) returns (ok: bool)
      requires store.Valid() && store.m.control.Idle? && key.QuotaResetState? && IsSignal(k) && StateOf(k) == key
      requires found <==> key in store.m.db.states
      requires found ==> store.m.db.states[key].value == state && (state.Active? ==> IsSignal(state.key) && StateOf(state.key) == key)
      requires key.account in store.m.issued
      modifies store
      ensures store.Valid() && store.Extends() && Progress(old(store.m), old(store.steps), store.m, store.steps)
      ensures SameCounts(old(store.steps), store.steps)
      ensures ok ==> ActiveWith(store.m.db, key, k)
      ensures store.faults == old(store.faults) ==> ok && Kept(old(store.m), store.m, {key})
      ensures ok ==> store.failures == old(store.failures)
    {
      hide Inv, Rely, Quiet, Conforms, Replay, Receipts, Raised, Misses, Completions, FailuresOf, Starts, Acts, Kept, Progress, NotificationStore.Valid, NotificationStore.Tracked;
      ok := true;
      ProgressIsReflexive(store.m, store.steps);
      if found && state.Active? && state.key != k {
        ok := DropNamedAlert(key, state.key);
        if !ok { return; }
      }
      ghost var m, steps := store.m, store.steps;
      ProgressKeeps(old(store.m), old(store.steps), m, steps);
      if !found || state != Active(k) {
        ok := RaiseSignal(key, k, now);
        ProgressComposes(old(store.m), old(store.steps), m, steps, store.m, store.steps);
        if store.faults == old(store.faults) { KeptTwice(old(store.m), m, store.m, key); }
      } else {
        KeptMore(m, m, key);
      }
    }

    /** Forgets the states, and the alerts they name, of windows the account no longer has. */
    method ReconcileSignalStates(a: AccountId, observed: set<StateKey>)
      returns (ok: bool, ghost touched: set<StateKey>)
      requires store.Valid() && store.m.control.Idle? && a in store.m.view
      requires forall s <- store.m.view[a] :: LowQuotaState(a, SignalKey(s)) in observed
      modifies store
      ensures store.Valid() && store.Extends() && Progress(old(store.m), old(store.steps), store.m, store.steps)
      ensures SameCounts(old(store.steps), store.steps)
      ensures forall key <- touched :: key.account == a && !key.ActivityAttempt? && key !in observed
      ensures store.faults == old(store.faults) ==>
                && Kept(old(store.m), store.m, touched)
                && forall key :: key in store.m.db.states && key.account == a && !key.ActivityAttempt? ==> key in observed
      ensures ok ==> store.failures == old(store.failures)
    {
      hide Inv, Rely, Quiet, Conforms, Replay, Receipts, Raised, Misses, Completions, FailuresOf, Starts, Acts, Kept, Progress, SameCounts, NotificationStore.Valid, NotificationStore.Tracked;
      touched := {};
      var read, rows := store.NotificationStates(a);
      ok := read;
      RelyIsProgress(old(store.m), old(store.steps), store.m, store.steps);
      if store.faults == old(store.faults) { QuietIsKept(old(store.m), store.m); }
      if !ok { return; }
      ghost var listed := store.m;
      store.ValidMeans();
      ActiveRowsFit(listed);
      ProgressKeeps(old(store.m), old(store.steps), store.m, store.steps);
      var keys := Listing(rows.Keys);
      for i := 0 to |keys|
        invariant ok ==> store.failures == old(store.failures)
        invariant store.Valid() && store.Extends() && Progress(old(store.m), old(store.steps), store.m, store.steps)
        invariant SameCounts(old(store.steps), store.steps)
        invariant forall key <- touched :: key.account == a && !key.ActivityAttempt? && key !in observed
        invariant forall key :: key in store.m.db.states ==> key in listed.db.states && store.m.db.states[key] == listed.db.states[key]
        invariant store.faults == old(store.faults) ==> Kept(old(store.m), store.m, touched)
        invariant store.faults == old(store.faults) ==>
                    forall key <- keys[..i] :: key in store.m.db.states && !key.ActivityAttempt? ==> key in observed
      {
        var key := keys[i];
        ProgressKeeps(old(store.m), old(store.steps), store.m, store.steps);
        if !key.ActivityAttempt? && key !in observed {
          ghost var m, steps := store.m, store.steps;
          var done := ForgetSignal(key, rows[key]);
          ProgressComposes(old(store.m), old(store.steps), m, steps, store.m, store.steps);
          SameCountsCompose(old(store.steps), steps, store.steps);
          if store.faults == old(store.faults) {
            KeptComposes(old(store.m), m, store.m, touched, {key});
          }
          touched := touched + {key};
          ok := ok && done;
        }
        assert keys[..i + 1] == keys[..i] + [key];
      }
      assert keys[..|keys|] == keys;
    }

    /** Drops one stale state row after the alert it names; the row stays when the alert could not be removed. */
    method ForgetSignal(key: StateKey, state: StateValue) returns (ok: bool)
      requires store.Valid() && store.m.control.Idle? && !key.ActivityAttempt?
      requires key in store.m.db.states ==> store.m.db.states[key].value == state
      requires state.Active? ==> IsSignal(state.key) && StateOf(state.key) == key
      requires key.LowQuotaState? ==>
                 key.account in store.m.view && forall s <- store.m.view[key.account] :: SignalKey(s) != key.identity
      modifies store
      ensures store.Valid() && store.Extends() && Progress(old(store.m), old(store.steps), store.m, store.steps)
      ensures SameCounts(old(store.steps), store.steps)
      ensures forall other :: other in store.m.db.states ==>
                other in old(store.m.db.states) && store.m.db.states[other] == old(store.m.db.states)[other]
      ensures store.faults == old(store.faults) ==> ok && key !in store.m.db.states && Kept(old(store.m), store.m, {key})
      ensures ok ==> store.failures == old(store.failures)
    {
      hide Inv, Rely, Quiet, Kept, Progress, DropStateRule, Conforms, Replay, Receipts, Raised, Misses, Completions, FailuresOf, Starts, Acts,
        NotificationStore.Valid, NotificationStore.Tracked;
      ok := true;
      ghost var start, began := store.m, store.steps;
      ProgressIsReflexive(start, began);
      KeptMore(start, start, key);
      if state.Active? {
        ok := DropNamedAlert(key, state.key);
        ProgressKeeps(start, began, store.m, store.steps);
        if !ok { return; }
      }
      ghost var m, steps := store.m, store.steps;
      MayForget(start, m, key, state);
      ghost var mid;
      ok, mid := store.DeleteNotificationState(key);
      RelyThenForget(m, steps, mid, key, store.m, store.steps, ok);
      ProgressComposes(start, began, m, steps, store.m, store.steps);
      if store.faults == old(store.faults) { KeptTwice(start, m, store.m, key); }
    }

    /** Both signals of one window. */
    method EvaluateWindow(channels: seq<ChannelId>, a: AccountId, s: Signal, now: Time) returns (errors: nat)
      requires store.Valid() && Reading(store.m, a, s, now)
      requires forall c <- channels :: c in store.m.issuedChannels
      modifies store, this`result
      ensures store.Valid() && store.Extends() && Progress(old(store.m), old(store.steps), store.m, store.steps)
      ensures Tallied(old(result), old(store.steps), result, store.steps) && SameActivities(old(result), result)
      ensures store.faults == old(store.faults) ==>
                && Kept(old(store.m), store.m, {LowQuotaState(a, SignalKey(s)), QuotaResetState(a, SignalKey(s))})
                && WindowDone(store.m, store.steps, |old(store.steps)|, old(store.m.db.deliveries), channels, a, s, now)
      ensures errors == 0 ==> store.failures == old(store.failures)
    {
      hide Tallied, Inv, Rely, Quiet, Conforms, Replay, Receipts, Raised, Misses, Completions, FailuresOf, Starts, Acts, Kept, Progress, LowSettled, ResetSettled, KeyAnnounced,
        NotificationStore.Valid, NotificationStore.Tracked;
      var low := EvaluateLowQuota(channels, a, s, now);
      ghost var m, steps, tally := store.m, store.steps, result;
      store.ValidMeans();
      ProgressKeeps(old(store.m), old(store.steps), m, steps);
      var reset := EvaluateResetReminder(channels, a, s, now);
      errors := (if low then 0 else 1) + if reset then 0 else 1;
      ProgressComposes(old(store.m), old(store.steps), m, steps, store.m, store.steps);
      TalliesCompose(old(result), old(store.steps), tally, steps, result, store.steps);
      if store.faults == old(store.faults) {
        var keys := {LowQuotaState(a, SignalKey(s))} + {QuotaResetState(a, SignalKey(s))};
        assert keys == {LowQuotaState(a, SignalKey(s)), QuotaResetState(a, SignalKey(s))};
        KeptComposes(old(store.m), m, store.m, {LowQuotaState(a, SignalKey(s))}, {QuotaResetState(a, SignalKey(s))});
        LowSettledIsKept(m, store.m, {QuotaResetState(a, SignalKey(s))}, a, s);
        KeyAnnouncedPersists(m, steps, store.m, store.steps, |old(store.steps)|, old(store.m.db.deliveries), channels,
                             LowQuotaState(a, SignalKey(s)), {QuotaResetState(a, SignalKey(s))});
        KeyAnnouncedEarlier(old(store.m), old(store.steps), m, steps, store.m, store.steps, channels, QuotaResetState(a, SignalKey(s)));
      }
    }

    /** The windows of one account in order; collects the state keys they own. */
    method EvaluateWindows(channels: seq<ChannelId>, a: AccountId, windows: seq<Signal>, now: Time)
      returns (errors: nat, observed: set<StateKey>)
      requires store.Valid() && store.m.control.Idle? && now == store.m.clock && a in store.m.view && store.m.view[a] == windows
      requires forall c <- channels :: c in store.m.issuedChannels
      modifies store, this`result
      ensures store.Valid() && store.Extends() && Progress(old(store.m), old(store.steps), store.m, store.steps)
      ensures Tallied(old(result), old(store.steps), result, store.steps) && SameActivities(old(result), result)
      ensures observed == KeysOf(a, windows)
      ensures store.faults == old(store.faults) ==> Kept(old(store.m), store.m, observed)
      ensures store.faults == old(store.faults) && Distinct(windows) ==>
                forall s <- windows :: WindowDone(store.m, store.steps, |old(store.steps)|, old(store.m.db.deliveries), channels, a, s, now)
      ensures errors == 0 ==> store.failures == old(store.failures)
    {
      hide Tallied, Inv, Rely, Quiet, Conforms, Replay, Receipts, Raised, Misses, Completions, FailuresOf, Starts, Acts, Kept, Progress, WindowDone,
        NotificationStore.Valid, NotificationStore.Tracked;
      errors, observed := 0, {};
      ghost var from, delivered := |store.steps|, store.m.db.deliveries;
      ProgressIsReflexive(store.m, store.steps);
      NothingTallied(result, store.steps);
      for j := 0 to |windows|
        invariant errors == 0 ==> store.failures == old(store.failures)
        invariant store.Valid() && store.Extends() && Progress(old(store.m), old(store.steps), store.m, store.steps)
        invariant Tallied(old(result), old(store.steps), result, store.steps) && SameActivities(old(result), result)
        invariant observed == KeysOf(a, windows[..j])
        invariant store.faults == old(store.faults) ==> Kept(old(store.m), store.m, observed)
        invariant store.faults == old(store.faults) && Distinct(windows) ==>
                    forall i | 0 <= i < j :: WindowDone(store.m, store.steps, from, delivered, channels, a, windows[i], now)
      {
        var s := windows[j];
        ghost var m, steps, tally := store.m, store.steps, result;
        ProgressKeeps(old(store.m), old(store.steps), m, steps);
        store.ValidMeans();
        var keys := {LowQuotaState(a, SignalKey(s)), QuotaResetState(a, SignalKey(s))};
        var failures := EvaluateWindow(channels, a, s, now);
        errors := errors + failures;
        ProgressComposes(old(store.m), old(store.steps), m, steps, store.m, store.steps);
        TalliesCompose(old(result), old(store.steps), tally, steps, result, store.steps);
        if store.faults == old(store.faults) {
          KeptComposes(old(store.m), m, store.m, observed, keys);
          if Distinct(windows) {
            WindowDoneEarlier(old(store.m), old(store.steps), m, steps, store.m, store.steps, channels, a, s, now);
            forall i | 0 <= i < j ensures WindowDone(store.m, store.steps, from, delivered, channels, a, windows[i], now) {
              WindowDonePersists(m, steps, store.m, store.steps, from, delivered, channels, a, windows[i], now, keys);
            }
          }
        }
        observed := observed + keys;
        assert windows[..j + 1][..j] == windows[..j];
      }
      assert windows[..|windows|] == windows;
    }

    /** All windows of one account, then the states of windows it no longer has. */
    method EvaluateAccount(channels: seq<ChannelId>, a: AccountId, windows: seq<Signal>, now: Time)
      returns (errors: nat, ghost touched: set<StateKey>)
      requires store.Valid() && store.m.control.Idle? && now == store.m.clock && a in store.m.view && store.m.view[a] == windows
      requires forall c <- channels :: c in store.m.issuedChannels
      modifies store, this`result
      ensures store.Valid() && store.Extends() && Progress(old(store.m), old(store.steps), store.m, store.steps)
      ensures Tallied(old(result), old(store.steps), result, store.steps) && SameActivities(old(result), result)
      ensures forall key <- touched :: key.account == a && !key.ActivityAttempt?
      ensures store.faults == old(store.faults) ==> Kept(old(store.m), store.m, touched)
      ensures store.faults == old(store.faults) && Distinct(windows) ==>
                AccountDone(store.m, store.steps, |old(store.steps)|, old(store.m.db.deliveries), channels, a, windows, now)
      ensures errors == 0 ==> store.failures == old(store.failures)
    {
      hide Inv, Rely, Quiet, Conforms, Replay, Receipts, Raised, Misses, Completions, FailuresOf, Starts, Acts, Kept, Progress, WindowDone, AccountDone, Distinct, Observed,
        NotificationStore.Valid, NotificationStore.Tracked;
      var observed;
      errors, observed := EvaluateWindows(channels, a, windows, now);
      KeysOfMeans(a, windows);
      ghost var m, steps, dropped := store.m, store.steps, {};
      ProgressKeeps(old(store.m), old(store.steps), m, steps);
      store.ValidMeans();
      var ok;
      ok, dropped := ReconcileSignalStates(a, observed);
      errors := errors + if ok then 0 else 1;
      touched := observed + dropped;
      ProgressComposes(old(store.m), old(store.steps), m, steps, store.m, store.steps);
      if store.faults == old(store.faults) {
        KeptComposes(old(store.m), m, store.m, observed, dropped);
        if Distinct(windows) {
          AccountFinished(m, steps, store.m, store.steps, |old(store.steps)|, old(store.m.db.deliveries), channels, a, windows, now, observed, dropped);
        }
      }
    }

    /** Writes the state of an attempt. */
    method SaveAttempt(key: StateKey, value: StateValue, now: Time) returns (ok: bool)
      requires store.Valid() && key.ActivityAttempt? && PutStateRule(store.m, key, value, now)
      requires key.account in store.m.issued
      modifies store
      ensures store.Valid() && store.Extends()
      ensures value.Running? && ok ==> store.m.control == Armed(key, now) && Progress(old(store.m), old(store.steps), store.m.(control := Idle), store.steps)
      ensures !(value.Running? && ok) ==> Progress(old(store.m), old(store.steps), store.m, store.steps)
      ensures ok ==> key in store.m.db.states && store.m.db.states[key].value == value
      ensures SameCounts(old(store.steps), store.steps)
      ensures store.m.answers == old(store.m.answers)
      ensures store.faults == old(store.faults) ==> Kept(old(store.m), store.m, {key})
      ensures store.faults == old(store.faults) ==>
                && ok && store.m.db.states == old(store.m.db.states)[key := StateRow(key.account, value)]
                && store.m.db.alerts == old(store.m.db.alerts) && store.m.db.events.Keys == old(store.m.db.events).Keys
      ensures ok ==> store.failures == old(store.failures)
    {
      hide Inv, Conforms, Replay, Receipts, Raised, Misses, Completions, FailuresOf, Starts, Acts, NotificationStore.Valid, NotificationStore.Tracked;
      ghost var mid;
      ok, mid := store.SaveNotificationState(key, value, now);
    }

    /** The armed attempt; its row still says running, unless the account went away, and the provider's answer is recorded. */
    method RunArmed(key: StateKey, now: Time) returns (succeeded: bool)
      requires store.Valid() && key.ActivityAttempt? && store.m.control == Armed(key, now)
      modifies store
      ensures store.Valid() && store.Extends() && Progress(old(store.m), old(store.steps), store.m, store.steps)
      ensures succeeded == store.provider(key, now) && RanWith(store.steps, |old(store.steps)|, key, now, succeeded)
      ensures Counted(old(store.steps), store.steps, 0, 0, 0, if succeeded then 1 else 0)
      ensures key in store.m.answers && store.m.answers[key] == Answer(now, succeeded)
      ensures key in store.m.db.states ==> store.m.db.states[key].value == Running(Seconds(now))
      ensures store.faults == old(store.faults) ==> Kept(old(store.m), store.m, {}) && SameTables(old(store.m), store.m)
      ensures store.failures == old(store.failures)
    {
      hide Inv, Rely, Quiet, Kept, Progress, SameTables, Conforms, Replay, Receipts, Raised, Misses, Completions, FailuresOf, Starts, Acts,
        NotificationStore.Valid, NotificationStore.Tracked;
      ghost var start := store.m;
      store.ValidMeans();
      succeeded := store.RunActivity(key, now);
      RunKeepsRow(start, old(store.steps), store.m, store.steps, key, now, succeeded);
    }

    /**
      One available activity: an attempt exactly when its row allows one, then
      what the provider answered is recorded and announced.
    */
    method EvaluateActivity(channels: seq<ChannelId>, activity: Activity, now: Time) returns (errors: nat, ghost ran: bool)
      requires store.Valid() && store.m.control.Idle?
      requires forall c <- channels :: c in store.m.issuedChannels
      requires activity.account in store.m.issued
      modifies store, this`result
      ensures store.Valid() && store.Extends() && Progress(old(store.m), old(store.steps), store.m, store.steps)
      ensures Tallied(old(result), old(store.steps), result, store.steps)
      ensures ran ==> RanWith(store.steps, |old(store.steps)|, AttemptKey(activity, now), now, store.provider(AttemptKey(activity, now), now))
      ensures result.completedActivities ==
              old(result).completedActivities + if ran && store.provider(AttemptKey(activity, now), now) then 1 else 0
      ensures result.availableActivities == old(result).availableActivities
      ensures store.faults == old(store.faults) ==> Kept(old(store.m), store.m, {AttemptKey(activity, now)})
      ensures store.faults == old(store.faults) ==>
                var succeeded := store.provider(AttemptKey(activity, now), now);
                && (ran <==> MayAttempt(old(store.m).db, activity, now))
                && if ran then
                     && Attempted(old(store.m), store.m, activity, succeeded, now)
                     && forall c <- channels :: Announced(store.steps, |old(store.steps)|, old(store.m.db.deliveries), store.m,
                                                          Receipt(OutcomeEvent(activity, succeeded, now), c))
                   else SameTables(old(store.m), store.m)
      ensures errors == 0 ==> store.failures == old(store.failures)
    {
      hide Inv, Rely, Quiet, Conforms, Replay, Receipts, Raised, Misses, Completions, FailuresOf, Starts, Acts, Kept, Announcing, Progress,
        Attempted, Announced, MayAttempt, RanWith, NotificationStore.Valid, NotificationStore.Tracked;
      var key := AttemptKey(activity, now);
      var armed;
      errors, armed := ArmAttempt(activity, key, now);
      ran := armed;
      if !armed { return; }
      ghost var began, armedSteps := store.m, store.steps;
      var succeeded := RunArmed(key, now);
      ghost var after, ranSteps := store.m, store.steps;
      ProgressThroughRun(old(store.m), old(store.steps), began, armedSteps, after, ranSteps);
      ProgressKeeps(old(store.m), old(store.steps), after, ranSteps);
      if store.faults == old(store.faults) {
        KeptMore(began, after, key);
        KeptTwice(old(store.m), began, after, key);
      }
      errors := RecordOutcome(channels, activity, key, succeeded, now);
      ProgressComposes(old(store.m), old(store.steps), after, ranSteps, store.m, store.steps);
      RanWithPersists(ranSteps, store.steps, |armedSteps|, |old(store.steps)|, key, now, succeeded);
      if store.faults == old(store.faults) {
        KeptTwice(old(store.m), after, store.m, key);
        AttemptedFromArmed(old(store.m), after, store.m, activity, succeeded, now);
        AnnouncedForAll(old(store.m), old(store.steps), after, ranSteps, store.m, store.steps, OutcomeEvent(activity, succeeded, now), channels);
      }
    }

    /** Reads the row of an activity and, when it allows an attempt, arms it. */
    method ArmAttempt(activity: Activity, key: StateKey, now: Time) returns (errors: nat, armed: bool)
      requires store.Valid() && store.m.control.Idle? && key == AttemptKey(activity, now) && activity.account in store.m.issued
      modifies store
      ensures store.Valid() && store.Extends()
      ensures if armed then store.m.control == Armed(key, now) && Progress(old(store.m), old(store.steps), store.m.(control := Idle), store.steps)
              else Progress(old(store.m), old(store.steps), store.m, store.steps)
      ensures SameCounts(old(store.steps), store.steps)
      ensures (armed ==> errors == 0) && (errors == 0 ==> store.failures == old(store.failures))
      ensures store.faults == old(store.faults) ==>
                && Kept(old(store.m), store.m, {key}) && (armed <==> MayAttempt(old(store.m).db, activity, now))
                && if armed
                   then store.m.db.states == old(store.m.db.states)[key := StateRow(key.account, Running(Seconds(now)))]
                        && store.m.db.alerts == old(store.m.db.alerts) && store.m.db.events.Keys == old(store.m.db.events).Keys
                   else SameTables(old(store.m), store.m)
    {
      hide Inv, Rely, Quiet, Conforms, Replay, Receipts, Raised, Misses, Completions, FailuresOf, Starts, Acts, Kept, Progress, PutStateRule,
        NotificationStore.Valid, NotificationStore.Tracked;
      armed := false;
      var ok, found, state := store.NotificationState(key);
      ghost var read, readSteps := store.m, store.steps;
      RelyIsProgress(old(store.m), old(store.steps), read, readSteps);
      ProgressKeeps(old(store.m), old(store.steps), read, readSteps);
      if store.faults == old(store.faults) {
        QuietIsKept(old(store.m), read);
        KeptMore(old(store.m), read, key);
        QuietIsSame(old(store.m), read);
      }
      errors := if ok then 0 else 1;
      if !ok || (found && !AttemptReady(state, now)) { return; }
      MayArm(read, key, now);
      ok := SaveAttempt(key, Running(Seconds(now)), now);
      errors, armed := if ok then 0 else 1, ok;
      ProgressComposes(old(store.m), old(store.steps), read, readSteps, if ok then store.m.(control := Idle) else store.m, store.steps);
      if store.faults == old(store.faults) { KeptTwice(old(store.m), read, store.m, key); }
    }

    /** After an attempt: the new state, the alert of a failure or its removal, and the message. */
    method RecordOutcome(channels: seq<ChannelId>, activity: Activity, key: StateKey, succeeded: bool, now: Time)
      returns (errors: nat)
      requires store.Valid() && store.m.control.Idle? && key == AttemptKey(activity, now)
      requires forall c <- channels :: c in store.m.issuedChannels
      requires key in store.m.db.states ==> store.m.db.states[key].value == Running(Seconds(now))
      requires key in store.m.answers && store.m.answers[key] == Answer(now, succeeded)
      requires activity.account in store.m.issued
      modifies store, this`result
      ensures store.Valid() && store.Extends() && Progress(old(store.m), old(store.steps), store.m, store.steps)
      ensures result.completedActivities == old(result).completedActivities + if succeeded then 1 else 0
      ensures Tallied(old(result).(completedActivities := result.completedActivities), old(store.steps), result, store.steps)
      ensures result.availableActivities == old(result).availableActivities
      ensures store.faults == old(store.faults) ==> Kept(old(store.m), store.m, {key})
      ensures store.faults == old(store.faults) ==>
                && Attempted(old(store.m), store.m, activity, succeeded, now)
                && forall c <- channels :: Announced(store.steps, |old(store.steps)|, old(store.m.db.deliveries), store.m,
                                                     Receipt(OutcomeEvent(activity, succeeded, now), c))
      ensures errors == 0 ==> store.failures == old(store.failures)
    {
      hide Tallied, SameCounts, Inv, Rely, Quiet, Conforms, Replay, Receipts, Raised, Misses, Completions, FailuresOf, Starts, Acts, Kept, Announcing, Progress, Attempted, Announced,
        NotificationStore.Valid, NotificationStore.Tracked;
      var saved := SaveAttempt(key, OutcomeValue(succeeded, now), now);
      errors := if saved then 0 else 1;
      ProgressKeeps(old(store.m), old(store.steps), store.m, store.steps);
      if succeeded {
        ghost var m, steps := store.m, store.steps;
        var cleared := DropActivityAlert(FailedEvent(activity, now));
        errors := errors + if cleared then 0 else 1;
        result := result.(completedActivities := result.completedActivities + 1);
        ProgressComposes(old(store.m), old(store.steps), m, steps, store.m, store.steps);
        ProgressKeeps(old(store.m), old(store.steps), store.m, store.steps);
        SameCountsCompose(old(store.steps), steps, store.steps);
        if store.faults == old(store.faults) {
          KeptMore(m, store.m, key);
          KeptTwice(old(store.m), m, store.m, key);
        }
      }
      ghost var m, steps := store.m, store.steps;
      var k := OutcomeEvent(activity, succeeded, now);
      var ok := EmitAndCount(channels, k, !succeeded);
      errors := errors + if ok then 0 else 1;
      TallyStartsEarlier(old(result).(completedActivities := result.completedActivities), old(store.steps), steps, result, store.steps);
      ProgressComposes(old(store.m), old(store.steps), m, steps, store.m, store.steps);
      if store.faults == old(store.faults) {
        AnnouncingActivityIsKept(m, store.m, k, !succeeded);
        KeptMore(m, store.m, key);
        KeptTwice(old(store.m), m, store.m, key);
        AttemptedWhenAnnounced(old(store.m), m, store.m, activity, succeeded, now);
        AnnouncedForAll(old(store.m), old(store.steps), m, steps, store.m, store.steps, k, channels);
      }
    }

    method DropActivityAlert(k: EventKey) returns (ok: bool)
      requires store.Valid() && store.m.control.Idle? && !IsSignal(k)
      modifies store
      ensures store.Valid() && store.Extends() && Progress(old(store.m), old(store.steps), store.m, store.steps)
      ensures SameCounts(old(store.steps), store.steps)
      ensures store.m.answers == old(store.m.answers)
      ensures store.faults == old(store.faults) ==> Kept(old(store.m), store.m, {})
      ensures store.faults == old(store.faults) ==>
                && store.m.db.states == old(store.m.db.states) && store.m.db.alerts == old(store.m.db.alerts) - {k}
                && store.m.db.events.Keys == old(store.m.db.events).Keys
      ensures ok ==> store.failures == old(store.failures)
    {
      hide Inv, Conforms, Replay, Receipts, Raised, Misses, Completions, FailuresOf, Starts, Acts, NotificationStore.Valid, NotificationStore.Tracked;
      ghost var mid;
      ok, mid := store.DeleteAlert(k);
    }

    /** Every account that was read, in the order of the list. */
    method EvaluateAccounts(channels: seq<ChannelId>, ids: seq<AccountId>, view: map<AccountId, seq<Signal>>, now: Time)
      returns (errors: nat)
      requires store.Valid() && store.m.control.Idle? && now == store.m.clock && store.m.view == view
      requires (forall a :: a in ids <==> a in view) && (forall i, j :: 0 <= i < j < |ids| ==> ids[i] != ids[j])
      requires forall c <- channels :: c in store.m.issuedChannels
      modifies store, this`result
      ensures store.Valid() && store.Extends() && Progress(old(store.m), old(store.steps), store.m, store.steps)
      ensures Tallied(old(result), old(store.steps), result, store.steps) && SameActivities(old(result), result)
      ensures store.faults == old(store.faults) ==> SameAttempts(old(store.m).db, store.m.db)
      ensures store.faults == old(store.faults) && StatesListed(old(store.m), view) ==> StatesListed(store.m, view)
      ensures store.faults == old(store.faults) && AllDistinct(view) ==> forall a :: a in view ==>
                AccountDone(store.m, store.steps, |old(store.steps)|, old(store.m.db.deliveries), channels, a, view[a], now)
      ensures errors == 0 ==> store.failures == old(store.failures)
    {
      hide Tallied, Inv, Rely, Quiet, Conforms, Replay, Receipts, Raised, Misses, Completions, FailuresOf, Starts, Acts, Kept, Progress, AccountDone, StatesListed, Distinct, SameAttempts,
        NotificationStore.Valid, NotificationStore.Tracked;
      errors := 0;
      ProgressIsReflexive(store.m, store.steps);
      NothingTallied(result, store.steps);
      KeptAttempts(store.m, store.m, {});
      for i := 0 to |ids|
        invariant errors == 0 ==> store.failures == old(store.failures)
        invariant store.Valid() && store.Extends() && Progress(old(store.m), old(store.steps), store.m, store.steps)
        invariant Tallied(old(result), old(store.steps), result, store.steps) && SameActivities(old(result), result)
        invariant store.faults == old(store.faults) ==> SameAttempts(old(store.m).db, store.m.db)
        invariant store.faults == old(store.faults) && StatesListed(old(store.m), view) ==> StatesListed(store.m, view)
        invariant store.faults == old(store.faults) && AllDistinct(view) ==> forall p | 0 <= p < i ::
                    AccountDone(store.m, store.steps, |old(store.steps)|, old(store.m.db.deliveries), channels, ids[p], view[ids[p]], now)
      {
        var a := ids[i];
        ghost var m, steps, tally := store.m, store.steps, result;
        ProgressKeeps(old(store.m), old(store.steps), m, steps);
        store.ValidMeans();
        ghost var touched;
        var failures;
        failures, touched := EvaluateAccount(channels, a, view[a], now);
        errors := errors + failures;
        ProgressComposes(old(store.m), old(store.steps), m, steps, store.m, store.steps);
        TalliesCompose(old(result), old(store.steps), tally, steps, result, store.steps);
        if store.faults == old(store.faults) {
          KeptAttempts(m, store.m, touched);
          SameAttemptsCompose(old(store.m).db, m.db, store.m.db);
          if StatesListed(m, view) { StatesStayListed(m, store.m, touched, view); }
          if AllDistinct(view) {
            AccountDoneEarlier(old(store.m), old(store.steps), m, steps, store.m, store.steps, channels, a, view[a], now);
            forall p | 0 <= p < i
              ensures AccountDone(store.m, store.steps, |old(store.steps)|, old(store.m.db.deliveries), channels, ids[p], view[ids[p]], now)
            {
              AccountDonePersists(m, steps, store.m, store.steps, |old(store.steps)|, old(store.m.db.deliveries), channels,
                                  ids[p], view[ids[p]], now, touched);
            }
          }
        }
      }
    }

    /** The activities that are available now; afterwards each that may be attempted has its outcome recorded. */
    method EvaluateActivities(channels: seq<ChannelId>, now: Time) returns (errors: nat, ghost listed: seq<Activity>)
      requires store.Valid() && store.m.control.Idle?
      requires forall c <- channels :: c in store.m.issuedChannels
      modifies store, this`result
      ensures store.Valid() && store.Extends() && Progress(old(store.m), old(store.steps), store.m, store.steps)
      ensures Tallied(old(result), old(store.steps), result, store.steps)
      ensures store.faults == old(store.faults) ==> Kept(old(store.m), store.m, AttemptKeys(listed, now))
      ensures result.availableActivities == old(result).availableActivities + Available(listed)
      ensures store.faults == old(store.faults) ==> ActivitiesRead(store.origin, |old(store.steps)|, store.steps, listed)
      ensures store.faults == old(store.faults) ==> ActivitiesDone(old(store.m).db, store.m.db, listed, now, store.provider)
      ensures store.faults == old(store.faults) ==>
                ActivitiesRan(old(store.m).db, |old(store.steps)|, store.steps, listed, now, store.provider)
      ensures errors == 0 ==> store.failures == old(store.failures)
    {
      hide Inv, Rely, Quiet, Conforms, Replay, Receipts, Raised, Misses, Completions, FailuresOf, Starts, Acts, Kept, Progress, Available,
        AttemptKeys, ActivitiesDone, ActivitiesRan, SameAttempts, NotificationRuns.ActivitiesListedAt, NotificationStore.Valid, NotificationStore.Tracked;
      var ok, complete, activities := store.ListActivities();
      RelyIsProgress(old(store.m), old(store.steps), store.m, store.steps);
      ProgressKeeps(old(store.m), old(store.steps), store.m, store.steps);
      if store.faults == old(store.faults) { QuietIsKept(old(store.m), store.m); }
      ghost var m, read := store.m, store.steps;
      listed := activities;
      var failures := AttemptAll(channels, activities, now);
      errors := failures + if ok && complete then 0 else 1;
      ProgressComposes(old(store.m), old(store.steps), m, read, store.m, store.steps);
      if store.faults == old(store.faults) {
        KeptAttempts(old(store.m), m, {});
        AllDoneSince(old(store.m).db, m.db, store.m.db, listed, now, store.provider);
        AllRanSince(old(store.m).db, |old(store.steps)|, m.db, |read|, store.steps, listed, now, store.provider);
        KeptComposes(old(store.m), m, store.m, {}, AttemptKeys(listed, now));
        assert {} + AttemptKeys(listed, now) == AttemptKeys(listed, now);
      }
      if ok {
        NotificationRuns.ReadsExtend(store.origin, read, store.steps);
        assert NotificationRuns.ActivitiesListedAt(store.origin, store.steps, |read| - 1, listed);
      }
    }

    /** One attempt for each available activity of a list whose row allows it. */
    method AttemptAll(channels: seq<ChannelId>, activities: seq<Activity>, now: Time) returns (errors: nat)
      requires store.Valid() && store.m.control.Idle? && forall activity <- activities :: activity.account in store.m.issued
      requires DistinctAccounts(activities)
      requires forall c <- channels :: c in store.m.issuedChannels
      modifies store, this`result
      ensures store.Valid() && store.Extends() && Progress(old(store.m), old(store.steps), store.m, store.steps)
      ensures Tallied(old(result), old(store.steps), result, store.steps)
      ensures store.faults == old(store.faults) ==> Kept(old(store.m), store.m, AttemptKeys(activities, now))
      ensures result.availableActivities == old(result).availableActivities + Available(activities)
      ensures store.faults == old(store.faults) ==> ActivitiesDone(old(store.m).db, store.m.db, activities, now, store.provider)
      ensures store.faults == old(store.faults) ==>
                ActivitiesRan(old(store.m).db, |old(store.steps)|, store.steps, activities, now, store.provider)
      ensures errors == 0 ==> store.failures == old(store.failures)
    {
      hide Inv, Rely, Quiet, Conforms, Replay, Receipts, Raised, Misses, Completions, FailuresOf, Starts, Acts, Kept, Progress, Attempted,
        MayAttempt, Announced, RanWith, AttemptKeys, ActivityDone, DistinctAccounts, NotificationStore.Valid, NotificationStore.Tracked;
      errors := 0;
      ProgressIsReflexive(store.m, store.steps);
      assert AttemptKeys(activities[..0], now) == {} by { NoAttemptKeys(activities[..0], now); }
      for i := 0 to |activities|
        invariant store.Valid() && store.Extends() && Progress(old(store.m), old(store.steps), store.m, store.steps)
        invariant Tallied(old(result), old(store.steps), result, store.steps)
        invariant errors == 0 ==> store.failures == old(store.failures)
        invariant store.faults == old(store.faults) ==> Kept(old(store.m), store.m, AttemptKeys(activities[..i], now))
        invariant result.availableActivities == old(result).availableActivities + Available(activities[..i])
        invariant store.faults == old(store.faults) ==> ActivitiesDone(old(store.m).db, store.m.db, activities[..i], now, store.provider)
        invariant store.faults == old(store.faults) ==>
                    ActivitiesRan(old(store.m).db, |old(store.steps)|, store.steps, activities[..i], now, store.provider)
      {
        assert activities[..i + 1][..i] == activities[..i];
        ghost var m, steps := store.m, store.steps;
        ghost var succeeded := store.provider(AttemptKey(activities[i], now), now);
        ProgressKeeps(old(store.m), old(store.steps), m, steps);
        if activities[i].available {
          result := result.(availableActivities := result.availableActivities + 1);
          assert activities[i] in activities;
          var failures;
          ghost var ran;
          failures, ran := EvaluateActivity(channels, activities[i], now);
          errors := errors + failures;
          ProgressComposes(old(store.m), old(store.steps), m, steps, store.m, store.steps);
          if store.faults == old(store.faults) { AttemptedIsDone(m, store.m, ran, activities[i], succeeded, now); }
        } else {
          UnavailableIsDone(m, activities[i], succeeded, now);
        }
        if store.faults == old(store.faults) {
          NextActivityRan(old(store.m), |old(store.steps)|, m, steps, store.steps, activities, i, now, store.provider);
          NextActivityDone(old(store.m), m, store.m, activities, i, now, store.provider);
        }
      }
      assert activities[..|activities|] == activities;
    }

    /** The accounts with their windows, then the enabled channels, then the time. */
    method ReadAll(now: Time)
      returns (ok: bool, ids: seq<AccountId>, view: map<AccountId, seq<Signal>>, enabled: seq<ChannelId>)
      requires store.Valid() && store.m.control.Idle?
      modifies store
      ensures store.Valid() && store.m.control.Idle? && old(store.steps) <= store.steps && old(store.faults) <= store.faults
      ensures store.m.db.deliveries <= old(store.m.db.deliveries)
      ensures SameCounts(old(store.steps), store.steps)
      ensures if ok then store.failures == old(store.failures) else store.faults > old(store.faults)
      ensures ok ==> store.m.clock == now && store.m.view == view && PassRead(store.origin, |old(store.steps)|, store.steps, enabled, view, now)
      ensures ok ==> (forall a :: a in ids <==> a in view) && (forall i, j :: 0 <= i < j < |ids| ==> ids[i] != ids[j])
      ensures ok ==> forall c <- enabled :: c in store.m.issuedChannels
      ensures ok && store.faults == old(store.faults) ==> StatesListed(store.m, view) && store.m.db.states == old(store.m).db.states
    {
      hide Inv, Conforms, Replay, Receipts, Raised, Misses, Completions, FailuresOf, Starts, Acts, NotificationStore.Valid, NotificationStore.Tracked, NotificationRuns.ReadFrom,
        NotificationRuns.ChannelsListedAt;
      enabled := [];
      ok, ids, view := store.ConnectedAccounts();
      if !ok { return; }
      ghost var read := store.steps;
      ok, enabled := store.NotificationChannels();
      if !ok { return; }
      NothingDone(old(store.steps), store.steps);
      ghost var listed := store.steps;
      NotificationRuns.ReadFromExtends(store.origin, read, listed, |old(store.steps)|, view);
      store.Start(view, now);
      NotificationRuns.ReadFromExtends(store.origin, listed, store.steps, |old(store.steps)|, view);
      NotificationRuns.ReadsExtend(store.origin, listed, store.steps);
      ghost var c, o := |listed| - 1, |listed|;
      assert NotificationRuns.ChannelsListedAt(store.origin, store.steps, c, Elements(enabled));
      assert NotificationRuns.StartedAt(|old(store.steps)|, store.steps, o, view, now);
    }

    /** Signals of all accounts, then activities. */
    method EvaluateRead(channels: seq<ChannelId>, ids: seq<AccountId>, view: map<AccountId, seq<Signal>>, now: Time)
      returns (errors: nat, ghost listed: seq<Activity>)
      requires store.Valid() && store.m.control.Idle? && now == store.m.clock && store.m.view == view
      requires (forall a :: a in ids <==> a in view) && (forall i, j :: 0 <= i < j < |ids| ==> ids[i] != ids[j])
      requires forall c <- channels :: c in store.m.issuedChannels
      modifies store, this`result
      ensures store.Valid() && store.Extends() && Progress(old(store.m), old(store.steps), store.m, store.steps)
      ensures Tallied(old(result), old(store.steps), result, store.steps)
      ensures store.faults == old(store.faults) && StatesListed(old(store.m), view) ==> StatesListed(store.m, view)
      ensures store.faults == old(store.faults) && AllDistinct(view) ==> forall a :: a in view ==>
                AccountDone(store.m, store.steps, |old(store.steps)|, old(store.m.db.deliveries), channels, a, view[a], now)
      ensures result.availableActivities == old(result).availableActivities + Available(listed)
      ensures store.faults == old(store.faults) ==> ActivitiesRead(store.origin, |old(store.steps)|, store.steps, listed)
      ensures store.faults == old(store.faults) ==> ActivitiesDone(old(store.m).db, store.m.db, listed, now, store.provider)
      ensures store.faults == old(store.faults) ==>
                ActivitiesRan(old(store.m).db, |old(store.steps)|, store.steps, listed, now, store.provider)
      ensures errors == 0 ==> store.failures == old(store.failures)
    {
      hide ActivitiesDone, ActivitiesRan, SameAttempts, AttemptKeys, Inv, Quiet, Conforms, Replay, Receipts, Raised, Misses, Completions, FailuresOf, Starts, Acts, Kept, Progress, AccountDone, StatesListed, AllDistinct,
        NotificationStore.Valid, NotificationStore.Tracked;
      errors := EvaluateAccounts(channels, ids, view, now);
      ghost var m, steps := store.m, store.steps;
      store.ValidMeans();
      ProgressKeeps(old(store.m), old(store.steps), m, steps);
      var failures;
      failures, listed := EvaluateActivities(channels, now);
      errors := errors + failures;
      ProgressComposes(old(store.m), old(store.steps), m, steps, store.m, store.steps);
      if store.faults == old(store.faults) {
        ghost var keys := AttemptKeys(listed, now);
        AttemptKeysMeans(listed, now);
        AllDoneSince(old(store.m).db, m.db, store.m.db, listed, now, store.provider);
        AllRanSince(old(store.m).db, |old(store.steps)|, m.db, |steps|, store.steps, listed, now, store.provider);
        if StatesListed(m, view) { StatesStayListed(m, store.m, keys, view); }
        if AllDistinct(view) {
          forall a | a in view
            ensures AccountDone(store.m, store.steps, |old(store.steps)|, old(store.m.db.deliveries), channels, a, view[a], now)
          {
            AccountDonePersists(m, steps, store.m, store.steps, |old(store.steps)|, old(store.m.db.deliveries), channels, a, view[a], now, keys);
          }
        }
      }
    }

    /**
      One evaluation.  A second one while the first is running is refused.
      What it works on was read during the pass.  When no store call failed and
      no account was deleted meanwhile, the quota alerts are exactly what the
      windows call for, every active alert was sent to every enabled channel
      that had no receipt for it, each low signal got one event unless one was
      standing, and no available activity may be attempted again.  A pass
      without error had no failed store call.
    */
    method Evaluate(now: Time)
      returns (busy: bool, ok: bool, ghost channels: seq<ChannelId>, ghost listed: seq<Activity>)
      requires store.Valid() && store.m.control.Idle?
      modifies store, this
      ensures busy == old(running) && running == old(running)
      ensures busy ==> !ok && store.m == old(store.m) && store.steps == old(store.steps) && store.db == old(store.db)
      ensures store.Valid() && store.m.control.Idle? && old(store.steps) <= store.steps
      ensures !busy ==> Tallied(Evaluation(result.checkedAccounts, 0, 0, 0, 0, 0), old(store.steps), result, store.steps)
      ensures ok ==> store.failures == old(store.failures)
      ensures ok || (!busy && store.faults == old(store.faults)) ==>
                && PassRead(store.origin, |old(store.steps)|, store.steps, channels, store.m.view, now)
                && result.checkedAccounts == |store.m.view|
      ensures !busy ==> result.availableActivities == Available(listed)
      ensures !busy && store.faults == old(store.faults) ==>
                && ActivitiesRead(store.origin, |old(store.steps)|, store.steps, listed)
                && ActivitiesDone(old(store.m).db, store.m.db, listed, now, store.provider)
                && ActivitiesRan(old(store.m).db, |old(store.steps)|, store.steps, listed, now, store.provider)
      ensures !busy && store.faults == old(store.faults) && AllDistinct(store.m.view) ==>
                && Settled(store.m.db, store.m.view, now)
                && Retried(store.m, |old(store.steps)|, store.steps, old(store.m.db.deliveries), channels)
                && CountsLowEvents(old(store.m), old(store.steps), store.steps, store.m.view, now)
    {
      hide ActivitiesDone, ActivitiesRan, SameAttempts, AttemptKeys, Inv, Quiet, Conforms, Replay, Receipts, Raised, Misses, Completions, FailuresOf, Starts, Acts, Kept, Progress, AccountDone, StatesListed, Settled, AllDistinct,
        PassRead, Retried, CountsLowEvents, ActivitiesRead, NotificationStore.Valid, NotificationStore.Tracked;
      busy, ok, channels, listed := running, false, [], [];
      if busy { return; }
      store.ValidMeans();
      running := true;
      result := Evaluation(0, 0, 0, 0, 0, 0);
      var ids, view, enabled;
      ok, ids, view, enabled := ReadAll(now);
      if ok {
        channels := enabled;
        result := result.(checkedAccounts := |ids|);
        DistinctLength(ids, view.Keys);
        ghost var m, steps := store.m, store.steps;
        var errors;
        errors, listed := EvaluateRead(enabled, ids, view, now);
        ok := errors == 0;
        ProgressKeeps(m, steps, store.m, store.steps);
        NothingStarted(steps, store.steps);
        PassReadExtends(store.origin, |old(store.steps)|, steps, store.steps, channels, view, now);
        if store.faults == old(store.faults) {
          SameStatesSameAttempts(old(store.m).db, m.db);
          AllDoneSince(old(store.m).db, m.db, store.m.db, listed, now, store.provider);
          AllRanSince(old(store.m).db, |old(store.steps)|, m.db, |steps|, store.steps, listed, now, store.provider);
        }
        ActivitiesReadEarlier(store.origin, |steps|, |old(store.steps)|, store.steps, listed);
        if store.faults == old(store.faults) && AllDistinct(view) {
          store.ValidMeans();
          DoneMeans(store.m, store.steps, |steps|, |old(store.steps)|, m.db.deliveries, old(store.m.db.deliveries), channels, view, now);
          PassCounts(store.origin, old(store.steps), store.steps, channels, view, now);
        }
      }
      running := false;
    }

    /** Evaluations one after another, at any times and with anything in between; no quota alert is orphaned at any moment. */
    method RunScheduler(rounds: nat)
      requires store.Valid() && store.m.control.Idle? && !running
      modifies store, this
      ensures store.Valid() && old(store.steps) <= store.steps
      ensures forall i | 0 <= i <= |store.steps| :: NoOrphan(Replay(store.origin, store.steps[..i]).db)
    {
      hide Settled, AllDistinct, AccountDone, Rely, Quiet, Inv, Receipts, Raised, Misses, Completions, FailuresOf, PassRead, Retried, CountsLowEvents, ActivitiesRead;
      for round := 0 to rounds
        invariant store.Valid() && store.m.control.Idle? && !running && old(store.steps) <= store.steps
      {
        ghost var m := store.m;
        store.Interfere();
        RelyForDeliveries(m, store.m);
        var now: Time := *;
        var busy, ok;
        ghost var channels, listed;
        busy, ok, channels, listed := Evaluate(now);
      }
      forall i | 0 <= i <= |store.steps| ensures NoOrphan(Replay(store.origin, store.steps[..i]).db) {
        NotificationRuns.NoOrphanAtAnyMoment(store.origin, store.steps, i);
      }
    }
  }
}
