/** What the step rules imply for whole runs, from any store that satisfies the invariant. */
module NotificationRuns {
  import opened Prelude
  import opened Schema
  import opened NotificationProtocol
  import AccountStore

  lemma {:induction false} RunKeepsInv(m: Monitor, steps: seq<Step>)
    requires Inv(m) && Conforms(m, steps)
    ensures Inv(Replay(m, steps))
  {
    if steps != [] {
      var before := steps[..|steps| - 1];
      RunKeepsInv(m, before);
      StepKeepsInv(Replay(m, before), steps[|steps| - 1]);
    }
  }

  lemma {:induction false} PrefixConforms(m: Monitor, steps: seq<Step>, i: nat)
    requires Conforms(m, steps) && i <= |steps|
    ensures Conforms(m, steps[..i])
    ensures i < |steps| ==> Legal(Replay(m, steps[..i]), steps[i])
  {
    if i < |steps| {
      var before := steps[..|steps| - 1];
      if i < |before| {
        PrefixConforms(m, before, i);
        assert before[..i] == steps[..i];
      } else {
        assert before == steps[..i];
      }
    } else {
      assert steps[..i] == steps;
    }
  }

  /** At every moment of every run no quota alert is left without the live state row that names it. */
  lemma NoOrphanAtAnyMoment(m: Monitor, steps: seq<Step>, i: nat)
    requires Inv(m) && Conforms(m, steps) && i <= |steps|
    ensures NoOrphan(Replay(m, steps[..i]).db)
    ensures Intact(Replay(m, steps[..i]).db) && Owned(Replay(m, steps[..i]).db)
  {
    PrefixConforms(m, steps, i);
    RunKeepsInv(m, steps[..i]);
  }

  /** What an observation holds was read from the tables: the accounts of one moment, and the windows of each at a later one. */
  ghost predicate ReadFrom(m: Monitor, steps: seq<Step>, from: nat, view: map<AccountId, seq<Signal>>) {
    exists l: nat :: from <= l < |steps| && ListedAt(m, steps, l, view.Keys) && AllRead(m, steps, l, view)
  }

  /** Every account of the view had its windows read after a position of the run. */
  ghost predicate AllRead(m: Monitor, steps: seq<Step>, l: nat, view: map<AccountId, seq<Signal>>) {
    forall a :: a in view ==> exists i: nat :: l < i < |steps| && WindowsReadAt(m, steps, i, a, view[a])
  }

  ghost predicate ListedAt(m: Monitor, steps: seq<Step>, l: nat, accounts: set<AccountId>)
    requires l < |steps|
  {
    steps[l] == ListAccounts(accounts) && accounts == Replay(m, steps[..l]).db.accounts.Keys
  }

  /** The channels that were enabled when they were listed. */
  ghost predicate ChannelsListedAt(m: Monitor, steps: seq<Step>, c: nat, enabled: set<ChannelId>)
    requires c < |steps|
  {
    steps[c] == ListChannels(enabled) && enabled == EnabledChannels(Replay(m, steps[..c]).db)
  }

  ghost predicate ActivitiesListedAt(m: Monitor, steps: seq<Step>, i: nat, activities: seq<Activity>)
    requires i < |steps|
  {
    steps[i] == ListActivities(activities) && ActivitiesOf(Replay(m, steps[..i]).db, activities)
  }

  ghost predicate WindowsReadAt(m: Monitor, steps: seq<Step>, i: nat, a: AccountId, windows: seq<Signal>)
    requires i < |steps|
  {
    steps[i] == ReadWindows(a, windows) && windows == WindowsOf(Replay(m, steps[..i]).db, a)
  }

  lemma ReadsExtend(m: Monitor, steps: seq<Step>, more: seq<Step>)
    requires steps <= more
    ensures forall l: nat, accounts :: l < |steps| && ListedAt(m, steps, l, accounts) ==> ListedAt(m, more, l, accounts)
    ensures forall i: nat, a, windows :: i < |steps| && WindowsReadAt(m, steps, i, a, windows) ==> WindowsReadAt(m, more, i, a, windows)
    ensures forall c: nat, enabled :: c < |steps| && ChannelsListedAt(m, steps, c, enabled) ==> ChannelsListedAt(m, more, c, enabled)
    ensures forall i: nat, activities :: i < |steps| && ActivitiesListedAt(m, steps, i, activities) ==> ActivitiesListedAt(m, more, i, activities)
  {
    forall l: nat | l < |steps| ensures steps[..l] == more[..l] && steps[l] == more[l] {}
  }

  lemma NothingToRead(m: Monitor, steps: seq<Step>, l: nat)
    ensures AllRead(m, steps, l, map[])
  {
  }

  lemma AllReadExtends(m: Monitor, steps: seq<Step>, more: seq<Step>, l: nat, view: map<AccountId, seq<Signal>>)
    requires steps <= more && AllRead(m, steps, l, view)
    ensures AllRead(m, more, l, view)
  {
    ReadsExtend(m, steps, more);
    hide WindowsReadAt;
    forall a | a in view ensures exists i: nat :: l < i < |more| && WindowsReadAt(m, more, i, a, view[a]) {
      var i: nat :| l < i < |steps| && WindowsReadAt(m, steps, i, a, view[a]);
      assert WindowsReadAt(m, more, i, a, view[a]);
    }
  }

  /** One more account was read. */
  lemma AllReadGrows(
      m: Monitor, steps: seq<Step>, more: seq<Step>, l: nat, view: map<AccountId, seq<Signal>>, a: AccountId, after: map<AccountId, seq<Signal>>)
    requires steps <= more && l < |steps| < |more| && AllRead(m, steps, l, view)
    requires a in after && after == view[a := after[a]] && WindowsReadAt(m, more, |more| - 1, a, after[a])
    ensures AllRead(m, more, l, after)
  {
    ReadsExtend(m, steps, more);
    AllReadExtends(m, steps, more, l, view);
    hide ListedAt, WindowsReadAt;
    forall b | b in after ensures exists i: nat :: l < i < |more| && WindowsReadAt(m, more, i, b, after[b]) {
      if b != a { assert b in view && view[b] == after[b]; }
    }
  }

  lemma ReadFromExtends(m: Monitor, steps: seq<Step>, more: seq<Step>, from: nat, view: map<AccountId, seq<Signal>>)
    requires steps <= more && ReadFrom(m, steps, from, view)
    ensures ReadFrom(m, more, from, view)
  {
    ReadsExtend(m, steps, more);
    hide ListedAt, AllRead;
    var l: nat :| from <= l < |steps| && ListedAt(m, steps, l, view.Keys) && AllRead(m, steps, l, view);
    AllReadExtends(m, steps, more, l, view);
    assert ListedAt(m, more, l, view.Keys);
  }

  // ----- identifiers that are used again -----

  /** The store after other requests, in order. */
  function AfterOps(db: Db, ops: seq<EnvOp>): Db {
    if ops == [] then db else ApplyEnv(AfterOps(db, ops[..|ops| - 1]), ops[|ops| - 1])
  }

  /** What other requests may do when an account may be saved under any identifier, new or old. */
  ghost predicate PossibleOps(db: Db, ops: seq<EnvOp>) {
    ops == [] ||
    var before, last := AfterOps(db, ops[..|ops| - 1]), ops[|ops| - 1];
    && PossibleOps(db, ops[..|ops| - 1])
    && (last.DeleteAccount? ==> last.account in before.accounts)
    && (last.WriteUsage? ==> UsageIntact(before.accounts.Keys, last.usage))
  }

  /** Writing a quota alert is safe only while the state row names it. */
  lemma AlertNeedsItsState(db: Db, k: EventKey)
    requires NoOrphan(db) && IsSignal(k) && k.account in db.accounts
    ensures NoOrphan(db.(alerts := db.alerts + {k})) <==> ActiveWith(db, StateOf(k), k)
  {
    assert k in db.(alerts := db.alerts + {k}).alerts;
  }

  lemma OpKeepsTables(db: Db, op: EnvOp)
    requires Intact(db) && Owned(db) && NoOrphan(db) && (op.WriteUsage? ==> UsageIntact(db.accounts.Keys, op.usage))
    ensures Intact(ApplyEnv(db, op)) && Owned(ApplyEnv(db, op)) && NoOrphan(ApplyEnv(db, op))
  {
    match op {
      case DeleteAccount(a) =>
        AccountStore.DeletionKeepsReferences(db, a);
        DeletionKeepsAlertsNamed(db, a);
      case SaveAccount(a, provider, credential, windows) => AccountStore.SavingKeepsReferences(db, a, provider, credential, windows);
      case _ =>
    }
  }

  /** A state row stays through everything but the deletion of its account, and never comes back. */
  lemma {:induction false} RowAfterOps(db: Db, ops: seq<EnvOp>, k: EventKey)
    requires Intact(db) && Owned(db) && NoOrphan(db) && PossibleOps(db, ops)
    requires IsSignal(k) && ActiveWith(db, StateOf(k), k)
    ensures Intact(AfterOps(db, ops)) && Owned(AfterOps(db, ops)) && NoOrphan(AfterOps(db, ops))
    ensures if DeleteAccount(k.account) in ops then StateOf(k) !in AfterOps(db, ops).states else ActiveWith(AfterOps(db, ops), StateOf(k), k)
  {
    if ops != [] {
      hide NoOrphan, Intact, Owned, ApplyEnv, ActiveWith;
      var before, last := ops[..|ops| - 1], ops[|ops| - 1];
      assert ops == before + [last];
      RowAfterOps(db, before, k);
      OpKeepsTables(AfterOps(db, before), last);
      RowAfterOp(AfterOps(db, before), last, k);
    }
  }

  lemma RowAfterOp(db: Db, op: EnvOp, k: EventKey)
    requires Owned(db) && IsSignal(k)
    ensures StateOf(k) !in db.states ==> StateOf(k) !in ApplyEnv(db, op).states
    ensures ActiveWith(db, StateOf(k), k) ==>
              if op == DeleteAccount(k.account) then StateOf(k) !in ApplyEnv(db, op).states else ActiveWith(ApplyEnv(db, op), StateOf(k), k)
  {
  }

  /**
    The alert whose state row was written stays without orphans, whatever other
    requests do before the alert is written and also when they use identifiers
    again, exactly when none of them deletes its account.
  */
  lemma AlertIsSafeUnlessDeleted(db: Db, ops: seq<EnvOp>, k: EventKey)
    requires Intact(db) && Owned(db) && NoOrphan(db) && PossibleOps(db, ops)
    requires IsSignal(k) && ActiveWith(db, StateOf(k), k) && k.account in AfterOps(db, ops).accounts
    ensures var after := AfterOps(db, ops);
            NoOrphan(after.(alerts := after.alerts + {k})) <==> DeleteAccount(k.account) !in ops
  {
    hide NoOrphan, Intact, Owned;
    RowAfterOps(db, ops, k);
    AlertNeedsItsState(AfterOps(db, ops), k);
  }

  /** Saving an account again under the identifier of a deleted one, between state and alert, always leaves an orphan. */
  lemma ReusedIdentifierLeavesOrphan(db: Db, k: EventKey, provider: string, credential: string, windows: seq<Signal>)
    requires Intact(db) && Owned(db) && NoOrphan(db) && IsSignal(k) && ActiveWith(db, StateOf(k), k)
    ensures var reused := WithAccount(WithoutAccount(db, k.account), k.account, provider, credential, windows);
            k.account in reused.accounts && !NoOrphan(reused.(alerts := reused.alerts + {k}))
  {
    var save := SaveAccount(k.account, provider, credential, windows);
    var ops := [DeleteAccount(k.account), save];
    assert ops[..1] == [DeleteAccount(k.account)] && ops[..1][..0] == [];
    assert db.states[StateOf(k)].account == k.account;
    assert AfterOps(db, ops[..1]) == WithoutAccount(db, k.account);
    assert PossibleOps(db, ops[..1]);
    AlertIsSafeUnlessDeleted(db, ops, k);
  }

  // ----- low-quota events -----

  /** The account was read with at least one window of this identity, and all of them are low. */
  ghost predicate WatchedLow(view: map<AccountId, seq<Signal>>, a: AccountId, id: Identity) {
    && a in view
    && (exists s <- view[a] :: SignalKey(s) == id)
    && (forall s <- view[a] :: SignalKey(s) == id ==> BelowThreshold(s))
  }

  /** Low-quota events of one signal that a run created. */
  function LowEvents(steps: seq<Step>, a: AccountId, id: Identity): nat {
    if steps == [] then 0 else
      var step := steps[|steps| - 1];
      LowEvents(steps[..|steps| - 1], a, id) + if CreatesLow(step, a, id) then 1 else 0
  }

  /** The state row names a stored event of the signal. */
  ghost predicate Standing(db: Db, a: AccountId, id: Identity) {
    exists t :: ActiveWith(db, LowQuotaState(a, id), LowQuota(a, id, t)) && LowQuota(a, id, t) in db.events
  }

  ghost predicate LowEventStanding(m: Monitor, a: AccountId, id: Identity) {
    Dead(m, a) || Standing(m.db, a, id)
  }

  lemma StandingUnderEnv(m: Monitor, op: EnvOp, a: AccountId, id: Identity, t: Time)
    requires Inv(m) && Legal(m, Env(op))
    requires ActiveWith(m.db, LowQuotaState(a, id), LowQuota(a, id, t)) && LowQuota(a, id, t) in m.db.events
    ensures LowEventStanding(Apply(m, Env(op)), a, id)
  {
    var after := Apply(m, Env(op));
    if op != DeleteAccount(a) {
      assert m.db.events[LowQuota(a, id, t)] == a && m.db.states[LowQuotaState(a, id)].account == a;
      assert ActiveWith(after.db, LowQuotaState(a, id), LowQuota(a, id, t));
    }
  }

  lemma StandingPersists(m: Monitor, step: Step, a: AccountId, id: Identity)
    requires Inv(m) && Legal(m, step) && WatchedLow(m.view, a, id) && LowEventStanding(m, a, id)
    ensures LowEventStanding(Apply(m, step), a, id)
  {
    if Dead(m, a) {
      hide Inv, Standing;
      DeadStaysDead(m, step, a);
    } else {
      var t :| ActiveWith(m.db, LowQuotaState(a, id), LowQuota(a, id, t)) && LowQuota(a, id, t) in m.db.events;
      match step {
        case Env(op) => StandingUnderEnv(m, op, a, id, t);
        case _ => StandingUnderStep(m, step, a, id, t);
      }
    }
  }

  /** Only the environment issues identifiers and removes accounts. */
  lemma AccountsStay(m: Monitor, step: Step)
    requires !step.Env?
    ensures Apply(m, step).db.accounts == m.db.accounts && Apply(m, step).issued == m.issued
  {
  }

  lemma EnvKeepsDead(m: Monitor, op: EnvOp, a: AccountId)
    requires Allowed(m.db, m.issued, m.issuedChannels, op) && Dead(m, a)
    ensures Dead(Apply(m, Env(op)), a)
  {
    assert op.SaveAccount? ==> op.account != a;
  }

  lemma DeadStaysDead(m: Monitor, step: Step, a: AccountId)
    requires Legal(m, step) && Dead(m, a)
    ensures Dead(Apply(m, step), a)
  {
    hide PutStateRule, DropStateRule, PutEventRule, ActivitiesOf, Apply, Allowed;
    if step.Env? {
      hide Dead;
      EnvKeepsDead(m, step.op, a);
    } else {
      AccountsStay(m, step);
    }
  }

  lemma StandingUnderStep(m: Monitor, step: Step, a: AccountId, id: Identity, t: Time)
    requires Legal(m, step) && !step.Env? && WatchedLow(m.view, a, id)
    requires ActiveWith(m.db, LowQuotaState(a, id), LowQuota(a, id, t)) && LowQuota(a, id, t) in m.db.events
    ensures Standing(Apply(m, step).db, a, id)
  {
    hide PutEventRule;
    assert ActiveWith(Apply(m, step).db, LowQuotaState(a, id), LowQuota(a, id, t));
  }

  /**
    While every evaluation reads the signal present and low, at most one
    low-quota event is created for it, whatever fails or is deleted meanwhile.
  */
  lemma {:induction false} AtMostOneLowQuotaEvent(m: Monitor, steps: seq<Step>, a: AccountId, id: Identity)
    requires Inv(m) && Conforms(m, steps) && WatchedLow(m.view, a, id)
    requires forall step <- steps :: step.Observe? ==> WatchedLow(step.view, a, id)
    ensures LowEvents(steps, a, id) <= 1
    ensures LowEvents(steps, a, id) == 1 ==> LowEventStanding(Replay(m, steps), a, id)
    ensures LowEventStanding(m, a, id) ==> LowEvents(steps, a, id) == 0 && LowEventStanding(Replay(m, steps), a, id)
    ensures WatchedLow(Replay(m, steps).view, a, id)
  {
    if steps != [] {
      var before, step := steps[..|steps| - 1], steps[|steps| - 1];
      hide Inv, Legal, Apply, WatchedLow, LowEventStanding;
      AtMostOneLowQuotaEvent(m, before, a, id);
      RunKeepsInv(m, before);
      var at := Replay(m, before);
      assert step in steps;
      ViewAfter(at, step);
      if LowEventStanding(at, a, id) {
        StandingPersists(at, step, a, id);
        NoSecondEvent(at, step, a, id);
      } else if CreatesLow(step, a, id) {
        CreationStands(at, step, a, id);
      }
    }
  }

  lemma ViewAfter(m: Monitor, step: Step)
    ensures Apply(m, step).view == if step.Observe? then step.view else m.view
  {
  }

  predicate CreatesLow(step: Step, a: AccountId, id: Identity) {
    step.PutEvent? && step.created && step.event.LowQuota? && step.event.account == a && step.event.identity == id
  }

  lemma NoSecondEvent(m: Monitor, step: Step, a: AccountId, id: Identity)
    requires Inv(m) && Legal(m, step) && LowEventStanding(m, a, id)
    ensures !CreatesLow(step, a, id)
  {
    hide Inv, PutStateRule, DropStateRule;
  }

  lemma CreationStands(m: Monitor, step: Step, a: AccountId, id: Identity)
    requires Legal(m, step) && CreatesLow(step, a, id)
    ensures LowEventStanding(Apply(m, step), a, id)
  {
    assert ActiveWith(Apply(m, step).db, LowQuotaState(a, id), LowQuota(a, id, step.event.at));
  }

  /** All windows of one identity are low, or none is. */
  ghost predicate Unmixed(view: map<AccountId, seq<Signal>>, a: AccountId, id: Identity) {
    a in view ==> forall s, t :: s in view[a] && t in view[a] && SignalKey(s) == id && SignalKey(t) == id ==>
      (BelowThreshold(s) <==> BelowThreshold(t))
  }

  ghost predicate SeenLow(m: Monitor, a: AccountId, id: Identity) {
    a in m.view && exists s <- m.view[a] :: SignalKey(s) == id && BelowThreshold(s)
  }

  /** Events of the signal are in the past; one of the current evaluation is the one the state names. */
  ghost predicate KeysInOrder(m: Monitor, a: AccountId, id: Identity) {
    && (forall t :: LowQuota(a, id, t) in m.db.events ==>
          t < m.clock || (t == m.clock && SeenLow(m, a, id) && ActiveWith(m.db, LowQuotaState(a, id), LowQuota(a, id, t))))
    && (forall t :: ActiveWith(m.db, LowQuotaState(a, id), LowQuota(a, id, t)) ==>
          t < m.clock || (t == m.clock && SeenLow(m, a, id)))
  }

  /** Other requests add no event and no state row, and remove a row only with its account. */
  lemma EnvKeepsRows(m: Monitor, op: EnvOp)
    requires Inv(m)
    ensures var after := ApplyEnv(m.db, op);
            && (forall k :: k in after.events ==> k in m.db.events)
            && (forall key :: key in after.states ==> key in m.db.states && after.states[key] == m.db.states[key])
            && (forall key :: key in m.db.states && key !in after.states ==> op == DeleteAccount(key.account))
            && (op.DeleteAccount? ==> forall k :: k in after.events ==> k.account != op.account)
  {
    hide NoOrphan, Fits, UsageIntact;
  }

  lemma KeysStayInOrderUnderEnv(m: Monitor, op: EnvOp, a: AccountId, id: Identity)
    requires Inv(m) && KeysInOrder(m, a, id)
    ensures KeysInOrder(Apply(m, Env(op)), a, id)
  {
    hide Inv, WithoutAccount, WithAccount, WithoutChannel;
    EnvKeepsRows(m, op);
  }

  /** An evaluation starts later than the one before it. */
  ghost predicate Advances(m: Monitor, step: Step) {
    step.Observe? ==> step.now > m.clock
  }

  lemma KeysStayInOrder(m: Monitor, step: Step, a: AccountId, id: Identity)
    requires Inv(m) && Legal(m, step) && Advances(m, step) && KeysInOrder(m, a, id) && Unmixed(m.view, a, id)
    ensures KeysInOrder(Apply(m, step), a, id)
  {
    hide Inv, KeysInOrder, PutStateRule, DropStateRule, PutEventRule;
    match step
    case Env(op) => KeysStayInOrderUnderEnv(m, op, a, id);
    case PutState(key, v, at) => KeysStayInOrderOnPut(m, key, v, at, a, id);
    case DropState(key) => KeysStayInOrderOnDrop(m, key, a, id);
    case _ => KeysStayInOrderOtherwise(m, step, a, id);
  }

  lemma KeysStayInOrderOtherwise(m: Monitor, step: Step, a: AccountId, id: Identity)
    requires Legal(m, step) && Advances(m, step) && KeysInOrder(m, a, id) && Unmixed(m.view, a, id)
    requires !step.Env? && !step.PutState? && !step.DropState?
    ensures KeysInOrder(Apply(m, step), a, id)
  {
  }

  lemma KeysStayInOrderOnPut(m: Monitor, key: StateKey, v: StateValue, at: Time, a: AccountId, id: Identity)
    requires Legal(m, PutState(key, v, at)) && KeysInOrder(m, a, id) && Unmixed(m.view, a, id)
    ensures KeysInOrder(Apply(m, PutState(key, v, at)), a, id)
  {
  }

  lemma KeysStayInOrderOnDrop(m: Monitor, key: StateKey, a: AccountId, id: Identity)
    requires Legal(m, DropState(key)) && KeysInOrder(m, a, id)
    ensures KeysInOrder(Apply(m, DropState(key)), a, id)
  {
  }

  /** Evaluation times increase. */
  ghost predicate Increasing(m: Monitor, steps: seq<Step>) {
    steps == [] || (Increasing(m, steps[..|steps| - 1]) && Advances(Replay(m, steps[..|steps| - 1]), steps[|steps| - 1]))
  }

  /** A new drop after a recovery or a disappearance gets a key no event has, so it is announced again. */
  lemma {:induction false} NewDropIsFresh(m: Monitor, steps: seq<Step>, a: AccountId, id: Identity)
    requires Inv(m) && Conforms(m, steps) && Increasing(m, steps) && KeysInOrder(m, a, id) && Unmixed(m.view, a, id)
    requires forall step <- steps :: step.Observe? ==> Unmixed(step.view, a, id)
    ensures KeysInOrder(Replay(m, steps), a, id) && Unmixed(Replay(m, steps).view, a, id)
    ensures forall k, at: Time :: Legal(Replay(m, steps), PutState(LowQuotaState(a, id), Active(k), at)) ==> k !in Replay(m, steps).db.events
  {
    if steps != [] {
      hide Inv, Legal, KeysInOrder, Unmixed, Apply;
      var before, step := steps[..|steps| - 1], steps[|steps| - 1];
      NewDropIsFresh(m, before, a, id);
      RunKeepsInv(m, before);
      assert step in steps;
      KeysStayInOrder(Replay(m, before), step, a, id);
      ViewAfter(Replay(m, before), step);
    }
    FreshWhenInOrder(Replay(m, steps), a, id);
  }

  lemma FreshWhenInOrder(m: Monitor, a: AccountId, id: Identity)
    requires KeysInOrder(m, a, id)
    ensures forall k, at: Time :: Legal(m, PutState(LowQuotaState(a, id), Active(k), at)) ==> k !in m.db.events
  {
  }

  /** Only a created event makes a signal standing. */
  lemma StandingNeedsEvent(m: Monitor, step: Step, a: AccountId, id: Identity)
    requires Inv(m) && Legal(m, step) && KeysInOrder(m, a, id)
    requires !Standing(m.db, a, id) && LowEvents([step], a, id) == 0
    ensures !Standing(Apply(m, step).db, a, id)
  {
    var after := Apply(m, step).db;
    assert [step][..0] == [];
    if step.Env? {
      EnvKeepsRows(m, step.op);
      hide Inv, WithoutAccount, WithAccount, WithoutChannel;
      forall t ensures !(ActiveWith(after, LowQuotaState(a, id), LowQuota(a, id, t)) && LowQuota(a, id, t) in after.events) {
        assert !(ActiveWith(m.db, LowQuotaState(a, id), LowQuota(a, id, t)) && LowQuota(a, id, t) in m.db.events);
      }
    } else {
      FreshWhenInOrder(m, a, id);
      forall t ensures !(ActiveWith(after, LowQuotaState(a, id), LowQuota(a, id, t)) && LowQuota(a, id, t) in after.events) {
        assert !(ActiveWith(m.db, LowQuotaState(a, id), LowQuota(a, id, t)) && LowQuota(a, id, t) in m.db.events);
      }
    }
  }

  lemma {:induction false} LowEventsSplit(xs: seq<Step>, ys: seq<Step>, a: AccountId, id: Identity)
    ensures LowEvents(xs + ys, a, id) == LowEvents(xs, a, id) + LowEvents(ys, a, id)
  {
    if ys == [] {
      assert xs + ys == xs;
    } else {
      assert (xs + ys)[..|xs + ys| - 1] == xs + ys[..|ys| - 1];
      LowEventsSplit(xs, ys[..|ys| - 1], a, id);
    }
  }

  lemma {:induction false} NoEventNoStanding(m: Monitor, steps: seq<Step>, a: AccountId, id: Identity)
    requires Inv(m) && Conforms(m, steps) && Increasing(m, steps) && KeysInOrder(m, a, id) && Unmixed(m.view, a, id)
    requires forall step <- steps :: step.Observe? ==> Unmixed(step.view, a, id)
    requires !Standing(m.db, a, id) && LowEvents(steps, a, id) == 0
    ensures !Standing(Replay(m, steps).db, a, id)
  {
    if steps != [] {
      hide Inv, Legal, Standing, Apply;
      var before, step := steps[..|steps| - 1], steps[|steps| - 1];
      assert steps == before + [step];
      LowEventsSplit(before, [step], a, id);
      NoEventNoStanding(m, before, a, id);
      NewDropIsFresh(m, before, a, id);
      RunKeepsInv(m, before);
      StandingNeedsEvent(Replay(m, before), step, a, id);
    }
  }

  /**
    A stretch of evaluations that all read the signal present and low, with no
    event standing at its start, creates exactly one low-quota event as soon as
    one of them left the signal settled.
  */
  lemma ExactlyOneLowQuotaEvent(m: Monitor, steps: seq<Step>, p: nat, a: AccountId, id: Identity)
    requires Inv(m) && Conforms(m, steps) && Increasing(m, steps) && KeysInOrder(m, a, id) && WatchedLow(m.view, a, id)
    requires forall step <- steps :: step.Observe? ==> WatchedLow(step.view, a, id)
    requires !Standing(m.db, a, id) && p <= |steps| && Standing(Replay(m, steps[..p]).db, a, id)
    ensures LowEvents(steps, a, id) == LowEvents(steps[..p], a, id) == 1
  {
    hide Inv, Standing;
    var done, rest := steps[..p], steps[p..];
    assert steps == done + rest;
    LowEventsSplit(done, rest, a, id);
    AtMostOneLowQuotaEvent(m, steps, a, id);
    PrefixConforms(m, steps, p);
    PrefixIncreases(m, steps, p);
    if LowEvents(done, a, id) == 0 { NoEventNoStanding(m, done, a, id); }
  }

  lemma {:induction false} PrefixIncreases(m: Monitor, steps: seq<Step>, p: nat)
    requires Increasing(m, steps) && p <= |steps|
    ensures Increasing(m, steps[..p])
    ensures p < |steps| ==> Advances(Replay(m, steps[..p]), steps[p])
  {
    if p < |steps| {
      var before := steps[..|steps| - 1];
      if p < |before| {
        PrefixIncreases(m, before, p);
        assert before[..p] == steps[..p];
      } else {
        assert before == steps[..p];
      }
    } else {
      assert steps[..p] == steps;
    }
  }

  lemma {:induction false} SuffixIncreases(m: Monitor, steps: seq<Step>, i: nat)
    requires Increasing(m, steps) && i <= |steps|
    ensures Increasing(Replay(m, steps[..i]), steps[i..])
  {
    if i < |steps| {
      var before := steps[..|steps| - 1];
      SuffixIncreases(m, before, i);
      assert before[..i] == steps[..i];
      assert steps[i..][..|steps[i..]| - 1] == before[i..];
      ReplaySplits(m, before, i);
    } else {
      assert steps[i..] == [];
    }
  }

  /** Nothing is created or raised while an evaluation only reads. */
  lemma {:induction false} ReadingKeepsInactive(m: Monitor, steps: seq<Step>, a: AccountId, id: Identity)
    requires Inv(m) && Conforms(m, steps) && forall step <- steps :: IsReading(step)
    ensures LowEvents(steps, a, id) == 0 && Replay(m, steps).view == m.view && Replay(m, steps).clock == m.clock
    ensures Inactive(m.db, LowQuotaState(a, id)) ==> Inactive(Replay(m, steps).db, LowQuotaState(a, id))
    ensures LowEventStanding(m, a, id) ==> LowEventStanding(Replay(m, steps), a, id)
    ensures !Standing(m.db, a, id) ==> !Standing(Replay(m, steps).db, a, id)
  {
    if steps != [] {
      var before, step := steps[..|steps| - 1], steps[|steps| - 1];
      assert step in steps;
      ReadingKeepsInactive(m, before, a, id);
      RunKeepsInv(m, before);
      ReadingStepKeepsRow(Replay(m, before), step, a, id);
    }
  }

  lemma ReadingStepKeepsRow(m: Monitor, step: Step, a: AccountId, id: Identity)
    requires Inv(m) && Legal(m, step) && IsReading(step)
    ensures Apply(m, step).view == m.view && Apply(m, step).clock == m.clock
    ensures Inactive(m.db, LowQuotaState(a, id)) ==> Inactive(Apply(m, step).db, LowQuotaState(a, id))
    ensures LowEventStanding(m, a, id) ==> LowEventStanding(Apply(m, step), a, id)
    ensures !Standing(m.db, a, id) ==> !Standing(Apply(m, step).db, a, id)
  {
    if step.Env? {
      hide Inv, Standing, LowEventStanding, WithoutAccount, WithAccount, WithoutChannel;
      EnvKeepsRows(m, step.op);
      EnvKeepsStanding(m, step.op, a, id);
    } else {
      assert Apply(m, step).db == m.db;
    }
  }

  lemma EnvKeepsStanding(m: Monitor, op: EnvOp, a: AccountId, id: Identity)
    requires Inv(m) && Legal(m, Env(op))
    ensures LowEventStanding(m, a, id) ==> LowEventStanding(Apply(m, Env(op)), a, id)
    ensures Standing(Apply(m, Env(op)).db, a, id) ==> Standing(m.db, a, id)
  {
    hide Inv, WithoutAccount, WithAccount, WithoutChannel;
    EnvKeepsRows(m, op);
    if Dead(m, a) {
      DeadStaysDead(m, Env(op), a);
    } else if Standing(m.db, a, id) {
      var t :| ActiveWith(m.db, LowQuotaState(a, id), LowQuota(a, id, t)) && LowQuota(a, id, t) in m.db.events;
      StandingUnderEnv(m, op, a, id, t);
    }
    var after := Apply(m, Env(op)).db;
    if Standing(after, a, id) {
      var t :| ActiveWith(after, LowQuotaState(a, id), LowQuota(a, id, t)) && LowQuota(a, id, t) in after.events;
      assert ActiveWith(m.db, LowQuotaState(a, id), LowQuota(a, id, t));
    }
  }

  lemma {:induction false} ReadingAddsNoEvent(steps: seq<Step>, a: AccountId, id: Identity)
    requires forall step <- steps :: !step.PutEvent?
    ensures LowEvents(steps, a, id) == 0
  {
    if steps != [] {
      assert steps[|steps| - 1] in steps;
      ReadingAddsNoEvent(steps[..|steps| - 1], a, id);
    }
  }

  /** Up to position o the pass only read; there it started on what it had read, and not again later. */
  ghost predicate StartedAt(from: nat, steps: seq<Step>, o: nat, view: map<AccountId, seq<Signal>>, now: Time) {
    && from <= o < |steps| && steps[o] == Observe(view, now)
    && (forall q :: from <= q < o ==> IsReading(steps[q]))
    && (forall q :: o < q < |steps| ==> !steps[q].Observe?)
  }

  lemma StartShifts(before: seq<Step>, steps: seq<Step>, o: nat, view: map<AccountId, seq<Signal>>, now: Time)
    requires before <= steps && StartedAt(|before|, steps, o, view, now)
    ensures StartedAt(0, steps[|before|..], o - |before|, view, now)
    ensures steps == before + steps[|before|..] && steps[..|before|] == before
  {
    var pass := steps[|before|..];
    assert forall q :: |before| <= q < |steps| ==> steps[q] == pass[q - |before|];
    assert forall q :: 0 <= q < |pass| ==> pass[q] == steps[q + |before|];
  }

  /** The run up to its first observation creates nothing. */
  lemma EventsComeAfterObserving(steps: seq<Step>, o: nat, a: AccountId, id: Identity)
    requires o < |steps| && steps[o].Observe? && forall q :: 0 <= q < o ==> IsReading(steps[q])
    ensures LowEvents(steps, a, id) == LowEvents(steps[o + 1..], a, id)
  {
    hide LowEvents;
    Halves(steps, o + 1);
    NoEventBefore(steps, o);
    LowEventsSplit(steps[..o + 1], steps[o + 1..], a, id);
    ReadingAddsNoEvent(steps[..o + 1], a, id);
  }

  lemma NoEventBefore(steps: seq<Step>, o: nat)
    requires o < |steps| && steps[o].Observe? && forall q :: 0 <= q < o ==> IsReading(steps[q])
    ensures forall step <- steps[..o + 1] :: !step.PutEvent?
  {
  }

  /** What is known right after the first observation of a run. */
  lemma AfterObserving(m: Monitor, steps: seq<Step>, o: nat, a: AccountId, id: Identity)
    requires Inv(m) && Conforms(m, steps) && KeysInOrder(m, a, id) && Unmixed(m.view, a, id)
    requires o < |steps| && steps[o].Observe? && steps[o].now > m.clock && WatchedLow(steps[o].view, a, id)
    requires forall q :: 0 <= q < o ==> IsReading(steps[q])
    ensures var start := Replay(m, steps[..o + 1]);
            && Inv(start) && Conforms(start, steps[o + 1..]) && Replay(start, steps[o + 1..]) == Replay(m, steps)
            && KeysInOrder(start, a, id) && WatchedLow(start.view, a, id)
            && (Standing(m.db, a, id) ==> LowEventStanding(start, a, id))
            && (!Standing(m.db, a, id) ==> !Standing(start.db, a, id))
  {
    hide Inv, Standing, KeysInOrder, WatchedLow, Unmixed, Conforms, Legal, Apply;
    var read := steps[..o];
    PrefixConforms(m, steps, o);
    ReadingKeepsInactive(m, read, a, id);
    ReadingStaysInOrder(m, read, a, id);
    StateAfter(m, steps, o);
    ObservationStarts(Replay(m, read), steps[o], a, id);
    PrefixConforms(m, steps, o + 1);
    RunKeepsInv(m, steps[..o + 1]);
    ReplaySplits(m, steps, o + 1);
  }

  /**
    One more evaluation that reads the signal low and leaves it settled creates
    one event when none was standing before it, and none otherwise.
  */
  lemma PassCreatesOne(m: Monitor, steps: seq<Step>, o: nat, view: map<AccountId, seq<Signal>>, now: Time, a: AccountId, id: Identity)
    requires Inv(m) && Conforms(m, steps) && KeysInOrder(m, a, id) && Unmixed(m.view, a, id)
    requires StartedAt(0, steps, o, view, now) && now > m.clock && WatchedLow(view, a, id)
    requires Standing(Replay(m, steps).db, a, id)
    ensures LowEvents(steps, a, id) == if Standing(m.db, a, id) then 0 else 1
  {
    hide Inv, Standing, LowEventStanding, KeysInOrder, WatchedLow, Unmixed, Conforms, Replay, LowEvents, Increasing;
    AfterObserving(m, steps, o, a, id);
    EventsComeAfterObserving(steps, o, a, id);
    var start, rest := Replay(m, steps[..o + 1]), steps[o + 1..];
    StartMeans(steps, o, view, now);
    NeverObserves(start, rest);
    AtMostOneLowQuotaEvent(start, rest, a, id);
    if !Standing(m.db, a, id) {
      assert rest[..|rest|] == rest;
      ExactlyOneLowQuotaEvent(start, rest, |rest|, a, id);
    } else {
      StandingIsStanding(m, a, id);
    }
  }

  /** While one evaluation runs, an inactive row can only come to name the key of that evaluation. */
  ghost predicate NamesAtMost(db: Db, k: EventKey)
    requires IsSignal(k)
  {
    Inactive(db, StateOf(k)) || ActiveWith(db, StateOf(k), k)
  }

  /** The events of one key, present or created, are counted as long as its account lives. */
  ghost predicate CountedKey(before: Db, m: Monitor, events: nat, k: EventKey) {
    Dead(m, k.account) || events + (if k in before.events then 1 else 0) == if k in m.db.events then 1 else 0
  }

  lemma KeyStep(before: Db, m: Monitor, step: Step, events: nat, k: EventKey)
    requires Inv(m) && Legal(m, step) && !step.Observe? && k.LowQuota? && k.at == m.clock && NamesAtMost(m.db, k)
    requires CountedKey(before, m, events, k)
    ensures NamesAtMost(Apply(m, step).db, k) && Apply(m, step).clock == m.clock
    ensures CountedKey(before, Apply(m, step), events + LowEvents([step], k.account, k.identity), k)
  {
    assert [step][..0] == [];
    if step.Env? {
      hide Inv, NamesAtMost, CountedKey;
      EnvKeepsKey(before, m, step.op, events, k);
    } else if step.PutState? {
      hide Inv, NamesAtMost, CountedKey;
      PutKeepsKey(before, m, step.key, step.value, step.at, events, k);
    } else {
      hide Inv, ActivitiesOf, PutStateRule, ApplyEnv;
      if Dead(m, k.account) { DeadStaysDead(m, step, k.account); }
    }
  }

  lemma PutKeepsKey(before: Db, m: Monitor, key: StateKey, value: StateValue, at: Time, events: nat, k: EventKey)
    requires Inv(m) && Legal(m, PutState(key, value, at)) && k.LowQuota? && k.at == m.clock && NamesAtMost(m.db, k)
    requires CountedKey(before, m, events, k)
    ensures NamesAtMost(Apply(m, PutState(key, value, at)).db, k) && CountedKey(before, Apply(m, PutState(key, value, at)), events, k)
  {
    hide Inv;
  }

  lemma EventsAreIssued(m: Monitor, k: EventKey)
    requires Inv(m) && k in m.db.events
    ensures k.account in m.issued && m.db.events[k] == k.account
  {
  }

  lemma EnvKeepsKey(before: Db, m: Monitor, op: EnvOp, events: nat, k: EventKey)
    requires Inv(m) && Legal(m, Env(op)) && k.LowQuota? && NamesAtMost(m.db, k) && CountedKey(before, m, events, k)
    ensures NamesAtMost(Apply(m, Env(op)).db, k) && CountedKey(before, Apply(m, Env(op)), events, k)
  {
    EnvKeepsRows(m, op);
    EnvApplies(m, op);
    if Dead(m, k.account) {
      DeadStaysDead(m, Env(op), k.account);
    } else if k in m.db.events {
      EventsAreIssued(m, k);
    }
    hide NoOrphan, Fits, UsageIntact;
  }

  /** The run of one evaluation after it started. */
  lemma {:induction false} OneKeyPerPass(before: Db, m: Monitor, steps: seq<Step>, k: EventKey)
    requires Inv(m) && Conforms(m, steps) && forall step <- steps :: !step.Observe?
    requires k.LowQuota? && k.at == m.clock && NamesAtMost(m.db, k) && CountedKey(before, m, 0, k)
    ensures NamesAtMost(Replay(m, steps).db, k) && Replay(m, steps).clock == m.clock
    ensures CountedKey(before, Replay(m, steps), LowEvents(steps, k.account, k.identity), k)
  {
    if steps != [] {
      hide Inv, Legal, Apply, NamesAtMost, CountedKey;
      var front, step := steps[..|steps| - 1], steps[|steps| - 1];
      assert step in steps && steps == front + [step];
      OneKeyPerPass(before, m, front, k);
      RunKeepsInv(m, front);
      LowEventsSplit(front, [step], k.account, k.identity);
      KeyStep(before, Replay(m, front), step, LowEvents(front, k.account, k.identity), k);
    }
  }

  lemma {:induction false} ReadingKeepsKey(before: Db, m: Monitor, steps: seq<Step>, k: EventKey)
    requires Inv(m) && Conforms(m, steps) && forall step <- steps :: IsReading(step)
    requires k.LowQuota? && NamesAtMost(m.db, k) && CountedKey(before, m, 0, k)
    ensures NamesAtMost(Replay(m, steps).db, k) && CountedKey(before, Replay(m, steps), 0, k)
  {
    if steps != [] {
      hide Inv, Legal, NamesAtMost, CountedKey;
      var front, step := steps[..|steps| - 1], steps[|steps| - 1];
      assert step in steps;
      ReadingKeepsKey(before, m, front, k);
      RunKeepsInv(m, front);
      ReadingStepKeepsKey(before, Replay(m, front), step, k);
    }
  }

  lemma ReadingStepKeepsKey(before: Db, m: Monitor, step: Step, k: EventKey)
    requires Inv(m) && Legal(m, step) && IsReading(step)
    requires k.LowQuota? && NamesAtMost(m.db, k) && CountedKey(before, m, 0, k)
    ensures NamesAtMost(Apply(m, step).db, k) && CountedKey(before, Apply(m, step), 0, k)
  {
    hide Inv, NamesAtMost;
    if step.Env? {
      EnvKeepsKey(before, m, step.op, 0, k);
    } else {
      assert Apply(m, step).db == m.db && Apply(m, step).issued == m.issued;
    }
  }

  /**
    Whatever the evaluation times: a pass that finds the row inactive and
    leaves the signal standing creates an event if and only if no event of the
    signal carries the time of this pass yet.
  */
  lemma DropIsNewUnlessTimeRepeats(m: Monitor, steps: seq<Step>, o: nat, view: map<AccountId, seq<Signal>>, now: Time, a: AccountId, id: Identity)
    requires Inv(m) && Conforms(m, steps) && StartedAt(0, steps, o, view, now)
    requires Inactive(m.db, LowQuotaState(a, id)) && Standing(Replay(m, steps).db, a, id)
    ensures LowEvents(steps, a, id) == if LowQuota(a, id, now) in m.db.events then 0 else 1
  {
    hide Inv, Standing, Conforms, LowEvents, Legal, NamesAtMost, CountedKey, IsReading;
    var k, read, rest := LowQuota(a, id, now), steps[..o], steps[o + 1..];
    var start := Replay(m, steps[..o + 1]);
    KeyAtFirst(m, k);
    PrefixConforms(m, steps, o);
    StartMeans(steps, o, view, now);
    ReadingKeepsKey(m.db, m, read, k);
    StateAfter(m, steps, o);
    KeyAfterStart(m.db, Replay(m, read), view, now, k);
    PrefixConforms(m, steps, o + 1);
    RunKeepsInv(m, steps[..o + 1]);
    ReplaySplits(m, steps, o + 1);
    EventsComeAfterObserving(steps, o, a, id);
    OneKeyPerPass(m.db, start, rest, k);
    RunKeepsInv(start, rest);
    KeyAtLast(m.db, Replay(m, steps), LowEvents(steps, a, id), k);
  }

  lemma KeyAtFirst(m: Monitor, k: EventKey)
    requires k.LowQuota? && Inactive(m.db, StateOf(k))
    ensures NamesAtMost(m.db, k) && CountedKey(m.db, m, 0, k)
  {
  }

  lemma KeyAfterStart(before: Db, m: Monitor, view: map<AccountId, seq<Signal>>, now: Time, k: EventKey)
    requires k.LowQuota? && NamesAtMost(m.db, k) && CountedKey(before, m, 0, k)
    ensures var start := Apply(m, Observe(view, now)); start.clock == now && NamesAtMost(start.db, k) && CountedKey(before, start, 0, k)
  {
  }

  lemma KeyAtLast(before: Db, m: Monitor, events: nat, k: EventKey)
    requires Inv(m) && k.LowQuota? && NamesAtMost(m.db, k) && CountedKey(before, m, events, k) && Standing(m.db, k.account, k.identity)
    ensures events == if k in before.events then 0 else 1
  {
    var t :| ActiveWith(m.db, StateOf(k), LowQuota(k.account, k.identity, t)) && LowQuota(k.account, k.identity, t) in m.db.events;
    assert k == LowQuota(k.account, k.identity, t);
    assert m.db.events[k] in m.db.accounts;
  }

  lemma StartMeans(steps: seq<Step>, o: nat, view: map<AccountId, seq<Signal>>, now: Time)
    requires StartedAt(0, steps, o, view, now)
    ensures steps[o] == Observe(view, now)
    ensures forall q :: 0 <= q < o ==> IsReading(steps[q])
    ensures forall step <- steps[..o] :: IsReading(step)
    ensures forall step <- steps[o + 1..] :: !step.Observe?
  {
  }

  lemma StandingIsStanding(m: Monitor, a: AccountId, id: Identity)
    requires Standing(m.db, a, id)
    ensures LowEventStanding(m, a, id)
  {
  }

  lemma {:induction false} NeverObserves(m: Monitor, steps: seq<Step>)
    requires forall step <- steps :: !step.Observe?
    ensures Increasing(m, steps)
  {
    if steps != [] {
      assert steps[|steps| - 1] in steps;
      NeverObserves(m, steps[..|steps| - 1]);
    }
  }

  lemma {:induction false} ReadingStaysInOrder(m: Monitor, steps: seq<Step>, a: AccountId, id: Identity)
    requires Inv(m) && Conforms(m, steps) && KeysInOrder(m, a, id) && Unmixed(m.view, a, id) && forall step <- steps :: IsReading(step)
    ensures KeysInOrder(Replay(m, steps), a, id)
  {
    NeverObserves(m, steps);
    NewDropIsFresh(m, steps, a, id);
  }

  lemma ObservationStarts(m: Monitor, step: Step, a: AccountId, id: Identity)
    requires Inv(m) && Legal(m, step) && step.Observe? && step.now > m.clock
    requires KeysInOrder(m, a, id) && WatchedLow(step.view, a, id)
    ensures var start := Apply(m, step);
            KeysInOrder(start, a, id) && WatchedLow(start.view, a, id) && Unmixed(start.view, a, id) && start.db == m.db
            && (LowEventStanding(m, a, id) ==> LowEventStanding(start, a, id))
  {
  }

  /**
    A drop after a recovery: from a moment at which the row names no alert, the
    next stretch of low readings creates exactly one event, under a new key.
  */
  lemma NewDropCreatesOne(m: Monitor, steps: seq<Step>, o: nat, p: nat, a: AccountId, id: Identity)
    requires Inv(m) && Conforms(m, steps) && Increasing(m, steps) && KeysInOrder(m, a, id) && Unmixed(m.view, a, id)
    requires Inactive(m.db, LowQuotaState(a, id))
    requires o < p <= |steps| && steps[o].Observe? && forall q :: 0 <= q < o ==> IsReading(steps[q])
    requires forall q :: o <= q < |steps| && steps[q].Observe? ==> WatchedLow(steps[q].view, a, id)
    requires Standing(Replay(m, steps[..p]).db, a, id)
    ensures LowEvents(steps, a, id) == 1
  {
    hide Inv, Standing, LowEventStanding, KeysInOrder, WatchedLow, Unmixed, Conforms, Replay, LowEvents, Increasing, Inactive;
    FirstObservationAdvances(m, steps, o);
    InactiveIsNotStanding(m, a, id);
    AfterObserving(m, steps, o, a, id);
    EventsComeAfterObserving(steps, o, a, id);
    var start, rest := Replay(m, steps[..o + 1]), steps[o + 1..];
    SuffixIncreases(m, steps, o + 1);
    RestIsLow(steps, o, a, id);
    StandingInRest(m, steps, o + 1, p, a, id);
    ExactlyOneLowQuotaEvent(start, rest, p - o - 1, a, id);
  }

  lemma RestIsLow(steps: seq<Step>, o: nat, a: AccountId, id: Identity)
    requires o < |steps| && forall q :: o <= q < |steps| && steps[q].Observe? ==> WatchedLow(steps[q].view, a, id)
    ensures forall step <- steps[o + 1..] :: step.Observe? ==> WatchedLow(step.view, a, id)
  {
    hide WatchedLow;
  }

  lemma StandingInRest(m: Monitor, steps: seq<Step>, i: nat, p: nat, a: AccountId, id: Identity)
    requires i <= p <= |steps| && Standing(Replay(m, steps[..p]).db, a, id)
    ensures Standing(Replay(Replay(m, steps[..i]), steps[i..][..p - i]).db, a, id)
  {
    hide Standing, Replay;
    ReplaySplits(m, steps[..p], i);
    PrefixOfRest(steps, i, p);
  }

  lemma PrefixOfRest(steps: seq<Step>, i: nat, p: nat)
    requires i <= p <= |steps|
    ensures steps[..p][..i] == steps[..i] && steps[..p][i..] == steps[i..][..p - i]
  {
  }

  lemma FirstObservationAdvances(m: Monitor, steps: seq<Step>, o: nat)
    requires Increasing(m, steps)
    requires o < |steps| && steps[o].Observe? && forall q :: 0 <= q < o ==> IsReading(steps[q])
    ensures steps[o].now > m.clock
  {
    PrefixIncreases(m, steps, o);
    ReadingKeepsClock(m, steps[..o]);
  }

  lemma {:induction false} ReadingKeepsClock(m: Monitor, steps: seq<Step>)
    requires forall step <- steps :: IsReading(step)
    ensures Replay(m, steps).clock == m.clock
  {
    if steps != [] {
      assert steps[|steps| - 1] in steps;
      ReadingKeepsClock(m, steps[..|steps| - 1]);
    }
  }

  lemma InactiveIsNotStanding(m: Monitor, a: AccountId, id: Identity)
    requires Inactive(m.db, LowQuotaState(a, id))
    ensures !Standing(m.db, a, id)
  {
  }

  // ----- deliveries -----

  function AcceptedSends(steps: seq<Step>, r: Receipt): nat {
    if steps == [] then 0 else
      AcceptedSends(steps[..|steps| - 1], r) + if steps[|steps| - 1] == Send(r, true) then 1 else 0
  }

  function StoredReceipts(steps: seq<Step>, r: Receipt): nat {
    if steps == [] then 0 else
      StoredReceipts(steps[..|steps| - 1], r) + if steps[|steps| - 1] == PutReceipt(r) then 1 else 0
  }

  function LostReceipts(steps: seq<Step>, r: Receipt): nat {
    if steps == [] then 0 else
      LostReceipts(steps[..|steps| - 1], r) + if steps[|steps| - 1] == LostReceipt(r) then 1 else 0
  }

  /** The event's account or the channel was deleted after it had been issued. */
  predicate Gone(m: Monitor, r: Receipt) {
    Dead(m, r.key.account) || (r.channel in m.issuedChannels && r.channel !in m.db.channels)
  }

  lemma ReceiptUnderEnv(m: Monitor, op: EnvOp, r: Receipt)
    requires Inv(m) && Legal(m, Env(op)) && (r in m.db.deliveries || Gone(m, r))
    ensures r in ApplyEnv(m.db, op).deliveries || Gone(Apply(m, Env(op)), r)
  {
    if r in m.db.deliveries {
      assert m.db.events[r.key] == r.key.account && r.channel in m.db.channels;
    }
  }

  lemma ReceiptStaysOrIsGone(m: Monitor, step: Step, r: Receipt)
    requires Inv(m) && Legal(m, step) && (r in m.db.deliveries || Gone(m, r))
    ensures r in Apply(m, step).db.deliveries || Gone(Apply(m, step), r)
  {
    if step.Env? {
      hide Inv, Legal, Gone, Apply;
      ReceiptUnderEnv(m, step.op, r);
      EnvApplies(m, step.op);
    } else {
      hide Inv, PutStateRule, DropStateRule, PutEventRule;
    }
  }

  lemma EnvApplies(m: Monitor, op: EnvOp)
    ensures Apply(m, Env(op)).db == ApplyEnv(m.db, op)
  {
  }

  predicate Flying(m: Monitor, r: Receipt) {
    m.control == InFlight(r)
  }

  /** An accepted send is in flight until its receipt is stored or lost; storing finds no receipt and neither account nor channel gone. */
  lemma SendStep(m: Monitor, step: Step, r: Receipt)
    requires Inv(m) && Legal(m, step)
    ensures var after := Apply(m, step);
            && (Flying(after, r) <==> step == Send(r, true) || (Flying(m, r) && step != PutReceipt(r) && step != LostReceipt(r)))
            && (step == Send(r, true) ==> !Flying(m, r))
            && (step == PutReceipt(r) || step == LostReceipt(r) ==> Flying(m, r))
            && (step == PutReceipt(r) ==> r in after.db.deliveries && r !in m.db.deliveries && !Gone(m, r))
  {
    hide DropStateRule, PutEventRule, NoOrphan, Fits, AttemptReady, AlertCleared;
  }

  /**
    Every accepted send is followed by exactly one attempt to write its
    receipt, at most one of which succeeds; so accepted sends never exceed one
    plus the failed receipt writes once nothing is in flight.
  */
  lemma {:induction false} SendsAreBounded(m: Monitor, steps: seq<Step>, r: Receipt)
    requires Inv(m) && Conforms(m, steps) && m.control.Idle? && r !in m.db.deliveries
    ensures AcceptedSends(steps, r) == StoredReceipts(steps, r) + LostReceipts(steps, r)
                                       + if Replay(m, steps).control == InFlight(r) then 1 else 0
    ensures StoredReceipts(steps, r) <= 1
    ensures StoredReceipts(steps, r) == 1 ==> r in Replay(m, steps).db.deliveries || Gone(Replay(m, steps), r)
    ensures Replay(m, steps).control.Idle? ==> AcceptedSends(steps, r) <= 1 + LostReceipts(steps, r)
  {
    if steps != [] {
      var before, step := steps[..|steps| - 1], steps[|steps| - 1];
      hide Inv, Legal, Apply, Gone;
      SendsAreBounded(m, before, r);
      RunKeepsInv(m, before);
      var at := Replay(m, before);
      SendStep(at, step, r);
      if r in at.db.deliveries || Gone(at, r) {
        ReceiptStaysOrIsGone(at, step, r);
      }
    }
  }

  /** Once a receipt was stored, the pair is sent again only after its account or channel was deleted. */
  lemma NoResendAfterReceipt(m: Monitor, steps: seq<Step>, r: Receipt, accepted: bool)
    requires Inv(m) && Conforms(m, steps) && m.control.Idle? && r !in m.db.deliveries
    requires StoredReceipts(steps, r) > 0 && Legal(Replay(m, steps), Send(r, accepted))
    ensures Gone(Replay(m, steps), r)
  {
    SendsAreBounded(m, steps, r);
  }

  // ----- activity attempts -----

  /** No attempt for this key can start, or is about to start, at or before the bound. */
  ghost predicate Blocked(m: Monitor, key: StateKey, bound: Time) {
    && key.ActivityAttempt?
    && (Dead(m, key.account) ||
        (key in m.db.states && forall at :: AttemptReady(m.db.states[key].value, at) ==> at > bound))
    && (m.control.Armed? && m.control.key == key ==> m.control.at > bound)
  }

  lemma {:induction false} BlockedPersists(m: Monitor, steps: seq<Step>, key: StateKey, bound: Time)
    requires Inv(m) && Conforms(m, steps) && Blocked(m, key, bound)
    ensures Blocked(Replay(m, steps), key, bound)
  {
    if steps != [] {
      var before, step := steps[..|steps| - 1], steps[|steps| - 1];
      BlockedPersists(m, before, key, bound);
      RunKeepsInv(m, before);
      BlockedStep(Replay(m, before), step, key, bound);
    }
  }

  lemma BlockedStep(m: Monitor, step: Step, key: StateKey, bound: Time)
    requires Inv(m) && Legal(m, step) && Blocked(m, key, bound)
    ensures Blocked(Apply(m, step), key, bound)
  {
    hide Inv, AttemptReady, PutStateRule, PutEventRule;
    if step.PutState? {
      hide Blocked;
      BlockedPut(m, step.key, step.value, step.at, key, bound);
    } else if step.Env? {
      hide WithoutAccount, WithAccount, WithoutChannel;
      EnvKeepsRows(m, step.op);
      if Dead(m, key.account) { DeadStaysDead(m, step, key.account); }
      if key in m.db.states { StatesAreIssued(m, key); }
    } else if Dead(m, key.account) {
      DeadStaysDead(m, step, key.account);
    }
  }

  lemma StatesAreIssued(m: Monitor, key: StateKey)
    requires Inv(m) && key in m.db.states
    ensures key.account in m.issued
  {
  }

  lemma BlockedPut(m: Monitor, put: StateKey, value: StateValue, at: Time, key: StateKey, bound: Time)
    requires Inv(m) && Legal(m, PutState(put, value, at)) && Blocked(m, key, bound)
    ensures Blocked(Apply(m, PutState(put, value, at)), key, bound)
  {
    hide NoOrphan;
    if put == key && !value.Running? && !Dead(m, key.account) {
      assert m.db.states[key].value == Running(value.stamp);
      forall at | AttemptReady(value, at) ensures at > bound {
        assert AttemptReady(m.db.states[key].value, at);
      }
    }
  }

  lemma {:induction false} ReplaySplits(m: Monitor, steps: seq<Step>, i: nat)
    requires i <= |steps|
    ensures Replay(m, steps) == Replay(Replay(m, steps[..i]), steps[i..])
    ensures Conforms(m, steps) ==> Conforms(Replay(m, steps[..i]), steps[i..])
  {
    hide Legal, Apply;
    if i == |steps| {
      assert steps[..i] == steps && steps[i..] == [];
    } else {
      var before := steps[..|steps| - 1];
      ReplaySplits(m, before, i);
      assert before[..i] == steps[..i];
      assert steps[i..][..|steps[i..]| - 1] == before[i..];
    }
  }

  /** A step that blocks a key at one point of a run bounds every later attempt for it. */
  lemma LaterRunExceeds(m: Monitor, steps: seq<Step>, i: nat, j: nat, key: StateKey, t: Time, bound: Time)
    requires Inv(m) && Conforms(m, steps) && i <= j < |steps| && steps[j].Run? && steps[j].key == key && steps[j].at == t
    requires Blocked(Replay(m, steps[..i]), key, bound)
    ensures t > bound
  {
    PrefixConforms(m, steps, i);
    RunKeepsInv(m, steps[..i]);
    PrefixConforms(m, steps, j);
    ReplaySplits(m, steps[..j], i);
    assert steps[..j][..i] == steps[..i];
    BlockedPersists(Replay(m, steps[..i]), steps[..j][i..], key, bound);
  }

  lemma StateAfter(m: Monitor, steps: seq<Step>, i: nat)
    requires Inv(m) && Conforms(m, steps) && i < |steps|
    ensures Inv(Replay(m, steps[..i])) && Legal(Replay(m, steps[..i]), steps[i])
    ensures Replay(m, steps[..i + 1]) == Apply(Replay(m, steps[..i]), steps[i])
  {
    PrefixConforms(m, steps, i);
    RunKeepsInv(m, steps[..i]);
    assert steps[..i + 1][..i] == steps[..i];
  }

  /** Two automatic attempts at one activity of one day are more than 30 minutes minus one second apart. */
  lemma AttemptsAreSpaced(m: Monitor, steps: seq<Step>, i: nat, j: nat, key: StateKey, t: Time, u: Time)
    requires Inv(m) && Conforms(m, steps) && i < j < |steps|
    requires steps[i].Run? && steps[i].key == key && steps[i].at == t
    requires steps[j].Run? && steps[j].key == key && steps[j].at == u
    ensures u > t + 30 * MINUTE - SECOND
  {
    StateAfter(m, steps, i);
    LaterRunExceeds(m, steps, i + 1, j, key, u, t + 30 * MINUTE - SECOND);
  }

  /** After a failure recorded over the row of its own attempt the next attempt waits six hours from the second the failed one was stamped with. */
  lemma FailureBacksOff(m: Monitor, steps: seq<Step>, i: nat, j: nat, key: StateKey, stamp: int, at: Time, u: Time)
    requires Inv(m) && Conforms(m, steps) && i < j < |steps|
    requires steps[i] == PutState(key, Failed(stamp), at) && steps[j].Run? && steps[j].key == key && steps[j].at == u
    ensures u >= stamp * SECOND + 6 * HOUR
  {
    StateAfter(m, steps, i);
    LaterRunExceeds(m, steps, i + 1, j, key, u, stamp * SECOND + 6 * HOUR - 1);
  }

  /** No automatic attempt follows a recorded completion. */
  lemma NoAttemptAfterCompletion(m: Monitor, steps: seq<Step>, i: nat, j: nat, key: StateKey, stamp: int, at: Time)
    requires Inv(m) && Conforms(m, steps) && i < j < |steps|
    requires steps[i] == PutState(key, Completed(stamp), at)
    ensures !(steps[j].Run? && steps[j].key == key)
  {
    if steps[j].Run? && steps[j].key == key {
      StateAfter(m, steps, i);
      LaterRunExceeds(m, steps, i + 1, j, key, steps[j].at, steps[j].at);
    }
  }

  // ----- outcomes of attempts -----

  /** The provider gave this answer to an attempt of the run. */
  ghost predicate Gave(steps: seq<Step>, key: StateKey, answer: Answer) {
    exists i | 0 <= i < |steps| :: steps[i] == Run(key, answer.at, answer.succeeded)
  }

  lemma GaveMore(steps: seq<Step>, step: Step, key: StateKey, answer: Answer)
    ensures Gave(steps, key, answer) ==> Gave(steps + [step], key, answer)
    ensures step == Run(key, answer.at, answer.succeeded) ==> Gave(steps + [step], key, answer)
  {
    if Gave(steps, key, answer) {
      var i :| 0 <= i < |steps| && steps[i] == Run(key, answer.at, answer.succeeded);
      assert (steps + [step])[i] == steps[i];
    }
    assert (steps + [step])[|steps|] == step;
  }

  lemma AnswerIsLatest(m: Monitor, step: Step, key: StateKey)
    ensures var n := Apply(m, step);
            key in n.answers ==>
              if step.Run? && step.key == key then n.answers[key] == Answer(step.at, step.succeeded)
              else key in m.answers && m.answers[key] == n.answers[key]
  {
  }

  lemma {:induction false} AnswersWereGiven(m: Monitor, steps: seq<Step>, key: StateKey)
    requires m.answers == map[]
    ensures key in Replay(m, steps).answers ==> Gave(steps, key, Replay(m, steps).answers[key])
  {
    if steps != [] {
      hide Gave, Apply;
      var before, step := steps[..|steps| - 1], steps[|steps| - 1];
      assert steps == before + [step];
      AnswersWereGiven(m, before, key);
      AnswerIsLatest(Replay(m, before), step, key);
      var n := Replay(m, steps);
      if key in n.answers { GaveMore(before, step, key, n.answers[key]); }
    }
  }

  /** How an attempt ended is stored only after the provider said so. */
  ghost predicate OutcomeGiven(steps: seq<Step>, key: StateKey, value: StateValue) {
    (value.Completed? || value.Failed?) ==>
      exists answer: Answer :: Gave(steps, key, answer) && answer.succeeded == value.Completed? && Seconds(answer.at) == value.stamp
  }

  lemma OutcomeGivenLater(steps: seq<Step>, step: Step, key: StateKey, value: StateValue)
    requires OutcomeGiven(steps, key, value)
    ensures OutcomeGiven(steps + [step], key, value)
  {
    hide Gave;
    if value.Completed? || value.Failed? {
      var answer: Answer :| Gave(steps, key, answer) && answer.succeeded == value.Completed? && Seconds(answer.at) == value.stamp;
      GaveMore(steps, step, key, answer);
    }
  }

  lemma OtherRowsStay(m: Monitor, step: Step, key: StateKey)
    requires !(step.PutState? && step.key == key)
    ensures key in Apply(m, step).db.states ==> key in m.db.states && Apply(m, step).db.states[key] == m.db.states[key]
  {
  }

  lemma PutOutcomeWasGiven(m: Monitor, before: seq<Step>, key: StateKey, value: StateValue, at: Time)
    requires m.answers == map[] && key.ActivityAttempt? && Legal(Replay(m, before), PutState(key, value, at))
    ensures OutcomeGiven(before, key, value)
  {
    hide Gave;
    AnswersWereGiven(m, before, key);
  }

  /**
    A completed row that a run leaves behind was preceded by an attempt that
    succeeded at that time, and a failed one by an attempt that failed.
  */
  lemma {:induction false} OutcomeWasGiven(m: Monitor, steps: seq<Step>, key: StateKey)
    requires Conforms(m, steps) && m.answers == map[] && key.ActivityAttempt?
    ensures var n := Replay(m, steps);
            key in n.db.states && !(key in m.db.states && m.db.states[key] == n.db.states[key]) ==>
              OutcomeGiven(steps, key, n.db.states[key].value)
  {
    if steps != [] {
      hide OutcomeGiven, Legal, Apply;
      var before, step := steps[..|steps| - 1], steps[|steps| - 1];
      assert steps == before + [step];
      var b, n := Replay(m, before), Replay(m, steps);
      OutcomeWasGiven(m, before, key);
      if key in n.db.states {
        if step.PutState? && step.key == key {
          PutMeans(b, key, step.value, step.at);
          PutOutcomeWasGiven(m, before, key, step.value, step.at);
          OutcomeGivenLater(before, step, key, step.value);
        } else {
          OtherRowsStay(b, step, key);
          if OutcomeGiven(before, key, n.db.states[key].value) { OutcomeGivenLater(before, step, key, n.db.states[key].value); }
        }
      }
    }
  }

  lemma PutMeans(m: Monitor, key: StateKey, value: StateValue, at: Time)
    ensures var n := Apply(m, PutState(key, value, at)); key in n.db.states && n.db.states[key].value == value
  {
  }

  /** The key of the attempt that an activity event is about. */
  function AttemptOf(k: EventKey): StateKey
    requires k.ActivityFailed? || k.ActivityCompleted?
  {
    ActivityAttempt(k.account, k.activity, k.date)
  }

  ghost predicate EventGiven(steps: seq<Step>, k: EventKey)
    requires k.ActivityFailed? || k.ActivityCompleted?
  {
    exists answer: Answer :: Gave(steps, AttemptOf(k), answer) && answer.succeeded == k.ActivityCompleted?
  }

  lemma EventGivenLater(steps: seq<Step>, step: Step, k: EventKey)
    requires (k.ActivityFailed? || k.ActivityCompleted?) && EventGiven(steps, k)
    ensures EventGiven(steps + [step], k)
  {
    hide Gave;
    var answer: Answer :| Gave(steps, AttemptOf(k), answer) && answer.succeeded == k.ActivityCompleted?;
    GaveMore(steps, step, AttemptOf(k), answer);
  }

  lemma NewEventIsPut(m: Monitor, step: Step, k: EventKey)
    requires k !in m.db.events && k in Apply(m, step).db.events
    ensures step.PutEvent? && step.event == k
  {
    hide ApplyEnv;
    if step.Env? { NoNewEvents(m.db, step.op); }
  }

  lemma NoNewEvents(db: Db, op: EnvOp)
    ensures forall k :: k in ApplyEnv(db, op).events ==> k in db.events
  {
  }

  lemma NewEventWasGiven(m: Monitor, before: seq<Step>, step: Step, k: EventKey)
    requires (k.ActivityFailed? || k.ActivityCompleted?) && m.answers == map[]
    requires Legal(Replay(m, before), step) && step.PutEvent? && step.event == k
    ensures EventGiven(before, k)
  {
    hide Gave, Replay, PutStateRule, DropStateRule, ActivitiesOf, ActiveWith, Allowed;
    AnswersWereGiven(m, before, AttemptOf(k));
  }

  /** A completion is announced only after an attempt succeeded, and a failure only after one failed. */
  lemma {:induction false} EventWasGiven(m: Monitor, steps: seq<Step>, k: EventKey)
    requires Conforms(m, steps) && m.answers == map[] && (k.ActivityFailed? || k.ActivityCompleted?)
    ensures k in Replay(m, steps).db.events && k !in m.db.events ==> EventGiven(steps, k)
  {
    if steps != [] {
      hide EventGiven, Legal, Apply;
      var before, step := steps[..|steps| - 1], steps[|steps| - 1];
      assert steps == before + [step];
      EventWasGiven(m, before, k);
      if k in Replay(m, steps).db.events && k !in m.db.events {
        if k !in Replay(m, before).db.events {
          NewEventIsPut(Replay(m, before), step, k);
          NewEventWasGiven(m, before, step, k);
        }
        EventGivenLater(before, step, k);
      }
    }
  }
}
