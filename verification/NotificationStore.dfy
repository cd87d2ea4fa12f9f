/**
  The notification tables as the evaluator sees them: before every store call
  the environment may take any number of steps, and every call may fail.  The
  object keeps the run it has taken so far.
*/
module NotificationStore {
  import opened Prelude
  import opened Schema
  import opened NotificationProtocol
  import NotificationRuns

  /** What can have happened when only the environment acted. */
  ghost predicate Rely(m: Monitor, n: Monitor) {
    && n.control == m.control && n.view == m.view && n.clock == m.clock && n.answers == m.answers
    && m.issued <= n.issued && m.issuedChannels <= n.issuedChannels
    && (forall a :: a in m.issued && a in n.db.accounts ==> a in m.db.accounts)
    && (forall c :: c in m.issuedChannels && c in n.db.channels ==> c in m.db.channels)
    && (forall key :: key in n.db.states ==> key in m.db.states && n.db.states[key] == m.db.states[key])
    && (forall key :: key in m.db.states && key.account in n.db.accounts ==> key in n.db.states)
    && (forall k :: k in n.db.events ==> k in m.db.events)
    && n.db.alerts <= m.db.alerts
    && n.db.deliveries <= m.db.deliveries
  }

  /** No account was deleted: the alert, event and state rows are as they were. */
  ghost predicate Quiet(m: Monitor, n: Monitor) {
    && n.db.states == m.db.states && n.db.alerts == m.db.alerts && n.db.events == m.db.events
    && m.db.accounts.Keys <= n.db.accounts.Keys
  }

  lemma EnvIsRelied(m: Monitor, op: EnvOp)
    requires Inv(m) && Legal(m, Env(op))
    ensures Rely(m, Apply(m, Env(op)))
    ensures !op.DeleteAccount? ==> Quiet(m, Apply(m, Env(op)))
  {
  }

  lemma RelyIsReflexive(m: Monitor)
    ensures Rely(m, m) && Quiet(m, m)
  {
  }

  lemma ReadingIsRelied(m: Monitor, step: Step)
    requires step.ListAccounts? || step.ReadWindows? || step.ListChannels? || step.ListActivities? || step.NoChannel?
    ensures Rely(m, Apply(m, step)) && Quiet(m, Apply(m, step))
  {
  }

  lemma RelyIsTransitive(m: Monitor, n: Monitor, o: Monitor)
    requires Inv(m) && Inv(n) && Rely(m, n) && Rely(n, o)
    ensures Rely(m, o)
  {
  }

  lemma IssuedGrows(m: Monitor, n: Monitor)
    requires Rely(m, n)
    ensures m.issued <= n.issued && n.control == m.control && n.view == m.view && n.clock == m.clock && n.answers == m.answers
    ensures n.db.deliveries <= m.db.deliveries
  {
  }

  lemma ListedAccountsAreIssued(m: Monitor)
    requires Inv(m)
    ensures m.db.accounts.Keys <= m.issued
  {
  }

  /** Without a deletion every state row still belongs to a listed account. */
  lemma QuietStatesAreListed(m: Monitor, n: Monitor)
    requires Inv(m) && Quiet(m, n)
    ensures m.db.accounts.Keys <= n.db.accounts.Keys
    ensures forall key :: key in n.db.states ==> key.account in m.db.accounts
  {
  }

  lemma QuietIsTransitive(m: Monitor, n: Monitor, o: Monitor)
    ensures Quiet(m, n) && Quiet(n, o) ==> Quiet(m, o)
  {
  }

  lemma PutStateRuleIsStable(m: Monitor, n: Monitor, key: StateKey, v: StateValue, at: Time)
    requires Rely(m, n) && PutStateRule(m, key, v, at) && key.account in n.db.accounts
    ensures PutStateRule(n, key, v, at)
  {
  }

  lemma DropStateRuleIsStable(m: Monitor, n: Monitor, key: StateKey)
    requires Rely(m, n) && DropStateRule(m, key)
    ensures DropStateRule(n, key)
  {
  }

  lemma PutEventRuleIsStable(m: Monitor, n: Monitor, k: EventKey, withAlert: bool)
    requires Rely(m, n) && PutEventRule(m, k, withAlert) && k.account in n.db.accounts
    ensures PutEventRule(n, k, withAlert)
  {
  }

  /** Store calls that failed during a run. */
  function FailuresOf(steps: seq<Step>): nat {
    if steps == [] then 0 else
      FailuresOf(steps[..|steps| - 1]) + if steps[|steps| - 1].Fault? then 1 else 0
  }

  /** Accounts deleted during a run. */
  function DeletionsOf(steps: seq<Step>): nat {
    if steps == [] then 0 else
      var step := steps[|steps| - 1];
      DeletionsOf(steps[..|steps| - 1]) + if step.Env? && step.op.DeleteAccount? then 1 else 0
  }

  /** Evaluations that started during a run. */
  function Starts(steps: seq<Step>): nat {
    if steps == [] then 0 else
      Starts(steps[..|steps| - 1]) + if steps[|steps| - 1].Observe? then 1 else 0
  }

  /** Steps of a run with which an evaluation did more than read. */
  function Acts(steps: seq<Step>): nat {
    if steps == [] then 0 else
      Acts(steps[..|steps| - 1]) + if IsReading(steps[|steps| - 1]) then 0 else 1
  }

  lemma {:induction false} NothingStarted(steps: seq<Step>, more: seq<Step>)
    requires steps <= more
    ensures Starts(steps) <= Starts(more)
    ensures Starts(more) == Starts(steps) ==> forall q :: |steps| <= q < |more| ==> !more[q].Observe?
  {
    if |more| > |steps| {
      NothingStarted(steps, more[..|more| - 1]);
    } else {
      assert steps == more;
    }
  }

  lemma {:induction false} NothingDone(steps: seq<Step>, more: seq<Step>)
    requires steps <= more
    ensures Acts(steps) <= Acts(more)
    ensures Acts(more) == Acts(steps) ==> forall q :: |steps| <= q < |more| ==> IsReading(more[q])
  {
    if |more| > |steps| {
      NothingDone(steps, more[..|more| - 1]);
    } else {
      assert steps == more;
    }
  }

  lemma {:induction false} RunExtends(m: Monitor, steps: seq<Step>, step: Step)
    requires Conforms(m, steps) && Legal(Replay(m, steps), step)
    ensures Conforms(m, steps + [step]) && Replay(m, steps + [step]) == Apply(Replay(m, steps), step)
  {
    hide Legal, Apply;
    assert (steps + [step])[..|steps|] == steps;
  }

  lemma {:induction false} CountsExtend(steps: seq<Step>, step: Step)
    ensures Receipts(steps + [step]) == Receipts(steps) + if step.PutReceipt? then 1 else 0
    ensures Raised(steps + [step]) == Raised(steps) + if step.PutEvent? && step.created && step.withAlert then 1 else 0
    ensures Misses(steps + [step]) == Misses(steps) + if IsMiss(step) then 1 else 0
    ensures Completions(steps + [step]) == Completions(steps) + if step.Run? && step.succeeded then 1 else 0
    ensures FailuresOf(steps + [step]) == FailuresOf(steps) + if step.Fault? then 1 else 0
    ensures Starts(steps + [step]) == Starts(steps) + if step.Observe? then 1 else 0
    ensures Acts(steps + [step]) == Acts(steps) + if IsReading(step) then 0 else 1
    ensures DeletionsOf(steps + [step]) == DeletionsOf(steps) + if step.Env? && step.op.DeleteAccount? then 1 else 0
  {
    assert (steps + [step])[..|steps|] == steps;
  }

  /** Receipts written during a run. */
  function Receipts(steps: seq<Step>): nat {
    if steps == [] then 0 else
      Receipts(steps[..|steps| - 1]) + if steps[|steps| - 1].PutReceipt? then 1 else 0
  }

  /** Alerts first raised during a run. */
  function Raised(steps: seq<Step>): nat {
    if steps == [] then 0 else
      var step := steps[|steps| - 1];
      Raised(steps[..|steps| - 1]) + if step.PutEvent? && step.created && step.withAlert then 1 else 0
  }

  /** A channel that is gone, a message that was not accepted, or a receipt that could not be stored. */
  predicate IsMiss(step: Step) {
    step.NoChannel? || step.LostReceipt? || (step.Send? && !step.accepted)
  }

  /** Messages that did not come to a receipt during a run, as far as no store call failed. */
  function Misses(steps: seq<Step>): nat {
    if steps == [] then 0 else
      Misses(steps[..|steps| - 1]) + if IsMiss(steps[|steps| - 1]) then 1 else 0
  }

  /** Attempts at activities that succeeded during a run. */
  function Completions(steps: seq<Step>): nat {
    if steps == [] then 0 else
      var step := steps[|steps| - 1];
      Completions(steps[..|steps| - 1]) + if step.Run? && step.succeeded then 1 else 0
  }

  /**
    What a longer run counts beyond a shorter one: receipts, messages that
    failed, alerts first raised and completed activities.  A message may also
    fail because a store call did.
  */
  ghost predicate Counted(s: seq<Step>, t: seq<Step>, delivered: int, failed: int, raised: int, completed: int) {
    && Receipts(t) == Receipts(s) + delivered && Raised(t) == Raised(s) + raised && Completions(t) == Completions(s) + completed
    && FailuresOf(s) <= FailuresOf(t)
    && Misses(t) - Misses(s) <= failed <= Misses(t) - Misses(s) + FailuresOf(t) - FailuresOf(s)
  }

  ghost predicate SameCounts(s: seq<Step>, t: seq<Step>) {
    Counted(s, t, 0, 0, 0, 0)
  }

  lemma SameCountsCompose(s: seq<Step>, t: seq<Step>, u: seq<Step>)
    requires SameCounts(s, t) && SameCounts(t, u)
    ensures SameCounts(s, u)
  {
  }

  lemma NothingCounted(steps: seq<Step>)
    ensures SameCounts(steps, steps)
  {
  }

  lemma CountsCompose(s: seq<Step>, t: seq<Step>, u: seq<Step>, delivered: int, failed: int, raised: int, completed: int)
    requires SameCounts(s, t) && Counted(t, u, delivered, failed, raised, completed)
    ensures Counted(s, u, delivered, failed, raised, completed)
  {
  }

  lemma StepCounts(steps: seq<Step>, step: Step)
    ensures Counted(steps, steps + [step], if step.PutReceipt? then 1 else 0, if IsMiss(step) then 1 else 0,
                    if step.PutEvent? && step.created && step.withAlert then 1 else 0, if step.Run? && step.succeeded then 1 else 0)
  {
    hide Receipts, Raised, Misses, Completions, FailuresOf;
    CountsExtend(steps, step);
  }

  /** The elements of a set in some order, each once. */
  method Listing<T(==)>(elements: set<T>) returns (list: seq<T>)
    ensures forall x :: x in list <==> x in elements
    ensures forall i, j :: 0 <= i < j < |list| ==> list[i] != list[j]
  {
    list := [];
    var remaining := elements;
    while remaining != {}
      invariant remaining <= elements
      invariant forall x :: x in list <==> x in elements - remaining
      invariant forall i, j :: 0 <= i < j < |list| ==> list[i] != list[j]
      decreases remaining
    {
      var x :| x in remaining;
      assert forall y :: y in list + [x] <==> y in list || y == x;
      list := list + [x];
      remaining := remaining - {x};
    }
  }

  class NotificationStore {
    /** Which store calls are refused, what others do before each call, and how attempts at activities end: chosen beforehand, in any way. */
    const refused: nat -> bool
    const provider: (StateKey, Time) -> bool
    const environment: nat -> seq<EnvOp>
    var db: Db
    var issued: set<AccountId>
    var issuedChannels: set<ChannelId>
    var calls: nat
    var turns: nat
    ghost const origin: Monitor
    ghost var m: Monitor
    ghost var steps: seq<Step>
    /** Store calls that failed, and those plus the accounts deleted by the environment. */
    ghost var failures: nat
    ghost var faults: nat

    /** A refusal or a step of others is one that was chosen beforehand. */
    ghost predicate Scheduled(step: Step) {
      match step
      case Env(op) => exists n :: op in environment(n)
      case Fault(Refused(n)) => refused(n)
      case Run(key, at, succeeded) => succeeded == provider(key, at)
      case _ => true
    }

    ghost predicate Tracked()
      reads this
    {
      && Inv(origin) && Conforms(origin, steps) && m == Replay(origin, steps) && Inv(m)
      && (forall step <- steps :: Scheduled(step))
      && failures == FailuresOf(steps) && faults == FailuresOf(steps) + DeletionsOf(steps)
    }

    ghost predicate Valid()
      reads this
    {
      Tracked() && m.db == db && m.issued == issued && m.issuedChannels == issuedChannels
    }

    /** The run only got longer, and no evaluation started. */
    twostate predicate Extends()
      reads this
    {
      && old(steps) <= steps && old(faults) <= faults && old(failures) <= failures
      && Starts(steps) == Starts(old(steps))
    }

    /** All that was added to the run was reading, and steps of others. */
    twostate predicate OnlyReads()
      reads this
    {
      && Extends()
      && Acts(steps) == Acts(old(steps))
      && SameCounts(old(steps), steps)
      && Rely(old(m), m)
      && (faults == old(faults) ==> Quiet(old(m), m))
    }

    /** Nothing but the environment acted, or a call failed. */
    twostate predicate OnlyEnv()
      reads this
    {
      OnlyReads() && m.listed == old(m).listed && m.reading == old(m).reading
    }

    lemma ValidMeans()
      requires Valid()
      ensures Inv(m) && m.db == db && m.issued == issued && m.issuedChannels == issuedChannels
      ensures Inv(origin) && Conforms(origin, steps) && m == Replay(origin, steps)
    {
    }

    /** Any store with intact references and no orphan; `last` is when it was evaluated before. */
    constructor (initial: Db, ghost last: Time, refused: nat -> bool, environment: nat -> seq<EnvOp>, provider: (StateKey, Time) -> bool)
      requires Intact(initial) && Owned(initial) && NoOrphan(initial)
      requires forall key :: key in initial.states ==> Fits(key, initial.states[key].value)
      ensures Valid() && steps == [] && m == origin && db == initial && m.control.Idle? && m.clock == last
      ensures m.answers == map[]
      ensures this.refused == refused && this.environment == environment && this.provider == provider
    {
      this.refused, this.environment, this.provider := refused, environment, provider;
      db, issued, issuedChannels := initial, initial.accounts.Keys, initial.channels.Keys;
      calls, turns := 0, 0;
      origin := Monitor(initial, initial.accounts.Keys, initial.channels.Keys, Idle, {}, map[], map[], last, map[]);
      m := Monitor(initial, initial.accounts.Keys, initial.channels.Keys, Idle, {}, map[], map[], last, map[]);
      steps, failures, faults := [], 0, 0;
    }

    ghost method Record(step: Step)
      requires Tracked() && Legal(m, step) && Scheduled(step)
      requires db == Apply(m, step).db && issued == Apply(m, step).issued && issuedChannels == Apply(m, step).issuedChannels
      modifies this`m, this`steps, this`failures, this`faults
      ensures Valid() && m == Apply(old(m), step) && steps == old(steps) + [step]
      ensures failures == old(failures) + if step.Fault? then 1 else 0
      ensures Starts(steps) == Starts(old(steps)) + if step.Observe? then 1 else 0
      ensures Acts(steps) == Acts(old(steps)) + if IsReading(step) then 0 else 1
      ensures faults == old(faults) + if step.Fault? || (step.Env? && step.op.DeleteAccount?) then 1 else 0
      ensures Receipts(steps) == Receipts(old(steps)) + if step.PutReceipt? then 1 else 0
      ensures Raised(steps) == Raised(old(steps)) + if step.PutEvent? && step.created && step.withAlert then 1 else 0
      ensures Misses(steps) == Misses(old(steps)) + if IsMiss(step) then 1 else 0
      ensures Completions(steps) == Completions(old(steps)) + if step.Run? && step.succeeded then 1 else 0
      ensures FailuresOf(steps) == FailuresOf(old(steps)) + if step.Fault? then 1 else 0
    {
      hide Inv, Legal, Apply, Conforms, Replay, Receipts, Raised, Misses, Completions, FailuresOf, DeletionsOf, Starts, Acts;
      StepKeepsInv(m, step);
      CountsExtend(steps, step);
      RunExtends(origin, steps, step);
      assert forall x :: x in steps + [step] <==> x in steps || x == step;
      m, steps := Apply(m, step), steps + [step];
      failures, faults := FailuresOf(steps), FailuresOf(steps) + DeletionsOf(steps);
    }

    /** Other requests run: accounts are deleted, added and refreshed, channels come and go, usage is written. */
    method Interfere()
      requires Valid()
      modifies this
      ensures Valid() && OnlyEnv() && failures == old(failures)
    {
      hide SameCounts, Inv, Rely, Quiet, Conforms, Replay, Receipts, Raised, Misses, Completions, FailuresOf, DeletionsOf, Starts, Acts;
      RelyIsReflexive(m);
      NothingCounted(steps);
      var ops := environment(turns);
      ghost var turn := turns;
      turns := turns + 1;
      ValidMeans();
      for i := 0 to |ops|
        invariant Valid() && OnlyEnv() && Inv(old(m)) && failures == old(failures)
      {
        ghost var before, was := m, steps;
        ValidMeans();
        Act(ops[i], turn);
        RelyAndQuiet(old(m), before, m);
        SameCountsCompose(old(steps), was, steps);
      }
    }

    /** One operation of the environment, if it is possible now. */
    method Act(op: EnvOp, ghost turn: nat)
      requires Valid() && op in environment(turn)
      modifies this
      ensures Valid() && OnlyEnv() && failures == old(failures)
    {
      hide Inv, Rely, Quiet, Conforms, Replay, Receipts, Raised, Misses, Completions, FailuresOf, DeletionsOf, Starts, Acts;
      RelyIsReflexive(m);
      if Allowed(db, issued, issuedChannels, op) && (op.WriteUsage? ==> UsageIntact(db.accounts.Keys, op.usage)) {
        ghost var before := m;
        db := ApplyEnv(db, op);
        issued := if op.SaveAccount? then issued + {op.account} else issued;
        issuedChannels := if op.SaveChannel? then issuedChannels + {op.channel} else issuedChannels;
        assert Scheduled(Env(op));
        Record(Env(op));
        EnvIsRelied(before, op);
      }
    }

    /** A store call that may be refused; otherwise it sees the tables the environment left. */
    method Begin() returns (ok: bool)
      requires Valid()
      modifies this
      ensures Valid() && OnlyEnv()
      ensures if ok then failures == old(failures) else faults > old(faults)
      ensures !ok ==> Counted(old(steps), steps, 0, 1, 0, 0)
    {
      hide Inv, Rely, Quiet, Conforms, Replay, Receipts, Raised, Misses, Completions, FailuresOf, DeletionsOf, Starts, Acts;
      Interfere();
      ok := !refused(calls);
      if !ok { Record(Fault(Refused(calls))); }
      calls := calls + 1;
    }

    method NotificationState(key: StateKey) returns (ok: bool, found: bool, value: StateValue)
      requires Valid()
      modifies this
      ensures Valid() && OnlyEnv()
      ensures if ok then failures == old(failures) else faults > old(faults)
      ensures ok ==> (found <==> key in m.db.states)
      ensures ok && found ==> value == m.db.states[key].value
    {
      ok := Begin();
      found := key in db.states;
      value := if found then db.states[key].value else Clear;
    }

    method NotificationStates(account: AccountId) returns (ok: bool, rows: map<StateKey, StateValue>)
      requires Valid()
      modifies this
      ensures Valid() && OnlyEnv()
      ensures if ok then failures == old(failures) else faults > old(faults)
      ensures ok ==> forall key :: key in rows <==> key in m.db.states && key.account == account
      ensures ok ==> forall key :: key in rows ==> rows[key] == m.db.states[key].value
    {
      ok := Begin();
      rows := map key | key in db.states && db.states[key].account == account :: db.states[key].value;
    }

    /** An upsert; it fails on its foreign key when the account is gone. */
    method SaveNotificationState(key: StateKey, value: StateValue, at: Time) returns (ok: bool, ghost mid: Monitor)
      requires Valid() && PutStateRule(m, key, value, at) && key.account in m.issued
      modifies this
      ensures Valid() && Extends() && Rely(old(m), mid)
      ensures faults == old(faults) ==> ok && Quiet(old(m), mid)
      ensures ok ==> failures == old(failures)
      ensures m == if ok then Apply(mid, PutState(key, value, at)) else mid
      ensures SameCounts(old(steps), steps)
    {
      hide Inv, Rely, Quiet, Conforms, Replay, Receipts, Raised, Misses, Completions, FailuresOf, DeletionsOf, Starts, Acts, PutStateRule, DropStateRule, PutEventRule;
      ok := Begin();
      IssuedGrows(old(m), m);
      mid := m;
      if ok && key.account in db.accounts {
        PutStateRuleIsStable(old(m), m, key, value, at);
        db := db.(states := db.states[key := StateRow(key.account, value)]);
        Record(PutState(key, value, at));
      } else if ok {
        ok := false;
        Record(Fault(ForeignKey(key.account)));
      }
    }

    method DeleteNotificationState(key: StateKey) returns (ok: bool, ghost mid: Monitor)
      requires Valid() && DropStateRule(m, key)
      modifies this
      ensures Valid() && Extends() && Rely(old(m), mid)
      ensures faults == old(faults) ==> ok && Quiet(old(m), mid)
      ensures ok ==> failures == old(failures)
      ensures m == if ok then Apply(mid, DropState(key)) else mid
      ensures SameCounts(old(steps), steps)
    {
      hide Inv, Rely, Quiet, Conforms, Replay, Receipts, Raised, Misses, Completions, FailuresOf, DeletionsOf, Starts, Acts, PutStateRule, DropStateRule, PutEventRule;
      ok := Begin();
      mid := m;
      if ok {
        DropStateRuleIsStable(old(m), m, key);
        db := db.(states := db.states - {key});
        Record(DropState(key));
      }
    }

    method DeleteAlert(k: EventKey) returns (ok: bool, ghost mid: Monitor)
      requires Valid()
      modifies this
      ensures Valid() && Extends() && Rely(old(m), mid)
      ensures faults == old(faults) ==> ok && Quiet(old(m), mid)
      ensures ok ==> failures == old(failures)
      ensures m == if ok then Apply(mid, DropAlert(k)) else mid
      ensures SameCounts(old(steps), steps)
    {
      hide Inv, Rely, Quiet, Conforms, Replay, Receipts, Raised, Misses, Completions, FailuresOf, DeletionsOf, Starts, Acts, PutStateRule, DropStateRule, PutEventRule;
      ok := Begin();
      mid := m;
      if ok {
        db := db.(alerts := db.alerts - {k});
        Record(DropAlert(k));
      }
    }

    /** One transaction; INSERT OR IGNORE keeps an existing event, a missing account rolls everything back. */
    method SaveNotificationEventAndAlert(k: EventKey, withAlert: bool)
      returns (ok: bool, created: bool, ghost mid: Monitor)
      requires Valid() && PutEventRule(m, k, withAlert) && k.account in m.issued
      modifies this
      ensures Valid() && Extends() && Rely(old(m), mid)
      ensures faults == old(faults) ==> ok && Quiet(old(m), mid)
      ensures ok ==> failures == old(failures)
      ensures ok ==> (created <==> k !in mid.db.events)
      ensures m == if ok then Apply(mid, PutEvent(k, withAlert, created)) else mid
      ensures Counted(old(steps), steps, 0, 0, if ok && created && withAlert then 1 else 0, 0)
    {
      hide Inv, Rely, Quiet, Conforms, Replay, Receipts, Raised, Misses, Completions, FailuresOf, DeletionsOf, Starts, Acts, PutStateRule, DropStateRule, PutEventRule, Counted;
      ok := Begin();
      IssuedGrows(old(m), m);
      mid := m;
      ghost var began := steps;
      created := k !in db.events;
      if ok && k.account in db.accounts {
        PutEventRuleIsStable(old(m), m, k, withAlert);
        var tx := db;
        if created {
          tx := tx.(events := tx.events[k := k.account]);
        }
        if withAlert {
          tx := tx.(alerts := tx.alerts + {k});
        }
        assert !created ==> db.events[k := db.events[k]] == db.events;
        db := tx;
        Record(PutEvent(k, withAlert, created));
        StepCounts(began, PutEvent(k, withAlert, created));
        CountsCompose(old(steps), began, steps, 0, 0, if created && withAlert then 1 else 0, 0);
      } else if ok {
        ok := false;
        Record(Fault(ForeignKey(k.account)));
        StepCounts(began, Fault(ForeignKey(k.account)));
        CountsCompose(old(steps), began, steps, 0, 0, 0, 0);
      }
    }

    method NotificationDelivered(r: Receipt) returns (ok: bool, delivered: bool)
      requires Valid()
      modifies this
      ensures Valid() && OnlyEnv()
      ensures if ok then failures == old(failures) else faults > old(faults)
      ensures !ok ==> Counted(old(steps), steps, 0, 1, 0, 0)
      ensures ok ==> (delivered <==> r in m.db.deliveries)
    {
      ok := Begin();
      delivered := r in db.deliveries;
    }

    /** Reading one channel fails with no rows when it has been deleted. */
    method NotificationChannel(c: ChannelId) returns (ok: bool)
      requires Valid()
      modifies this
      ensures Valid() && Extends() && Rely(old(m), m) && (faults == old(faults) ==> Quiet(old(m), m))
      ensures ok ==> c in m.db.channels
      ensures if ok then failures == old(failures) else faults > old(faults) || c !in m.db.channels
      ensures Counted(old(steps), steps, 0, if ok then 0 else 1, 0, 0)
    {
      hide Inv, Rely, Quiet, Conforms, Replay, Receipts, Raised, Misses, Completions, FailuresOf, DeletionsOf, Starts, Acts;
      ok := Begin();
      if ok && c !in db.channels {
        ok := false;
        Record(NoChannel(c));
      }
    }

    /** The message leaves the program; the environment goes on meanwhile. */
    method SendChannel(r: Receipt) returns (accepted: bool, ghost mid: Monitor)
      requires Valid() && m.control.Idle? && r !in m.db.deliveries
      modifies this
      ensures Valid() && Extends() && Rely(old(m), mid)
      ensures (faults == old(faults) ==> Quiet(old(m), mid)) && failures == old(failures)
      ensures m == Apply(mid, Send(r, accepted))
      ensures |steps| > |old(steps)| && steps[|steps| - 1] == Send(r, accepted)
      ensures Counted(old(steps), steps, 0, if accepted then 0 else 1, 0, 0)
    {
      hide Inv, Rely, Quiet, Conforms, Replay, Receipts, Raised, Misses, Completions, FailuresOf, DeletionsOf, Starts, Acts;
      Interfere();
      IssuedGrows(old(m), m);
      mid := m;
      accepted := *;
      Record(Send(r, accepted));
    }

    /** Fails on a foreign key when the event or the channel is gone. */
    method RecordNotificationDelivery(r: Receipt) returns (ok: bool, ghost mid: Monitor)
      requires Valid() && m.control == InFlight(r)
      modifies this
      ensures Valid() && Extends() && Rely(old(m), mid)
      ensures (faults == old(faults) ==> Quiet(old(m), mid)) && (ok ==> failures == old(failures))
      ensures m == Apply(mid, if ok then PutReceipt(r) else LostReceipt(r))
      ensures Counted(old(steps), steps, if ok then 1 else 0, if ok then 0 else 1, 0, 0)
    {
      hide Inv, Rely, Quiet, Conforms, Replay, Receipts, Raised, Misses, Completions, FailuresOf, DeletionsOf, Starts, Acts, PutStateRule, DropStateRule, PutEventRule;
      ok := Begin();
      IssuedGrows(old(m), m);
      mid := m;
      ok := ok && r.key in db.events && r.channel in db.channels;
      if ok {
        db := db.(deliveries := db.deliveries + {r});
        Record(PutReceipt(r));
      } else {
        Record(LostReceipt(r));
      }
    }

    /** The activity runs against the provider, whose answer is recorded; its account may be refreshed meanwhile. */
    method RunActivity(key: StateKey, at: Time) returns (succeeded: bool)
      requires Valid() && m.control == Armed(key, at)
      modifies this
      ensures succeeded == provider(key, at)
      ensures Valid() && Extends() && Rely(Apply(old(m), Run(key, at, succeeded)), m)
      ensures (faults == old(faults) ==> Quiet(old(m), m)) && failures == old(failures)
      ensures |steps| > |old(steps)| && steps[|old(steps)|] == Run(key, at, succeeded)
      ensures Counted(old(steps), steps, 0, 0, 0, if succeeded then 1 else 0)
    {
      hide Inv, Rely, Receipts, Raised, Misses, Completions, FailuresOf;
      succeeded := provider(key, at);
      Record(Run(key, at, succeeded));
      Interfere();
    }

    /** The enabled channels, each once. */
    method NotificationChannels() returns (ok: bool, enabled: seq<ChannelId>)
      requires Valid()
      modifies this
      ensures Valid() && OnlyEnv()
      ensures if ok then failures == old(failures) else faults > old(faults)
      ensures ok ==> |steps| > |old(steps)| && NotificationRuns.ChannelsListedAt(origin, steps, |steps| - 1, Elements(enabled))
      ensures forall c <- enabled :: c in m.issuedChannels
    {
      hide Rely, Quiet, Conforms, Replay, Receipts, Raised, Misses, Completions, FailuresOf, DeletionsOf, Starts, Acts;
      ok := Begin();
      enabled := Listing(EnabledChannels(db));
      assert Elements(enabled) == EnabledChannels(db);
      if ok {
        ghost var was := steps;
        Look(ListChannels(EnabledChannels(db)));
        assert steps[..|was|] == was;
      }
    }

    /** One activity per account that has them, available or not; the provider may answer for some only. */
    method ListActivities() returns (ok: bool, complete: bool, activities: seq<Activity>)
      requires Valid()
      modifies this
      ensures Valid() && OnlyEnv()
      ensures if ok then failures == old(failures) else faults > old(faults) && activities == []
      ensures ok ==> |steps| > |old(steps)| && NotificationRuns.ActivitiesListedAt(origin, steps, |steps| - 1, activities)
      ensures forall x <- activities :: x.account in m.issued
      ensures forall i, j :: 0 <= i < j < |activities| ==> activities[i].account != activities[j].account
    {
      hide Rely, Quiet, Conforms, Replay, Receipts, Raised, Misses, Completions, FailuresOf, DeletionsOf, Starts, Acts;
      ok := Begin();
      complete, activities := *, [];
      if !ok { return; }
      activities := ActivityList();
      ListedAccountsAreIssued(m);
      ghost var was := steps;
      Look(Step.ListActivities(activities));
      assert steps[..|was|] == was;
    }

    method ActivityList() returns (activities: seq<Activity>)
      ensures ActivitiesOf(db, activities)
    {
      var ids := Listing(set a | a in db.accounts && db.accounts[a] == ACTIVITY_PROVIDER);
      activities := [];
      for i := 0 to |ids|
        invariant |activities| == i && forall j | 0 <= j < i :: activities[j].account == ids[j] && activities[j].id == ACTIVITY_ID
      {
        var available: bool := *;
        activities := activities + [Activity(ids[i], ACTIVITY_ID, available)];
      }
      forall a | a in db.accounts && db.accounts[a] == ACTIVITY_PROVIDER ensures exists x <- activities :: x.account == a {
        assert a in ids;
        var j :| 0 <= j < |ids| && ids[j] == a;
        assert activities[j] in activities;
      }
      forall x <- activities ensures x.account in db.accounts && db.accounts[x.account] == ACTIVITY_PROVIDER && x.id == ACTIVITY_ID {
        var j :| 0 <= j < |activities| && activities[j] == x;
        assert ids[j] in ids;
      }
    }

    /** Records what a query returned. */
    ghost method Look(step: Step)
      requires Valid() && Legal(m, step)
      requires step.ListAccounts? || step.ReadWindows? || step.ListChannels? || step.ListActivities?
      modifies this`m, this`steps, this`failures, this`faults
      ensures Valid() && OnlyReads() && faults == old(faults) && failures == old(failures)
      ensures m == Apply(old(m), step) && steps == old(steps) + [step]
    {
      hide Inv, Rely, Quiet, Conforms, Replay, Receipts, Raised, Misses, Completions, FailuresOf, DeletionsOf, Starts, Acts;
      ReadingIsRelied(m, step);
      Record(step);
    }

    /** The identifiers of all accounts. */
    method ReadList() returns (ok: bool, ids: seq<AccountId>)
      requires Valid()
      modifies this
      ensures Valid() && OnlyReads()
      ensures if ok then failures == old(failures) else faults > old(faults)
      ensures forall i, j :: 0 <= i < j < |ids| ==> ids[i] != ids[j]
      ensures ok ==> |steps| > |old(steps)| && NotificationRuns.ListedAt(origin, steps, |steps| - 1, m.listed)
      ensures ok ==> m.reading == map[] && m.listed == m.db.accounts.Keys && forall a :: a in ids <==> a in m.listed
    {
      hide Valid, Tracked, SameCounts, Counted, Inv, Rely, Quiet, Conforms, Replay, Receipts, Raised, Misses, Completions, FailuresOf, DeletionsOf, Starts, Acts;
      ValidMeans();
      ok := Begin();
      ids := [];
      if !ok { return; }
      ValidMeans();
      ids := Listing(db.accounts.Keys);
      ghost var before, was := m, steps;
      RelyIsReflexive(m);
      ReadingIsRelied(m, ListAccounts(db.accounts.Keys));
      ValidMeans();
      Look(ListAccounts(db.accounts.Keys));
      ValidMeans();
      RelyAndQuiet(old(m), before, m);
      SameCountsCompose(old(steps), was, steps);
      assert steps[..|was|] == was;
    }

    /** The quota windows of one listed account, as the table holds them at that moment. */
    method QuotaWindows(a: AccountId) returns (ok: bool, windows: seq<Signal>)
      requires Valid() && a in m.listed
      modifies this
      ensures Valid() && OnlyReads() && m.listed == old(m).listed
      ensures if ok then failures == old(failures) else faults > old(faults)
      ensures ok ==> m.reading == old(m).reading[a := windows]
      ensures ok ==> |steps| > |old(steps)| && NotificationRuns.WindowsReadAt(origin, steps, |steps| - 1, a, windows)
    {
      hide Valid, Tracked, SameCounts, Counted, Inv, Rely, Quiet, Conforms, Replay, Receipts, Raised, Misses, Completions, FailuresOf, DeletionsOf, Starts, Acts;
      ValidMeans();
      ok := Begin();
      windows := [];
      if !ok { return; }
      ValidMeans();
      windows := WindowsOf(db, a);
      ghost var before, was := m, steps;
      ValidMeans();
      Look(ReadWindows(a, windows));
      ValidMeans();
      RelyAndQuiet(old(m), before, m);
      SameCountsCompose(old(steps), was, steps);
      assert steps[..|was|] == was;
    }

    /** The list of account identifiers, then the quota windows of one account after another. */
    method ConnectedAccounts() returns (ok: bool, ids: seq<AccountId>, view: map<AccountId, seq<Signal>>)
      requires Valid()
      modifies this
      ensures Valid() && OnlyReads()
      ensures if ok then failures == old(failures) else faults > old(faults)
      ensures forall i, j :: 0 <= i < j < |ids| ==> ids[i] != ids[j]
      ensures ok ==> (forall a :: a in ids <==> a in view) && m.reading == view && m.listed == view.Keys
      ensures ok ==> NotificationRuns.ReadFrom(origin, steps, |old(steps)|, view)
      ensures ok && faults == old(faults) ==> view.Keys <= m.db.accounts.Keys && forall key :: key in m.db.states ==> key.account in view
    {
      hide Valid, Tracked, SameCounts, Counted, Inv, Rely, Quiet, Conforms, Replay, Receipts, Raised, Misses, Completions, FailuresOf, DeletionsOf, Starts, Acts, NotificationRuns.ListedAt,
        NotificationRuns.AllRead;
      ValidMeans();
      ok, ids := ReadList();
      view := map[];
      if !ok { return; }
      ghost var l, listed, was := |steps| - 1, m, steps;
      ValidMeans();
      ok, view := WindowsOfAll(ids, l);
      ValidMeans();
      RelyAndQuiet(old(m), listed, m);
      SameCountsCompose(old(steps), was, steps);
      assert ok ==> view.Keys == m.listed;
      if ok && faults == old(faults) { QuietStatesAreListed(listed, m); }
    }

    /** The windows of all listed accounts, one after another. */
    method WindowsOfAll(ids: seq<AccountId>, ghost l: nat) returns (ok: bool, view: map<AccountId, seq<Signal>>)
      requires Valid() && m.reading == map[] && forall a :: a in ids <==> a in m.listed
      requires l < |steps| && NotificationRuns.ListedAt(origin, steps, l, m.listed)
      modifies this
      ensures Valid() && OnlyReads() && m.listed == old(m).listed
      ensures if ok then failures == old(failures) else faults > old(faults)
      ensures ok ==> (forall a :: a in ids <==> a in view) && m.reading == view
      ensures ok ==> NotificationRuns.ListedAt(origin, steps, l, m.listed) && NotificationRuns.AllRead(origin, steps, l, view)
    {
      hide Valid, Tracked, SameCounts, Counted, Inv, Rely, Quiet, Conforms, Replay, Receipts, Raised, Misses, Completions, FailuresOf, DeletionsOf, Starts, Acts, NotificationRuns.ListedAt,
        NotificationRuns.WindowsReadAt, NotificationRuns.AllRead;
      ok, view := true, map[];
      ValidMeans();
      RelyIsReflexive(m);
      NothingCounted(steps);
      NotificationRuns.NothingToRead(origin, steps, l);
      for i := 0 to |ids|
        invariant Valid() && OnlyReads() && Inv(m) && failures == old(failures)
        invariant m.listed == old(m).listed && m.reading == view
        invariant forall a :: a in view <==> a in ids[..i]
        invariant l < |steps| && NotificationRuns.ListedAt(origin, steps, l, m.listed) && NotificationRuns.AllRead(origin, steps, l, view)
      {
        ghost var before, was := m, steps;
        var windows;
        ok, windows := QuotaWindows(ids[i]);
        ValidMeans();
        RelyAndQuiet(old(m), before, m);
        SameCountsCompose(old(steps), was, steps);
        if !ok { return; }
        NotificationRuns.ReadsExtend(origin, was, steps);
        NotificationRuns.AllReadGrows(origin, was, steps, l, view, ids[i], view[ids[i] := windows]);
        view := view[ids[i] := windows];
      }
      assert ids[..|ids|] == ids;
    }

    /** The evaluation takes the time and starts on what was read. */
    method Start(view: map<AccountId, seq<Signal>>, now: Time)
      requires Valid() && m.control.Idle? && view == m.reading && view.Keys == m.listed
      modifies this
      ensures Valid() && m == Apply(old(m), Observe(view, now)) && steps == old(steps) + [Observe(view, now)]
      ensures faults == old(faults) && failures == old(failures)
      ensures SameCounts(old(steps), steps)
    {
      hide Inv, Conforms, Replay, Receipts, Raised, Misses, Completions, FailuresOf, DeletionsOf, Starts, Acts;
      Record(Observe(view, now));
    }
  }

  lemma RelyAndQuiet(m: Monitor, n: Monitor, o: Monitor)
    requires Inv(m) && Inv(n) && Rely(m, n) && Rely(n, o)
    ensures Rely(m, o) && (Quiet(m, n) && Quiet(n, o) ==> Quiet(m, o))
  {
    RelyIsTransitive(m, n, o);
    QuietIsTransitive(m, n, o);
  }
}
