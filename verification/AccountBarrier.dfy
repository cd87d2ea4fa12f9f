/**
  The reader/writer barrier between operations that read an account and save
  it again later, and deletion.  Every lock operation and every store call is
  a step of its own; steps of different operations interleave freely.
*/
module AccountBarrier {
  import opened Prelude
  import opened Schema
  import opened AccountStore

  const ACTIVITY_PROVIDER := "workbuddy-cn"

  datatype Op =
    | RefreshOne(id: AccountId)
    | RunActivity(id: AccountId)
    | ListActivities
    | ImportCodexUsage(id: AccountId)
    | Delete(id: AccountId)

  datatype Outcome = Succeeded | Missing | Failed

  /** `listed` is the list an operation iterates over, `seen` what it has read, `missed` what was not there. */
  datatype Phase =
    | Waiting
    | Inside(listed: set<AccountId>, seen: set<AccountId>, missed: set<AccountId>)
    | Leaving(outcome: Outcome)
    | Finished(outcome: Outcome)

  datatype Process = Process(op: Op, phase: Phase)

  /** `used` are all identifiers ever handed out, `deleted` those whose deletion succeeded. */
  datatype System = System(db: Db, processes: map<nat, Process>, readers: set<nat>, writer: Option<nat>,
                           used: set<AccountId>, deleted: set<AccountId>)

  datatype Step =
    | Begin(p: nat, op: Op)
    | EnterShared(p: nat)
    | EnterExclusive(p: nat)
    | List(p: nat)
    | Read(p: nat, id: AccountId)
    | Save(p: nat, id: AccountId, provider: string, credential: string, windows: seq<Signal>)
    | WriteUsage(p: nat, id: AccountId, usage: UsageTables)
    | Remove(p: nat)
    | Leave(p: nat, ok: bool)
    | Connect(id: AccountId, provider: string, credential: string, windows: seq<Signal>)
    | Elsewhere(db: Db)

  predicate IsInside(sys: System, p: nat) {
    p in sys.processes && sys.processes[p].phase.Inside?
  }

  predicate HoldsLock(sys: System, p: nat) {
    p in sys.processes && (sys.processes[p].phase.Inside? || sys.processes[p].phase.Leaving?)
  }

  /** The accounts an operation works on. */
  predicate Targets(op: Op, listed: set<AccountId>, id: AccountId) {
    match op
    case RefreshOne(a) => id == a
    case RunActivity(a) => id == a
    case ListActivities => id in listed
    case ImportCodexUsage(_) => false
    case Delete(_) => false
  }

  /** Usage rows may change for one account only and must keep their references. */
  ghost predicate UsageChange(sys: System, id: AccountId, usage: UsageTables) {
    SameUsageForOthers(sys.db.usage, usage, id) && UsageIntact(sys.db.accounts.Keys, usage)
  }

  ghost predicate Allowed(sys: System, s: Step) {
    match s
    case Begin(p, _) => p !in sys.processes
    case EnterShared(p) => p in sys.processes && sys.processes[p].phase.Waiting? && !sys.processes[p].op.Delete? && sys.writer.None?
    case EnterExclusive(p) =>
      p in sys.processes && sys.processes[p].phase.Waiting? && sys.processes[p].op.Delete? && sys.writer.None? && sys.readers == {}
    case List(p) => IsInside(sys, p) && sys.processes[p].op.ListActivities? && sys.processes[p].phase.listed == {}
    case Read(p, id) => IsInside(sys, p) && Targets(sys.processes[p].op, sys.processes[p].phase.listed, id)
    case Save(p, id, _, _, _) => IsInside(sys, p) && id in sys.processes[p].phase.seen
    case WriteUsage(p, id, usage) =>
      && IsInside(sys, p)
      && (sys.processes[p].op == RefreshOne(id) || sys.processes[p].op == ImportCodexUsage(id))
      && (id in sys.db.accounts ==> UsageChange(sys, id, usage))
    case Remove(p) => IsInside(sys, p) && sys.processes[p].op.Delete?
    case Leave(p, _) => HoldsLock(sys, p)
    case Connect(id, _, _, _) => id !in sys.used
    case Elsewhere(db) => db.accounts == sys.db.accounts && Intact(db) && Owned(db)
  }

  function Continue(sys: System, p: nat, phase: Phase): System
    requires p in sys.processes
  {
    sys.(processes := sys.processes[p := sys.processes[p].(phase := phase)])
  }

  /** The store calls check what the code checks; saving is an upsert and checks nothing. */
  function Next(sys: System, s: Step): System
    requires Allowed(sys, s)
  {
    match s
    case Begin(p, op) => sys.(processes := sys.processes[p := Process(op, Waiting)])
    case EnterShared(p) => Continue(sys, p, Inside({}, {}, {})).(readers := sys.readers + {p})
    case EnterExclusive(p) => Continue(sys, p, Inside({}, {}, {})).(writer := Some(p))
    case List(p) =>
      Continue(sys, p, sys.processes[p].phase.(listed := set a | a in sys.db.accounts && sys.db.accounts[a] == ACTIVITY_PROVIDER))
    case Read(p, id) =>
      var phase := sys.processes[p].phase;
      if id in sys.db.accounts then Continue(sys, p, phase.(seen := phase.seen + {id}))
      else if sys.processes[p].op.ListActivities? then Continue(sys, p, phase.(missed := phase.missed + {id}))
      else Continue(sys, p, Leaving(Missing))
    case Save(_, id, provider, credential, windows) => sys.(db := WithAccount(sys.db, id, provider, credential, windows))
    case WriteUsage(p, id, usage) =>
      if id in sys.db.accounts then sys.(db := sys.db.(usage := usage)) else Continue(sys, p, Leaving(Missing))
    case Remove(p) =>
      var id := sys.processes[p].op.id;
      if id in sys.db.accounts then
        Continue(sys, p, Leaving(Succeeded)).(db := WithoutAccount(sys.db, id), deleted := sys.deleted + {id})
      else Continue(sys, p, Leaving(Missing))
    case Leave(p, ok) =>
      var phase := sys.processes[p].phase;
      Continue(sys, p, Finished(if phase.Leaving? then phase.outcome else if ok then Succeeded else Outcome.Failed))
        .(readers := sys.readers - {p}, writer := if sys.writer == Some(p) then None else sys.writer)
    case Connect(id, provider, credential, windows) =>
      sys.(db := WithAccount(sys.db, id, provider, credential, windows), used := sys.used + {id})
    case Elsewhere(db) => sys.(db := db)
  }

  /** No reader runs beside a writer, and whoever is inside holds the lock. */
  ghost predicate Locked(sys: System) {
    && (sys.writer.Some? ==> sys.readers == {})
    && (forall p :: HoldsLock(sys, p) <==> p in sys.readers || sys.writer == Some(p))
    && (forall p :: HoldsLock(sys, p) && sys.processes[p].op.Delete? ==> sys.writer == Some(p))
    && (forall p :: p in sys.readers ==> p in sys.processes && !sys.processes[p].op.Delete?)
  }

  /** What an operation has read is still there. */
  ghost predicate Fresh(sys: System) {
    forall p :: IsInside(sys, p) ==>
      && sys.processes[p].phase.listed <= sys.db.accounts.Keys
      && sys.processes[p].phase.seen <= sys.db.accounts.Keys
      && sys.processes[p].phase.missed == {}
  }

  /** Deleted accounts have no row in any table. */
  ghost predicate Gone(sys: System) {
    forall id <- sys.deleted :: Absent(sys.db, id)
  }

  ghost predicate Inv(sys: System) {
    && Intact(sys.db) && Owned(sys.db)
    && sys.db.accounts.Keys <= sys.used && sys.deleted <= sys.used
    && Locked(sys) && Fresh(sys) && Gone(sys)
  }

  // ----- one step -----

  lemma LockStep(sys: System, s: Step)
    requires Locked(sys) && Allowed(sys, s)
    ensures Locked(Next(sys, s))
  {
    hide Intact, Owned, UsageIntact, SameUsageForOthers, WithoutAccount, WithAccount;
    var after := Next(sys, s);
    match s
    case EnterShared(p) => forall q ensures HoldsLock(after, q) <==> HoldsLock(sys, q) || q == p {}
    case EnterExclusive(p) => forall q ensures HoldsLock(after, q) <==> HoldsLock(sys, q) || q == p {}
    case Leave(p, _) => forall q ensures HoldsLock(after, q) <==> HoldsLock(sys, q) && q != p {}
    case _ => forall q ensures HoldsLock(after, q) <==> HoldsLock(sys, q) {}
  }

  /** Accounts disappear only under the exclusive lock, when nobody else is inside. */
  lemma FreshStep(sys: System, s: Step)
    requires Locked(sys) && Fresh(sys) && Allowed(sys, s)
    ensures Fresh(Next(sys, s))
  {
    hide Intact, Owned, UsageIntact, SameUsageForOthers;
    var after := Next(sys, s);
    if s.Remove? {
      assert sys.writer == Some(s.p);
      forall q | IsInside(after, q) ensures after.processes[q] == sys.processes[q] && after.db == sys.db {
        assert HoldsLock(sys, q);
      }
    } else {
      assert sys.db.accounts.Keys <= after.db.accounts.Keys;
    }
  }

  lemma AbsentIsAbsent(db: Db, after: Db, id: AccountId, other: AccountId)
    requires Absent(db, id) && id != other && SameForOthers(db, after, other)
    ensures Absent(after, id)
  {
  }

  lemma NoRowsWithoutAccount(db: Db, id: AccountId)
    requires Intact(db) && Owned(db) && id !in db.accounts
    ensures Absent(db, id)
  {
  }

  lemma DbStep(sys: System, s: Step)
    requires Inv(sys) && Allowed(sys, s)
    ensures Intact(Next(sys, s).db) && Owned(Next(sys, s).db)
    ensures Next(sys, s).db.accounts.Keys <= Next(sys, s).used && sys.deleted <= sys.used <= Next(sys, s).used
    ensures Next(sys, s).deleted <= Next(sys, s).used
    ensures forall id :: id in Next(sys, s).deleted ==> id !in Next(sys, s).db.accounts
  {
    match s
    case Save(p, id, provider, credential, windows) => SavingKeepsReferences(sys.db, id, provider, credential, windows);
    case Connect(id, provider, credential, windows) => SavingKeepsReferences(sys.db, id, provider, credential, windows);
    case Remove(p) => DeletionKeepsReferences(sys.db, sys.processes[p].op.id);
    case _ =>
  }

  lemma StepKeepsInv(sys: System, s: Step)
    requires Inv(sys) && Allowed(sys, s)
    ensures Inv(Next(sys, s))
  {
    hide Allowed, Next, Intact, Owned, Locked, Fresh, Absent;
    LockStep(sys, s);
    FreshStep(sys, s);
    DbStep(sys, s);
    forall id <- Next(sys, s).deleted ensures Absent(Next(sys, s).db, id) {
      NoRowsWithoutAccount(Next(sys, s).db, id);
    }
  }

  // ----- runs -----

  ghost predicate Possible(start: System, run: seq<Step>)
    decreases |run|, 0
  {
    run == [] || (Possible(start, run[..|run| - 1]) && Allowed(After(start, run[..|run| - 1]), run[|run| - 1]))
  }

  ghost function After(start: System, run: seq<Step>): System
    requires Possible(start, run)
    decreases |run|, 1
  {
    if run == [] then start else Next(After(start, run[..|run| - 1]), run[|run| - 1])
  }

  lemma {:induction false} RunKeepsInv(start: System, run: seq<Step>)
    requires Inv(start) && Possible(start, run)
    ensures Inv(After(start, run))
  {
    if run != [] {
      RunKeepsInv(start, run[..|run| - 1]);
      StepKeepsInv(After(start, run[..|run| - 1]), run[|run| - 1]);
    }
  }

  /** Everything idle: nobody holds the lock and nothing was deleted yet. */
  ghost predicate Initial(sys: System) {
    && Intact(sys.db) && Owned(sys.db) && sys.db.accounts.Keys <= sys.used
    && sys.processes == map[] && sys.readers == {} && sys.writer.None? && sys.deleted == {}
  }

  lemma InitialInv(sys: System)
    requires Initial(sys)
    ensures Inv(sys)
  {
  }

  lemma {:induction false} DeletedStays(start: System, run: seq<Step>, k: nat)
    requires Possible(start, run) && k <= |run|
    ensures Possible(start, run[..k]) && After(start, run[..k]).deleted <= After(start, run).deleted
  {
    if k == |run| {
      assert run[..k] == run;
    } else {
      var before := run[..|run| - 1];
      assert before[..k] == run[..k];
      DeletedStays(start, before, k);
    }
  }

  /**
    Once a deletion of an account has succeeded, no table ever holds a row of
    it again, whatever operations were already running or start later.
  */
  lemma DeletionIsFinal(start: System, run: seq<Step>, k: nat, id: AccountId)
    requires Initial(start) && Possible(start, run) && k <= |run|
    requires Possible(start, run[..k]) && id in After(start, run[..k]).deleted
    ensures Absent(After(start, run).db, id)
  {
    InitialInv(start);
    DeletedStays(start, run, k);
    RunKeepsInv(start, run);
  }

  /** A successful deletion is one that found the account, and it removes nobody else's rows. */
  lemma RemoveDeletes(sys: System, p: nat)
    requires Inv(sys) && Allowed(sys, Remove(p))
    ensures var after, id := Next(sys, Remove(p)), sys.processes[p].op.id;
            && SameForOthers(sys.db, after.db, id)
            && (after.processes[p].phase == Leaving(Succeeded) <==> id in sys.db.accounts)
            && (after.processes[p].phase == Leaving(Succeeded) ==> id in after.deleted && Absent(after.db, id))
  {
    StepKeepsInv(sys, Remove(p));
    DeletionIsLocal(sys.db, sys.processes[p].op.id);
  }

  /** Every later operation on a deleted account finds it missing and changes nothing, and none still holds it to save it. */
  lemma DeletedIsMissing(sys: System, s: Step, id: AccountId)
    requires Inv(sys) && Allowed(sys, s) && id in sys.deleted
    ensures s.Read? && s.id == id && !sys.processes[s.p].op.ListActivities? ==>
              Next(sys, s) == Continue(sys, s.p, Leaving(Missing))
    ensures s.Remove? && sys.processes[s.p].op.id == id ==> Next(sys, s) == Continue(sys, s.p, Leaving(Missing))
    ensures s.WriteUsage? && s.id == id ==> Next(sys, s) == Continue(sys, s.p, Leaving(Missing))
    ensures s.List? ==> id !in Next(sys, s).processes[s.p].phase.listed
    ensures !(s.Save? && s.id == id)
  {
  }

  /** A listed account is there when its credential is read. */
  lemma ListedAccountsStay(start: System, run: seq<Step>, p: nat)
    requires Initial(start) && Possible(start, run) && IsInside(After(start, run), p)
    ensures After(start, run).processes[p].phase.missed == {}
  {
    InitialInv(start);
    RunKeepsInv(start, run);
  }

  /**
    A credential import saves an account it found earlier without holding the
    lock.  Such a save keeps deleted accounts gone exactly when the account has
    not been deleted in between.
  */
  lemma UnlockedSaveIsSafe(sys: System, id: AccountId, provider: string, credential: string, windows: seq<Signal>)
    requires Inv(sys)
    ensures Gone(sys.(db := WithAccount(sys.db, id, provider, credential, windows))) <==> id !in sys.deleted
  {
    hide Intact, Owned;
    var after := WithAccount(sys.db, id, provider, credential, windows);
    SavingIsLocal(sys.db, id, provider, credential, windows);
    if id in sys.deleted {
      assert id in after.accounts;
    } else {
      forall other <- sys.deleted ensures Absent(after, other) {
        AbsentIsAbsent(sys.db, after, other, id);
      }
    }
  }
}
