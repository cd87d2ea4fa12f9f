/**
  The bounded pool that refreshes a list of accounts: workers drain a closed
  queue of indexes and push failures into a buffered channel, interleaved in
  any order with each other and with cancellation of the whole wave.
*/
module RefreshPool {
  import opened Prelude

  datatype Failure = Cancelled | TimedOut | Refused(message: string)

  datatype Report = Report(index: nat, failure: Failure)

  datatype Worker =
    | Idle
    | Taken(index: nat)
    | Refreshing(index: nat)
    | Returned(index: nat)
    | Reporting(index: nat, failure: Failure)
    | Done

  /** `next` is the head of the queue; `started` and `succeeded` record what happened to each index. */
  datatype Pool = Pool(next: nat, workers: seq<Worker>, results: seq<Report>, started: set<nat>, succeeded: set<nat>, cancelled: bool)

  datatype Step =
    | Take(w: nat)
    | Quit(w: nat)
    | Begin(w: nat)
    | Fail(w: nat, message: string)
    | Succeed(w: nat)
    | Finish(w: nat, timedOut: bool)
    | Push(w: nat)
    | Cancel

  predicate Busy(x: Worker) {
    !x.Idle? && !x.Done?
  }

  // ----- steps -----

  /** The results channel holds n reports, so a push waits while it is full. */
  predicate Enabled(n: nat, p: Pool, s: Step) {
    if s.Cancel? then !p.cancelled else
      && s.w < |p.workers|
      && var x := p.workers[s.w];
         match s
         case Take(_) => x.Idle? && p.next < n
         case Quit(_) => x.Idle? && p.next >= n
         case Begin(_) => x.Taken?
         case Fail(_, _) => x.Refreshing?
         case Succeed(_) => x.Refreshing?
         case Finish(_, _) => x.Returned?
         case Push(_) => x.Reporting? && |p.results| < n
  }

  /**
    Cancellation is looked at twice: before a refresh begins, and after one
    succeeded, where an expired deadline of the single account counts as well.
  */
  function Next(n: nat, p: Pool, s: Step): Pool
    requires Enabled(n, p, s)
  {
    match s
    case Cancel => p.(cancelled := true)
    case Take(w) => p.(workers := p.workers[w := Taken(p.next)], next := p.next + 1)
    case Quit(w) => p.(workers := p.workers[w := Done])
    case Begin(w) =>
      var i := p.workers[w].index;
      if p.cancelled then p.(workers := p.workers[w := Reporting(i, Cancelled)])
      else p.(workers := p.workers[w := Refreshing(i)], started := p.started + {i})
    case Fail(w, message) => p.(workers := p.workers[w := Reporting(p.workers[w].index, Refused(message))])
    case Succeed(w) => p.(workers := p.workers[w := Returned(p.workers[w].index)])
    case Finish(w, timedOut) =>
      var i := p.workers[w].index;
      if p.cancelled then p.(workers := p.workers[w := Reporting(i, Cancelled)])
      else if timedOut then p.(workers := p.workers[w := Reporting(i, TimedOut)])
      else p.(workers := p.workers[w := Idle], succeeded := p.succeeded + {i})
    case Push(w) =>
      var x := p.workers[w];
      p.(workers := p.workers[w := Idle], results := p.results + [Report(x.index, x.failure)])
  }

  function Start(c: nat): Pool {
    Pool(0, seq(c, i => Idle), [], {}, {}, false)
  }

  /** A schedule, possible from the start of a wave of n accounts with c workers. */
  predicate Possible(n: nat, c: nat, run: seq<Step>)
    decreases |run|, 0
  {
    run == [] ||
    var before := run[..|run| - 1];
    Possible(n, c, before) && Enabled(n, After(n, c, before), run[|run| - 1])
  }

  function After(n: nat, c: nat, run: seq<Step>): Pool
    requires Possible(n, c, run)
    decreases |run|, 1
  {
    if run == [] then Start(c) else Next(n, After(n, c, run[..|run| - 1]), run[|run| - 1])
  }

  predicate Complete(p: Pool) {
    forall x <- p.workers :: x.Done?
  }

  // ----- every index is in one place -----

  ghost predicate Reported(p: Pool, i: nat) {
    exists k :: 0 <= k < |p.results| && p.results[k].index == i
  }

  ghost predicate Held(p: Pool, i: nat) {
    exists w :: 0 <= w < |p.workers| && Busy(p.workers[w]) && p.workers[w].index == i
  }

  /** What holds of an index that a worker holds. */
  ghost predicate HeldRight(p: Pool, x: Worker) {
    Busy(x) ==>
      && x.index < p.next && x.index !in p.succeeded && !Reported(p, x.index)
      && (x.Taken? ==> x.index !in p.started)
      && (x.Refreshing? || x.Returned? ==> x.index in p.started)
      && (x.Reporting? && x.index !in p.started ==> x.failure.Cancelled?)
      && (x.Reporting? && x.failure.Cancelled? ==> p.cancelled)
  }

  ghost predicate Exclusive(workers: seq<Worker>) {
    forall v, w :: 0 <= v < w < |workers| && Busy(workers[v]) && Busy(workers[w]) ==> workers[v].index != workers[w].index
  }

  ghost predicate DistinctReports(results: seq<Report>) {
    forall j, k :: 0 <= j < k < |results| ==> results[j].index != results[k].index
  }

  /** What holds of an index that was reported. */
  ghost predicate ReportRight(p: Pool, r: Report) {
    && r.index < p.next && r.index !in p.succeeded
    && (r.index !in p.started ==> r.failure.Cancelled?)
    && (r.failure.Cancelled? ==> p.cancelled)
  }

  ghost predicate Inv(n: nat, c: nat, p: Pool) {
    && p.next <= n && |p.workers| == c
    && Exclusive(p.workers) && (forall x <- p.workers :: HeldRight(p, x))
    && DistinctReports(p.results) && (forall r <- p.results :: ReportRight(p, r))
    && p.succeeded <= p.started && (forall i <- p.started :: i < p.next)
    && (forall i: nat :: i < p.next ==> i in p.succeeded || Reported(p, i) || Held(p, i))
    && (p.next < n ==> forall x <- p.workers :: !x.Done?)
  }

  lemma HeldAfter(p: Pool, q: Pool, w: nat, i: nat)
    requires w < |p.workers| && |q.workers| == |p.workers|
    requires forall v :: 0 <= v < |p.workers| && v != w ==> q.workers[v] == p.workers[v]
    requires Held(p, i) && !(Busy(p.workers[w]) && p.workers[w].index == i)
    ensures Held(q, i)
  {
    var v :| 0 <= v < |p.workers| && Busy(p.workers[v]) && p.workers[v].index == i;
    assert q.workers[v] == p.workers[v];
  }

  lemma ReportedAfter(p: Pool, q: Pool, r: Report)
    requires q.results == p.results + [r]
    ensures forall i :: Reported(q, i) <==> Reported(p, i) || i == r.index
  {
    forall i ensures Reported(q, i) <==> Reported(p, i) || i == r.index {
      if Reported(p, i) {
        var k :| 0 <= k < |p.results| && p.results[k].index == i;
        assert q.results[k].index == i;
      }
      assert q.results[|p.results|] == r;
    }
  }

  /** A worker changes hands with an index but the reports stay. */
  lemma WorkerMoves(n: nat, c: nat, p: Pool, q: Pool, w: nat)
    requires Inv(n, c, p) && w < c
    requires |q.workers| == c && forall v :: 0 <= v < c && v != w ==> q.workers[v] == p.workers[v]
    requires q.results == p.results && q.cancelled == p.cancelled && p.next <= q.next <= n
    requires p.started <= q.started && q.succeeded <= q.started && p.succeeded <= q.succeeded
    requires forall i :: i in q.started && i !in p.started ==> Busy(p.workers[w]) && p.workers[w].Taken? && i == p.workers[w].index
    requires forall i :: i in q.succeeded && i !in p.succeeded ==> Busy(p.workers[w]) && i == p.workers[w].index
    requires q.next == p.next || (q.next == p.next + 1 && Busy(q.workers[w]) && q.workers[w].index == p.next)
    requires Busy(q.workers[w]) ==> if Busy(p.workers[w]) then q.workers[w].index == p.workers[w].index else q.workers[w].index == p.next < q.next
    requires Busy(p.workers[w]) && !Busy(q.workers[w]) ==> p.workers[w].index in q.succeeded
    requires HeldRight(q, q.workers[w])
    requires q.workers[w].Done? ==> q.next >= n
    requires forall i <- q.started :: i < q.next
    ensures Inv(n, c, q)
  {
    forall v | 0 <= v < c && v != w ensures HeldRight(q, q.workers[v]) {
      assert p.workers[v] in p.workers;
      assert HeldRight(p, p.workers[v]);
      assert forall i :: Reported(q, i) <==> Reported(p, i);
    }
    forall i: nat | i < q.next ensures i in q.succeeded || Reported(q, i) || Held(q, i) {
      if i >= p.next || (Busy(p.workers[w]) && p.workers[w].index == i) {
        assert Busy(q.workers[w]) ==> Held(q, q.workers[w].index);
      } else if Reported(p, i) {
        assert Reported(q, i);
      } else if Held(p, i) {
        HeldAfter(p, q, w, i);
      }
    }
    forall v | 0 <= v < c && v != w && Busy(q.workers[v]) && Busy(q.workers[w]) ensures q.workers[v].index != q.workers[w].index {
      assert HeldRight(p, p.workers[v]);
    }
    forall r <- q.results ensures ReportRight(q, r) {
      assert ReportRight(p, r);
      var k :| 0 <= k < |p.results| && p.results[k] == r;
      assert Reported(p, r.index);
      assert HeldRight(p, p.workers[w]);
    }
    assert forall x <- q.workers :: HeldRight(q, x) by {
      forall x <- q.workers ensures HeldRight(q, x) { var v :| 0 <= v < c && q.workers[v] == x; }
    }
    if q.next < n {
      forall x <- q.workers ensures !x.Done? {
        var v :| 0 <= v < c && q.workers[v] == x;
        if v != w { assert p.workers[v] in p.workers; }
      }
    }
  }

  lemma StepKeepsInv(n: nat, c: nat, p: Pool, s: Step)
    requires Inv(n, c, p) && Enabled(n, p, s)
    ensures Inv(n, c, Next(n, p, s))
  {
    hide Inv;
    var q := Next(n, p, s);
    match s
    case Cancel => CancelKeepsInv(n, c, p);
    case Push(w) => PushKeepsInv(n, c, p, w);
    case Take(w) => MoveKeepsInv(n, c, p, s);
    case Quit(w) => MoveKeepsInv(n, c, p, s);
    case Begin(w) => MoveKeepsInv(n, c, p, s);
    case Fail(w, message) => MoveKeepsInv(n, c, p, s);
    case Succeed(w) => MoveKeepsInv(n, c, p, s);
    case Finish(w, timedOut) => MoveKeepsInv(n, c, p, s);
  }

  lemma ReportedWereTaken(n: nat, c: nat, p: Pool)
    requires Inv(n, c, p)
    ensures forall i: nat :: Reported(p, i) ==> i < p.next
  {
    forall i: nat | Reported(p, i) ensures i < p.next {
      var k :| 0 <= k < |p.results| && p.results[k].index == i;
      assert ReportRight(p, p.results[k]);
    }
  }

  lemma MoveKeepsInv(n: nat, c: nat, p: Pool, s: Step)
    requires Inv(n, c, p) && Enabled(n, p, s) && !s.Cancel? && !s.Push?
    ensures Inv(n, c, Next(n, p, s))
  {
    hide Exclusive;
    var q := Next(n, p, s);
    var x := p.workers[s.w];
    assert HeldRight(p, x);
    assert forall i :: Reported(q, i) <==> Reported(p, i);
    ReportedWereTaken(n, c, p);
    WorkerMoves(n, c, p, q, s.w);
  }

  lemma CancelKeepsInv(n: nat, c: nat, p: Pool)
    requires Inv(n, c, p)
    ensures Inv(n, c, p.(cancelled := true))
  {
    var q := p.(cancelled := true);
    assert forall i :: Reported(q, i) <==> Reported(p, i);
    assert forall i :: Held(q, i) <==> Held(p, i);
    assert forall x <- p.workers :: HeldRight(p, x) ==> HeldRight(q, x);
    assert forall r <- p.results :: ReportRight(p, r) ==> ReportRight(q, r);
  }

  lemma PushKeepsInv(n: nat, c: nat, p: Pool, w: nat)
    requires Inv(n, c, p) && Enabled(n, p, Push(w))
    ensures Inv(n, c, Next(n, p, Push(w)))
  {
    var q := Next(n, p, Push(w));
    var x := p.workers[w];
    var r := Report(x.index, x.failure);
    assert HeldRight(p, x);
    ReportedAfter(p, q, r);
    forall y <- q.workers ensures HeldRight(q, y) {
      var v :| 0 <= v < c && q.workers[v] == y;
      if v != w { assert HeldRight(p, p.workers[v]); }
    }
    forall i: nat | i < q.next ensures i in q.succeeded || Reported(q, i) || Held(q, i) {
      if Held(p, i) && i != x.index { HeldAfter(p, q, w, i); }
    }
    forall y <- q.results ensures ReportRight(q, y) {
      if y != r { assert ReportRight(p, y); }
    }
    forall j, k | 0 <= j < k < |q.results| ensures q.results[j].index != q.results[k].index {
      if k == |p.results| { assert Reported(p, p.results[j].index); }
    }
  }

  lemma {:induction false} RunKeepsInv(n: nat, c: nat, run: seq<Step>)
    requires Possible(n, c, run)
    ensures Inv(n, c, After(n, c, run))
  {
    hide Inv;
    if run == [] {
      StartInv(n, c);
    } else {
      RunKeepsInv(n, c, run[..|run| - 1]);
      StepKeepsInv(n, c, After(n, c, run[..|run| - 1]), run[|run| - 1]);
    }
  }

  lemma StartInv(n: nat, c: nat)
    ensures Inv(n, c, Start(c))
  {
  }

  // ----- no worker is ever stuck -----

  lemma {:induction false} DistinctIndexesFit(results: seq<Report>, n: nat, indexes: set<nat>)
    requires DistinctReports(results)
    requires indexes == set r | r in results :: r.index
    ensures |indexes| == |results|
  {
    if results != [] {
      var before, last := results[..|results| - 1], results[|results| - 1];
      assert results == before + [last];
      var fewer := set r | r in before :: r.index;
      assert indexes == fewer + {last.index};
      assert last.index !in fewer;
      DistinctIndexesFit(before, n, fewer);
    }
  }

  lemma ReportsAreReported(p: Pool)
    ensures forall r <- p.results :: Reported(p, r.index)
  {
    forall r <- p.results ensures Reported(p, r.index) {
      var k :| 0 <= k < |p.results| && p.results[k] == r;
    }
  }

  /** The buffer of the results channel is never full when a worker wants to push. */
  lemma PushNeverBlocks(n: nat, c: nat, run: seq<Step>, w: nat)
    requires Possible(n, c, run)
    requires w < |After(n, c, run).workers| && After(n, c, run).workers[w].Reporting?
    ensures Enabled(n, After(n, c, run), Push(w))
  {
    var p := After(n, c, run);
    RunKeepsInv(n, c, run);
    var indexes := set r | r in p.results :: r.index;
    DistinctIndexesFit(p.results, n, indexes);
    var i := p.workers[w].index;
    assert HeldRight(p, p.workers[w]);
    ReportsAreReported(p);
    SizeWithin(indexes + {i}, 0, n);
  }

  /** Every worker that is not done can take a step; no wait depends on another worker. */
  lemma NoDeadlock(n: nat, c: nat, run: seq<Step>, w: nat)
    requires Possible(n, c, run) && w < c
    ensures |After(n, c, run).workers| == c
    ensures !After(n, c, run).workers[w].Done? ==> exists s: Step :: !s.Cancel? && s.w == w && Enabled(n, After(n, c, run), s)
  {
    RunKeepsInv(n, c, run);
    var p := After(n, c, run);
    match p.workers[w]
    case Idle => assert Enabled(n, p, if p.next < n then Take(w) else Quit(w));
    case Taken(_) => assert Enabled(n, p, Begin(w));
    case Refreshing(_) => assert Enabled(n, p, Succeed(w));
    case Returned(_) => assert Enabled(n, p, Finish(w, false));
    case Reporting(_, _) => PushNeverBlocks(n, c, run, w);
    case Done =>
  }

  function Weight(x: Worker): nat {
    match x
    case Taken(_) => 5
    case Refreshing(_) => 4
    case Returned(_) => 3
    case Reporting(_, _) => 2
    case Idle => 1
    case Done => 0
  }

  function Weights(workers: seq<Worker>): nat {
    if workers == [] then 0 else Weights(workers[..|workers| - 1]) + Weight(workers[|workers| - 1])
  }

  lemma {:induction false} WeightsUpdate(workers: seq<Worker>, w: nat, x: Worker)
    requires w < |workers|
    ensures Weights(workers[w := x]) == Weights(workers) - Weight(workers[w]) + Weight(x)
  {
    var last := |workers| - 1;
    if w == last {
      assert workers[w := x][..last] == workers[..last];
    } else {
      assert workers[w := x][..last] == workers[..last][w := x];
      WeightsUpdate(workers[..last], w, x);
    }
  }

  lemma {:induction false} StartWeight(c: nat)
    ensures Weights(Start(c).workers) == c
  {
    if c > 0 {
      assert Start(c).workers[..c - 1] == Start(c - 1).workers;
      StartWeight(c - 1);
    }
  }

  /** What is left to do. */
  function Potential(n: nat, p: Pool): int {
    5 * (n - p.next) + Weights(p.workers) + if p.cancelled then 0 else 1
  }

  lemma StepsMakeProgress(n: nat, p: Pool, s: Step)
    requires Enabled(n, p, s)
    ensures Potential(n, Next(n, p, s)) < Potential(n, p)
  {
    hide Weights;
    if !s.Cancel? {
      var q := Next(n, p, s);
      WeightsUpdate(p.workers, s.w, q.workers[s.w]);
      assert q.workers == p.workers[s.w := q.workers[s.w]];
    }
  }

  /** Every schedule is finite: n accounts and c workers allow at most 5n + c + 1 steps. */
  lemma {:induction false} RunsAreBounded(n: nat, c: nat, run: seq<Step>)
    requires Possible(n, c, run)
    ensures |run| + Potential(n, After(n, c, run)) <= 5 * n + c + 1
    ensures |run| <= 5 * n + c + 1
  {
    if run == [] {
      StartWeight(c);
    } else {
      var before, s := run[..|run| - 1], run[|run| - 1];
      RunsAreBounded(n, c, before);
      StepsMakeProgress(n, After(n, c, before), s);
    }
    RunKeepsInv(n, c, run);
  }

  // ----- refreshes -----

  /** The indexes being refreshed right now. */
  ghost function InFlight(p: Pool): set<nat> {
    set w | 0 <= w < |p.workers| && p.workers[w].Refreshing? :: p.workers[w].index
  }

  lemma {:induction false} FewInFlight(workers: seq<Worker>, flying: set<nat>)
    requires flying == set w | 0 <= w < |workers| && workers[w].Refreshing? :: workers[w].index
    ensures |flying| <= |workers|
  {
    if workers == [] {
      assert flying == {};
    } else {
      var before, last := workers[..|workers| - 1], workers[|workers| - 1];
      var fewer := set w | 0 <= w < |before| && before[w].Refreshing? :: before[w].index;
      FewInFlight(before, fewer);
      if last.Refreshing? {
        assert flying == fewer + {last.index} by {
          assert workers[|workers| - 1].index in flying;
          forall i | i in fewer ensures i in flying { var w :| 0 <= w < |before| && before[w].Refreshing? && before[w].index == i; assert workers[w] == before[w]; }
        }
      } else {
        assert flying == fewer by {
          forall i | i in fewer ensures i in flying { var w :| 0 <= w < |before| && before[w].Refreshing? && before[w].index == i; assert workers[w] == before[w]; }
        }
      }
    }
  }

  lemma FlyingHasStarted(n: nat, c: nat, p: Pool)
    requires Inv(n, c, p)
    ensures InFlight(p) <= p.started
  {
    forall i <- InFlight(p) ensures i in p.started {
      var w :| 0 <= w < |p.workers| && p.workers[w].Refreshing? && p.workers[w].index == i;
      assert HeldRight(p, p.workers[w]);
    }
  }

  /** No two workers refresh one account, no account is refreshed twice, and at most c run at once. */
  lemma RefreshesAreBounded(n: nat, c: nat, run: seq<Step>, s: Step)
    requires Possible(n, c, run) && Enabled(n, After(n, c, run), s)
    ensures |InFlight(After(n, c, run))| <= c
    ensures s.Begin? && !After(n, c, run).cancelled ==>
              && After(n, c, run).workers[s.w].index !in After(n, c, run).started
              && After(n, c, run).workers[s.w].index !in InFlight(After(n, c, run))
  {
    var p := After(n, c, run);
    RunKeepsInv(n, c, run);
    FewInFlight(p.workers, InFlight(p));
    FlyingHasStarted(n, c, p);
    if s.Begin? { assert HeldRight(p, p.workers[s.w]); }
  }

  /** After cancellation nothing starts and nothing counts as refreshed. */
  lemma CancellationStopsTheWave(n: nat, p: Pool, s: Step)
    requires p.cancelled && Enabled(n, p, s)
    ensures var q := Next(n, p, s); q.cancelled && q.started == p.started && q.succeeded == p.succeeded
  {
  }

  // ----- outcomes -----

  lemma NobodyHolds(p: Pool)
    requires Complete(p)
    ensures forall i :: !Held(p, i)
  {
    forall w | 0 <= w < |p.workers| ensures !Busy(p.workers[w]) { assert p.workers[w] in p.workers; }
  }

  /** When all workers are done every account is either refreshed or reported, once, and never both. */
  lemma EveryAccountIsHandled(n: nat, c: nat, run: seq<Step>)
    requires Possible(n, c, run) && Complete(After(n, c, run)) && c > 0
    ensures var p := After(n, c, run);
            && DistinctReports(p.results)
            && (forall i: nat :: i < n ==> (i in p.succeeded <==> !Reported(p, i)))
            && (forall i: nat :: i in p.succeeded || Reported(p, i) ==> i < n)
            && (forall i: nat :: i < n && i !in p.started ==> Reported(p, i))
            && (forall r <- p.results :: r.index !in p.started ==> r.failure.Cancelled?)
            && (p.results == [] <==> forall i: nat :: i < n ==> i in p.succeeded)
  {
    var p := After(n, c, run);
    RunKeepsInv(n, c, run);
    assert p.workers[0] in p.workers;
    assert p.next == n;
    NobodyHolds(p);
    forall i: nat | Reported(p, i) ensures i < n && i !in p.succeeded {
      var k :| 0 <= k < |p.results| && p.results[k].index == i;
      assert ReportRight(p, p.results[k]);
    }
    if p.results != [] { assert Reported(p, p.results[0].index); }
  }

  /** How the refresh of an account ends when it is left alone: it succeeds, is refused, or runs out of time. */
  datatype Ending = Refreshed | OutOfTime | Denied(message: string)

  /** The failure that an ending is reported as. */
  function FailureOf(e: Ending): Option<Failure> {
    match e
    case Refreshed => None
    case OutOfTime => Some(TimedOut)
    case Denied(message) => Some(Refused(message))
  }

  /** Until the wave is cancelled every step agrees with outcomes that were fixed per account beforehand. */
  predicate Agrees(fixed: seq<Ending>, p: Pool, s: Step)
    requires Enabled(|fixed|, p, s)
  {
    p.cancelled ||
    match s
    case Fail(w, message) => p.workers[w].index < |fixed| && fixed[p.workers[w].index] == Denied(message)
    case Succeed(w) => p.workers[w].index < |fixed| && !fixed[p.workers[w].index].Denied?
    case Finish(w, timedOut) => p.workers[w].index < |fixed| && fixed[p.workers[w].index] == if timedOut then OutOfTime else Refreshed
    case _ => true
  }

  predicate FollowsOutcomes(fixed: seq<Ending>, c: nat, run: seq<Step>)
    requires Possible(|fixed|, c, run)
  {
    run == [] ||
    var before := run[..|run| - 1];
    FollowsOutcomes(fixed, c, before) && Agrees(fixed, After(|fixed|, c, before), run[|run| - 1])
  }

  ghost predicate Matches(fixed: seq<Ending>, p: Pool) {
    && (forall i <- p.succeeded :: i < |fixed| && fixed[i].Refreshed?)
    && (!p.cancelled ==> forall r <- p.results :: r.index < |fixed| && FailureOf(fixed[r.index]) == Some(r.failure))
    && (!p.cancelled ==> forall x <- p.workers :: WorkerMatches(fixed, x))
  }

  ghost predicate WorkerMatches(fixed: seq<Ending>, x: Worker) {
    && (x.Returned? ==> x.index < |fixed| && !fixed[x.index].Denied?)
    && (x.Reporting? ==> x.index < |fixed| && FailureOf(fixed[x.index]) == Some(x.failure))
  }

  lemma {:induction false} FollowingMatches(fixed: seq<Ending>, c: nat, run: seq<Step>)
    requires Possible(|fixed|, c, run) && FollowsOutcomes(fixed, c, run)
    ensures Matches(fixed, After(|fixed|, c, run))
  {
    if run != [] {
      var before, s := run[..|run| - 1], run[|run| - 1];
      FollowingMatches(fixed, c, before);
      var p, q := After(|fixed|, c, before), After(|fixed|, c, run);
      if !s.Cancel? {
        assert q.workers == p.workers[s.w := q.workers[s.w]];
        assert p.workers[s.w] in p.workers;
      }
    }
  }

  /** The failures of fixed outcomes in account order. */
  function FailuresOf(fixed: seq<Ending>): seq<Report> {
    if fixed == [] then [] else
      var before, last := FailuresOf(fixed[..|fixed| - 1]), FailureOf(fixed[|fixed| - 1]);
      if last.Some? then before + [Report(|fixed| - 1, last.value)] else before
  }

  predicate StrictlyIncreasing(reports: seq<Report>) {
    forall j, k :: 0 <= j < k < |reports| ==> reports[j].index < reports[k].index
  }

  /** What the sorted list of a wave is: the same reports, in strictly increasing order. */
  predicate SortedFrom(sorted: seq<Report>, results: seq<Report>) {
    StrictlyIncreasing(sorted) && multiset(sorted) == multiset(results)
  }

  lemma {:induction false} FailuresAreOrdered(fixed: seq<Ending>)
    ensures StrictlyIncreasing(FailuresOf(fixed))
    ensures forall r :: r in FailuresOf(fixed) <==> r.index < |fixed| && FailureOf(fixed[r.index]) == Some(r.failure)
  {
    hide FailureOf, StrictlyIncreasing;
    if fixed == [] {
      AloneInOrder([]);
    } else {
      var before, last := fixed[..|fixed| - 1], FailureOf(fixed[|fixed| - 1]);
      FailuresAreOrdered(before);
      var earlier := FailuresOf(before);
      assert forall r <- earlier :: r.index < |before|;
      forall r: Report | r.index < |before| ensures FailureOf(fixed[r.index]) == FailureOf(before[r.index]) {
      }
      if last.Some? { LastInOrder(earlier, Report(|before|, last.value)); }
    }
  }

  lemma AloneInOrder(reports: seq<Report>)
    requires |reports| <= 1
    ensures StrictlyIncreasing(reports)
  {
  }

  lemma LastInOrder(reports: seq<Report>, r: Report)
    requires StrictlyIncreasing(reports) && forall x <- reports :: x.index < r.index
    ensures StrictlyIncreasing(reports + [r])
    ensures forall x :: x in reports + [r] <==> x in reports || x == r
  {
    forall j, k | 0 <= j < k < |reports| + 1 ensures (reports + [r])[j].index < (reports + [r])[k].index {
      assert (reports + [r])[j] in reports;
    }
  }

  lemma {:induction false} LastReport(xs: seq<Report>)
    requires StrictlyIncreasing(xs) && xs != []
    ensures StrictlyIncreasing(xs[..|xs| - 1])
    ensures forall r :: r in xs[..|xs| - 1] <==> r in xs && r != xs[|xs| - 1]
    ensures forall r <- xs :: r.index < xs[|xs| - 1].index || r == xs[|xs| - 1]
  {
    var front, last := xs[..|xs| - 1], xs[|xs| - 1];
    assert xs == front + [last];
    forall r <- front ensures r.index < last.index {
      var k :| 0 <= k < |front| && front[k] == r;
      assert xs[k] == r;
    }
  }

  lemma {:induction false} OrderIsUnique(xs: seq<Report>, ys: seq<Report>)
    requires StrictlyIncreasing(xs) && StrictlyIncreasing(ys)
    requires forall r :: r in xs <==> r in ys
    ensures xs == ys
  {
    hide StrictlyIncreasing;
    assert xs == [] || xs[0] in xs;
    assert ys == [] || ys[0] in ys;
    if xs == [] {
    } else {
      var x, y := xs[|xs| - 1], ys[|ys| - 1];
      LastReport(xs);
      LastReport(ys);
      assert x in xs && y in ys && x == y;
      var xf, yf := xs[..|xs| - 1], ys[..|ys| - 1];
      assert forall r :: r in xf <==> r in xs && r != x;
      assert forall r :: r in yf <==> r in ys && r != y;
      OrderIsUnique(xf, yf);
      assert xs == xf + [x] && ys == yf + [y];
    }
  }

  /** Without cancellation the reported failures depend on the outcomes alone, not on the schedule. */
  lemma ScheduleDoesNotMatter(fixed: seq<Ending>, c: nat, run: seq<Step>, sorted: seq<Report>)
    requires Possible(|fixed|, c, run) && FollowsOutcomes(fixed, c, run) && c > 0
    requires Complete(After(|fixed|, c, run)) && !After(|fixed|, c, run).cancelled && SortedFrom(sorted, After(|fixed|, c, run).results)
    ensures sorted == FailuresOf(fixed)
  {
    var p := After(|fixed|, c, run);
    FollowingMatches(fixed, c, run);
    EveryAccountIsHandled(|fixed|, c, run);
    FailuresAreOrdered(fixed);
    forall r ensures r in sorted <==> r in FailuresOf(fixed) {
      assert r in sorted <==> r in multiset(sorted);
      assert r in p.results <==> r in multiset(p.results);
      if r in FailuresOf(fixed) {
        assert r.index !in p.succeeded;
        var k :| 0 <= k < |p.results| && p.results[k].index == r.index;
        assert p.results[k] in p.results;
      }
    }
    OrderIsUnique(sorted, FailuresOf(fixed));
  }

  // ----- the call -----

  /** The workers of a wave: all of them for few accounts, one when none was asked for. */
  function Concurrency(n: nat, asked: int): (c: nat)
    requires n > 0
    ensures c == Min(Max(asked, 1), n) && 1 <= c <= n
  {
    var positive := if asked <= 0 then 1 else asked;
    if positive > n then n else positive
  }

  /**
    Refreshes accounts whose outcomes are given, under an arbitrary schedule.
    No failure is returned exactly when every account was refreshed; otherwise
    the failures come in account order, one for every account that was not.
    When the wave may not be cancelled they are the given ones.
  */
  method RefreshAccountIds(outcomes: seq<Ending>, asked: int, mayCancel: bool)
    returns (failures: seq<Report>, refreshed: set<nat>, ghost run: seq<Step>)
    ensures !mayCancel ==> failures == FailuresOf(outcomes)
    ensures forall i <- refreshed :: i < |outcomes| && outcomes[i].Refreshed?
    ensures StrictlyIncreasing(failures)
    ensures forall i: nat :: i in refreshed <==> i < |outcomes| && forall r <- failures :: r.index != i
    ensures forall r <- failures :: r.index < |outcomes|
    ensures failures == [] <==> forall i: nat :: i < |outcomes| ==> i in refreshed
    ensures |outcomes| > 0 ==>
              var n := |outcomes|;
              && Possible(n, Concurrency(n, asked), run) && Complete(After(n, Concurrency(n, asked), run))
              && SortedFrom(failures, After(n, Concurrency(n, asked), run).results)
              && refreshed == After(n, Concurrency(n, asked), run).succeeded
  {
    hide Inv, Complete, Matches;
    var n := |outcomes|;
    failures, refreshed, run := [], {}, [];
    if n == 0 { assert outcomes == []; return; }
    var c := Concurrency(n, asked);
    var pool := Start(c);
    StartInv(n, c);
    var w: Option<nat> := Unfinished(pool);
    while w.Some?
      invariant Possible(n, c, run) && pool == After(n, c, run)
      invariant w.Some? ==> w.value < |pool.workers| && !pool.workers[w.value].Done?
      invariant w.None? ==> Complete(pool)
      invariant FollowsOutcomes(outcomes, c, run) && (!mayCancel ==> !pool.cancelled)
      decreases 5 * n + c + 1 - |run|
    {
      FollowingMatches(outcomes, c, run);
      RunKeepsInv(n, c, run);
      IndexesFit(n, c, pool);
      var s := Choose(outcomes, pool, w.value, mayCancel);
      if !Enabled(n, pool, s) {
        if pool.workers[w.value].Reporting? { PushNeverBlocks(n, c, run, w.value); }
        assert false;
      }
      ghost var longer := run + [s];
      assert longer[..|longer| - 1] == run;
      RunsAreBounded(n, c, longer);
      run := longer;
      pool := Next(n, pool, s);
      w := Unfinished(pool);
    }
    EveryAccountIsHandled(n, c, run);
    FollowingMatches(outcomes, c, run);
    SucceededMatch(outcomes, pool);
    failures := Sort(pool.results);
    if !mayCancel { ScheduleDoesNotMatter(outcomes, c, run, failures); }
    refreshed := pool.succeeded;
    forall i: nat ensures Reported(pool, i) <==> exists r <- failures :: r.index == i {
      ReportedIn(pool, failures, i);
    }
    if failures == [] { assert multiset(pool.results) == multiset{}; assert |multiset(pool.results)| == |pool.results|; }
    if pool.results == [] { assert |multiset(failures)| == |failures|; }
    forall r <- failures ensures r.index < n { assert Reported(pool, r.index); }
  }

  lemma SucceededMatch(fixed: seq<Ending>, p: Pool)
    requires Matches(fixed, p)
    ensures forall i <- p.succeeded :: i < |fixed| && fixed[i].Refreshed?
  {
  }

  lemma IndexesFit(n: nat, c: nat, p: Pool)
    requires Inv(n, c, p)
    ensures forall w | 0 <= w < |p.workers| :: Busy(p.workers[w]) ==> p.workers[w].index < n
  {
    forall w | 0 <= w < |p.workers| ensures Busy(p.workers[w]) ==> p.workers[w].index < n {
      assert p.workers[w] in p.workers;
    }
  }

  lemma ReportedIn(p: Pool, failures: seq<Report>, i: nat)
    requires multiset(failures) == multiset(p.results)
    ensures Reported(p, i) <==> exists r <- failures :: r.index == i
  {
    assert forall r :: r in failures <==> r in multiset(failures);
    assert forall r :: r in p.results <==> r in multiset(p.results);
    if Reported(p, i) {
      var k :| 0 <= k < |p.results| && p.results[k].index == i;
      assert p.results[k] in p.results;
    }
  }

  /** Some worker that is not done. */
  method Unfinished(p: Pool) returns (w: Option<nat>)
    ensures w.Some? ==> w.value < |p.workers| && !p.workers[w.value].Done?
    ensures w.None? ==> Complete(p)
  {
    var rest := set v | 0 <= v < |p.workers| && !p.workers[v].Done?;
    if rest == {} {
      forall x <- p.workers ensures x.Done? {
        var v :| 0 <= v < |p.workers| && p.workers[v] == x;
        assert v !in rest;
      }
      return None;
    }
    var v :| v in rest;
    return Some(v);
  }

  /** What a worker does next is decided by its code and by how its refresh ends; when the wave is cancelled is left open. */
  method Choose(outcomes: seq<Ending>, p: Pool, w: nat, mayCancel: bool) returns (s: Step)
    requires w < |p.workers| && !p.workers[w].Done? && Matches(outcomes, p)
    requires Busy(p.workers[w]) ==> p.workers[w].index < |outcomes|
    ensures if s.Cancel? then mayCancel && !p.cancelled else s.w == w && (Enabled(|outcomes|, p, s) || s.Push?)
    ensures s.Push? ==> p.workers[w].Reporting?
    ensures Enabled(|outcomes|, p, s) ==> Agrees(outcomes, p, s)
  {
    var cancel: bool, failed: bool, message: string := *, *, *;
    if mayCancel && cancel && !p.cancelled { return Cancel; }
    assert p.workers[w] in p.workers;
    match p.workers[w]
    case Idle => return if p.next < |outcomes| then Take(w) else Quit(w);
    case Taken(_) => return Begin(w);
    case Refreshing(i) =>
      if p.cancelled { return if failed then Fail(w, message) else Succeed(w); }
      return match outcomes[i] case Denied(m) => Fail(w, m) case _ => Succeed(w);
    case Returned(i) => return Finish(w, outcomes[i].OutOfTime?);
    case Reporting(_, _) => return Push(w);
  }

  /** Sorting by account position. */
  method Sort(results: seq<Report>) returns (sorted: seq<Report>)
    requires DistinctReports(results)
    ensures SortedFrom(sorted, results)
  {
    sorted := [];
    for i := 0 to |results|
      invariant SortedFrom(sorted, results[..i])
    {
      ghost var before := results[..i];
      assert results[..i + 1] == before + [results[i]];
      forall r <- sorted ensures r.index != results[i].index {
        assert r in multiset(sorted) && r in before;
        var j :| 0 <= j < i && results[j] == r;
      }
      sorted := Insert(sorted, results[i]);
    }
    assert results[..|results|] == results;
  }

  method Insert(sorted: seq<Report>, r: Report) returns (more: seq<Report>)
    requires StrictlyIncreasing(sorted) && forall y <- sorted :: y.index != r.index
    ensures StrictlyIncreasing(more) && multiset(more) == multiset(sorted) + multiset{r}
  {
    var k := 0;
    while k < |sorted| && sorted[k].index < r.index
      invariant 0 <= k <= |sorted| && forall j | 0 <= j < k :: sorted[j].index < r.index
    {
      k := k + 1;
    }
    more := sorted[..k] + [r] + sorted[k..];
    InsertedInOrder(sorted, k, r);
    assert sorted == sorted[..k] + sorted[k..];
  }

  lemma InsertedInOrder(sorted: seq<Report>, k: nat, r: Report)
    requires StrictlyIncreasing(sorted) && k <= |sorted| && forall y <- sorted :: y.index != r.index
    requires forall j | 0 <= j < k :: sorted[j].index < r.index
    requires k < |sorted| ==> sorted[k].index >= r.index
    ensures StrictlyIncreasing(sorted[..k] + [r] + sorted[k..])
  {
    var more := sorted[..k] + [r] + sorted[k..];
    if k < |sorted| { assert sorted[k] in sorted; }
    assert forall j | k <= j < |sorted| :: sorted[j].index > r.index;
    forall i, j | 0 <= i < j < |more| ensures more[i].index < more[j].index {
      var before := if i < k then sorted[i] else if i == k then r else sorted[i - 1];
      var after := if j < k then sorted[j] else if j == k then r else sorted[j - 1];
      assert more[i] == before && more[j] == after;
    }
  }
}
