/**
  Coordinated refresh runs and the scheduler that starts them: a try-lock, a
  timer, a one-slot reset channel and a select, as steps that interleave with
  manual callers and with time.
*/
module SyncScheduler {
  import opened Prelude
  import opened Schema

  datatype Runner = Scheduler | Manual(id: nat)

  /** Where a caller of a refresh run is. */
  datatype Phase = Outside | Calling | Locked | Marked | Completed | Signalled

  /** Where the scheduler loop is. */
  datatype Loop =
    | Selecting
    | Attempting
    | Computing
    | Rearming(next: Time)
    | Resetting(next: Time, delay: Time)
    | Stopped

  datatype Timer = Pending(deadline: Time) | Ticked | Idle

  /** A scheduled attempt; it ends when the run returns or is refused as busy. */
  datatype Attempt = Attempt(start: Time, end: Option<Time>)

  datatype Status = Status(running: bool, trigger: Option<Runner>, nextScheduledAt: Option<Time>)

  /** `due` is the time the timer was last set to; `finished` is when the last manual run completed. */
  datatype Sync = Sync(now: Time, interval: Time, holder: Option<Runner>, phases: map<Runner, Phase>, status: Status,
                       reset: bool, timer: Timer, loop: Loop, due: Time, attempts: seq<Attempt>, finished: Option<Time>)

  datatype Step =
    | Pass(time: Time)
    | Fire
    | TakeTick
    | TakeReset
    | Cancel
    | Compute
    | Measure
    | Reset
    | Call(id: nat)
    | TryLock(r: Runner)
    | Mark(r: Runner)
    | Complete(r: Runner)
    | Signal(r: Runner)
    | Unlock(r: Runner)

  function PhaseOf(s: Sync, r: Runner): Phase {
    if r in s.phases then s.phases[r] else Outside
  }

  predicate Enabled(s: Sync, x: Step) {
    match x
    case Pass(time) => time >= s.now
    case Fire => s.timer.Pending? && s.now >= s.timer.deadline
    case TakeTick => s.loop.Selecting? && s.timer.Ticked?
    case TakeReset => s.loop.Selecting? && s.reset
    case Cancel => s.loop.Selecting?
    case Compute => s.loop.Computing?
    case Measure => s.loop.Rearming?
    case Reset => s.loop.Resetting?
    case Call(id) => PhaseOf(s, Manual(id)).Outside?
    case TryLock(r) => PhaseOf(s, r).Calling?
    case Mark(r) => PhaseOf(s, r).Locked?
    case Complete(r) => PhaseOf(s, r).Marked?
    case Signal(r) => PhaseOf(s, r).Completed?
    case Unlock(r) => PhaseOf(s, r).Signalled?
  }

  function At(s: Sync, r: Runner, phase: Phase): Sync {
    s.(phases := s.phases[r := phase])
  }

  /** The run has returned to its caller, which is the scheduler loop for a scheduled one. */
  function Returned(s: Sync, r: Runner): Sync {
    var t := At(s, r, Outside);
    if r.Manual? || |s.attempts| == 0 then t else
      var last := |s.attempts| - 1;
      t.(loop := Computing, attempts := s.attempts[last := s.attempts[last].(end := Some(s.now))])
  }

  function WholeSeconds(t: Time): Time {
    Seconds(t) * SECOND
  }

  /** Setting the timer stops it and drains a tick that was not taken. */
  function Next(s: Sync, x: Step): Sync
    requires Enabled(s, x)
  {
    match x
    case Pass(time) => s.(now := time)
    case Fire => s.(timer := Ticked)
    case TakeTick => At(s.(timer := Idle, loop := Attempting, attempts := s.attempts + [Attempt(s.now, None)]), Scheduler, Calling)
    case TakeReset => s.(reset := false, loop := Computing)
    case Cancel => s.(loop := Stopped, status := s.status.(nextScheduledAt := None))
    case Compute => s.(loop := Rearming(s.now + s.interval))
    case Measure =>
      var next := s.loop.next;
      s.(loop := Resetting(next, if next - s.now < 0 then 0 else next - s.now), status := s.status.(nextScheduledAt := Some(next)))
    case Reset => s.(timer := Pending(s.now + s.loop.delay), due := s.loop.next, loop := Selecting)
    case Call(id) => At(s, Manual(id), Calling)
    case TryLock(r) => if s.holder.None? then At(s, r, Locked).(holder := Some(r)) else Returned(s, r)
    case Mark(r) => At(s, r, Marked).(status := s.status.(running := true, trigger := Some(r)))
    case Complete(r) =>
      var t := At(s, r, Phase.Completed).(status := s.status.(running := false, trigger := None));
      if r.Scheduler? then t
      else t.(status := t.status.(nextScheduledAt := Some(WholeSeconds(s.now) + s.interval)), finished := Some(s.now))
    case Signal(r) => At(s, r, Signalled).(reset := s.reset || r.Manual?)
    case Unlock(r) => Returned(s, r).(holder := None)
  }

  /** The scheduler before its first select, armed with a startup delay. */
  predicate Initial(s: Sync, delay: Time) {
    && delay >= 0 && s.interval > 0
    && s.holder.None? && s.phases == map[] && !s.status.running && s.status.trigger.None? && !s.reset
    && s.timer == Pending(s.now + delay) && s.loop.Selecting? && s.due == s.now + delay
    && s.attempts == [] && s.finished.None?
  }

  predicate Possible(start: Sync, run: seq<Step>)
    decreases |run|, 0
  {
    run == [] || (Possible(start, run[..|run| - 1]) && Enabled(After(start, run[..|run| - 1]), run[|run| - 1]))
  }

  function After(start: Sync, run: seq<Step>): Sync
    requires Possible(start, run)
    decreases |run|, 1
  {
    if run == [] then start else Next(After(start, run[..|run| - 1]), run[|run| - 1])
  }

  // ----- runs do not overlap -----

  predicate InRun(phase: Phase) {
    phase.Locked? || phase.Marked? || phase.Completed? || phase.Signalled?
  }

  ghost predicate Exclusive(s: Sync) {
    && (forall r :: InRun(PhaseOf(s, r)) <==> s.holder == Some(r))
    && (s.status.running <==> s.holder.Some? && PhaseOf(s, s.holder.value).Marked?)
    && s.status.trigger == (if s.status.running then s.holder else None)
  }

  /** One runner moves on; it takes or gives up the lock and the running flag with its own phase only. */
  ghost predicate MovesAlone(s: Sync, t: Sync, r: Runner, phase: Phase) {
    && t.phases == s.phases[r := phase]
    && (InRun(phase) ==> t.holder == Some(r) && (s.holder.None? || s.holder == Some(r)))
    && (!InRun(phase) ==> t.holder == if s.holder == Some(r) then None else s.holder)
    && if phase.Marked? then t.status.running && t.status.trigger == Some(r)
       else if s.holder == Some(r) then !t.status.running && t.status.trigger.None?
       else t.status.running == s.status.running && t.status.trigger == s.status.trigger
  }

  lemma MoveKeepsExclusive(s: Sync, t: Sync, r: Runner, phase: Phase)
    requires Exclusive(s) && MovesAlone(s, t, r, phase)
    ensures Exclusive(t)
  {
    forall q | q != r ensures PhaseOf(t, q) == PhaseOf(s, q) {}
    assert PhaseOf(t, r) == phase;
  }

  lemma RunnerMoves(s: Sync, x: Step, r: Runner)
    requires Exclusive(s) && Enabled(s, x)
    requires (x.TryLock? || x.Mark? || x.Complete? || x.Signal? || x.Unlock?) && x.r == r
    ensures exists phase :: MovesAlone(s, Next(s, x), r, phase)
  {
    assert InRun(PhaseOf(s, r)) <==> s.holder == Some(r);
    var phase := match x
                 case TryLock(_) => if s.holder.None? then Locked else Outside
                 case Mark(_) => Marked
                 case Complete(_) => Phase.Completed
                 case Signal(_) => Signalled
                 case _ => Outside;
    assert MovesAlone(s, Next(s, x), r, phase);
  }

  lemma StepKeepsExclusive(s: Sync, x: Step)
    requires Exclusive(s) && LoopRight(s) && Enabled(s, x)
    ensures Exclusive(Next(s, x))
  {
    hide Later, MovesAlone;
    var t := Next(s, x);
    if x.TryLock? || x.Mark? || x.Complete? || x.Signal? || x.Unlock? {
      hide Exclusive, LoopRight, Next, Enabled;
      RunnerMoves(s, x, x.r);
      var phase :| MovesAlone(s, t, x.r, phase);
      MoveKeepsExclusive(s, t, x.r, phase);
    } else if x.TakeTick? {
      CallingKeepsExclusive(s, t, Scheduler);
    } else if x.Call? {
      CallingKeepsExclusive(s, t, Manual(x.id));
    } else {
      assert t.phases == s.phases;
      forall q ensures PhaseOf(t, q) == PhaseOf(s, q) {}
    }
  }

  lemma CallingKeepsExclusive(s: Sync, t: Sync, r: Runner)
    requires Exclusive(s) && PhaseOf(s, r).Outside?
    requires t.phases == s.phases[r := Calling] && t.holder == s.holder && t.status == s.status
    ensures Exclusive(t)
  {
    assert MovesAlone(s, t, r, Calling) by {
      assert InRun(PhaseOf(s, r)) <==> s.holder == Some(r);
    }
    MoveKeepsExclusive(s, t, r, Calling);
  }

  // ----- scheduled attempts are spaced -----

  predicate Ended(a: Attempt) {
    a.end.Some?
  }

  /** A time that respects the interval after the last scheduled attempt. */
  predicate Later(attempts: seq<Attempt>, interval: Time, time: Time) {
    |attempts| > 0 ==> Ended(attempts[|attempts| - 1]) && time >= attempts[|attempts| - 1].end.value + interval
  }

  /** Attempt i started an interval after the one before it ended. */
  predicate SpacedAt(attempts: seq<Attempt>, interval: Time, i: nat)
    requires i < |attempts|
  {
    Later(attempts[..i], interval, attempts[i].start)
  }

  ghost predicate Spaced(attempts: seq<Attempt>, interval: Time) {
    forall i: nat :: i < |attempts| ==> SpacedAt(attempts, interval, i)
  }

  ghost predicate LoopRight(s: Sync) {
    && (PhaseOf(s, Scheduler).Outside? <==> !s.loop.Attempting?)
    && (s.loop.Attempting? ==> |s.attempts| > 0 && !Ended(s.attempts[|s.attempts| - 1]))
    && match s.loop
       case Selecting => Later(s.attempts, s.interval, s.due) && (s.timer.Pending? ==> s.timer.deadline >= s.due) && (s.timer.Ticked? ==> s.now >= s.due)
       case Attempting => true
       case Computing => Later(s.attempts, s.interval, s.now + s.interval)
       case Rearming(next) => Later(s.attempts, s.interval, next)
       case Resetting(next, delay) => Later(s.attempts, s.interval, next) && s.now + delay >= next
       case Stopped => true
  }

  /** Ended attempts ended in the past. */
  ghost predicate Past(s: Sync) {
    |s.attempts| > 0 && Ended(s.attempts[|s.attempts| - 1]) ==> s.attempts[|s.attempts| - 1].end.value <= s.now
  }

  ghost predicate Inv(s: Sync) {
    Exclusive(s) && Spaced(s.attempts, s.interval) && LoopRight(s) && Past(s) && s.interval > 0
  }

  lemma StepKeepsLoop(s: Sync, x: Step)
    requires LoopRight(s) && Past(s) && Enabled(s, x) && s.interval > 0
    ensures LoopRight(Next(s, x)) && Past(Next(s, x)) && Next(s, x).interval == s.interval
  {
    hide LoopRight;
    if x.TryLock? || x.Mark? || x.Complete? || x.Signal? || x.Unlock? || x.Call? {
      RunKeepsLoop(s, x);
    } else {
      TimeKeepsLoop(s, x);
    }
  }

  lemma RunKeepsLoop(s: Sync, x: Step)
    requires LoopRight(s) && Enabled(s, x) && s.interval > 0
    requires x.TryLock? || x.Mark? || x.Complete? || x.Signal? || x.Unlock? || x.Call?
    ensures LoopRight(Next(s, x))
  {
    if (x.TryLock? && s.holder.Some?) || x.Unlock? {
      ReturnKeepsLoop(s, x.r);
    } else {
      assert Next(s, x).attempts == s.attempts;
    }
  }

  lemma ReturnKeepsLoop(s: Sync, r: Runner)
    requires LoopRight(s) && !PhaseOf(s, r).Outside? && s.interval > 0
    ensures LoopRight(Returned(s, r))
  {
  }

  lemma TimeKeepsLoop(s: Sync, x: Step)
    requires LoopRight(s) && Past(s) && Enabled(s, x) && s.interval > 0
    requires !(x.TryLock? || x.Mark? || x.Complete? || x.Signal? || x.Unlock? || x.Call?)
    ensures LoopRight(Next(s, x))
  {
  }

  lemma StepKeepsSpaced(s: Sync, x: Step)
    requires Spaced(s.attempts, s.interval) && LoopRight(s) && Enabled(s, x)
    ensures Spaced(Next(s, x).attempts, s.interval)
  {
    hide Later;
    var t := Next(s, x);
    if x.TakeTick? {
      forall i: nat | i < |t.attempts| ensures SpacedAt(t.attempts, s.interval, i) {
        assert t.attempts[..i] == s.attempts[..i];
        if i < |s.attempts| { assert SpacedAt(s.attempts, s.interval, i); } else { TickIsLate(s); }
      }
    } else if t.attempts != s.attempts {
      forall i: nat | i < |t.attempts| ensures SpacedAt(t.attempts, s.interval, i) {
        assert t.attempts[..i] == s.attempts[..i];
        assert SpacedAt(s.attempts, s.interval, i);
      }
    }
  }

  lemma TickIsLate(s: Sync)
    requires LoopRight(s) && Enabled(s, TakeTick)
    ensures Later(s.attempts, s.interval, s.now) && s.attempts[..|s.attempts|] == s.attempts
  {
  }

  lemma {:induction false} RunKeepsInv(start: Sync, delay: Time, run: seq<Step>)
    requires Initial(start, delay) && Possible(start, run)
    ensures Inv(After(start, run)) && After(start, run).interval == start.interval
  {
    hide Exclusive, Spaced, LoopRight, Past, Initial;
    if run == [] {
      InitialInv(start, delay);
    } else {
      var before, x := run[..|run| - 1], run[|run| - 1];
      RunKeepsInv(start, delay, before);
      var s := After(start, before);
      StepKeepsExclusive(s, x);
      StepKeepsLoop(s, x);
      StepKeepsSpaced(s, x);
    }
  }

  lemma InitialInv(start: Sync, delay: Time)
    requires Initial(start, delay)
    ensures Inv(start)
  {
  }

  /** Of all callers at most one is inside a run, and the status says running only while it holds the lock. */
  lemma RunsNeverOverlap(start: Sync, delay: Time, run: seq<Step>, a: Runner, b: Runner)
    requires Initial(start, delay) && Possible(start, run)
    ensures InRun(PhaseOf(After(start, run), a)) && InRun(PhaseOf(After(start, run), b)) ==> a == b
    ensures After(start, run).status.running ==>
              After(start, run).holder.Some? && After(start, run).status.trigger == After(start, run).holder
  {
    RunKeepsInv(start, delay, run);
  }

  /** Every scheduled attempt starts at least one interval after the previous one ended. */
  lemma ScheduledAttemptsAreSpaced(start: Sync, delay: Time, run: seq<Step>, i: nat)
    requires Initial(start, delay) && Possible(start, run) && i + 1 < |After(start, run).attempts|
    ensures var attempts := After(start, run).attempts;
            Ended(attempts[i]) && attempts[i + 1].start >= attempts[i].end.value + start.interval
  {
    hide Exclusive, LoopRight, Past, Possible, After, Initial;
    RunKeepsInv(start, delay, run);
    var attempts := After(start, run).attempts;
    assert SpacedAt(attempts, start.interval, i + 1);
    assert attempts[..i + 1][i] == attempts[i];
  }

  /** A busy scheduled attempt leaves the lock and the status alone and is followed by a full interval. */
  lemma BusyAttemptChangesNothing(s: Sync)
    requires Inv(s) && Enabled(s, TryLock(Scheduler)) && s.holder.Some?
    ensures var t := Next(s, TryLock(Scheduler));
            t.holder == s.holder && t.status == s.status && t.reset == s.reset && t.loop.Computing? && Later(t.attempts, t.interval, t.now + t.interval)
  {
    StepKeepsLoop(s, TryLock(Scheduler));
  }

  // ----- resets postpone -----

  ghost predicate Near(s: Sync) {
    && s.due <= s.now + s.interval
    && (s.loop.Rearming? ==> s.loop.next <= s.now + s.interval)
    && (s.loop.Resetting? ==> s.loop.next <= s.now + s.interval)
  }

  /** What is set as the next time never lies before the time that was set earlier. */
  ghost predicate Postponed(s: Sync, due: Time) {
    && s.due >= due
    && (s.loop.Rearming? ==> s.loop.next >= due)
    && (s.loop.Resetting? ==> s.loop.next >= due)
  }

  lemma StepKeepsNear(s: Sync, x: Step)
    requires Near(s) && Enabled(s, x)
    ensures Near(Next(s, x)) && Next(s, x).interval == s.interval
  {
  }

  lemma StepPostpones(s: Sync, x: Step, due: Time)
    requires Near(s) && Postponed(s, due) && Enabled(s, x)
    ensures Postponed(Next(s, x), due)
  {
  }

  lemma {:induction false} RunKeepsNear(start: Sync, delay: Time, run: seq<Step>)
    requires Initial(start, delay) && delay <= start.interval && Possible(start, run)
    ensures Near(After(start, run)) && Postponed(After(start, run), After(start, run).due)
  {
    if run != [] {
      hide Near, Postponed, Initial, Enabled;
      var before, x := run[..|run| - 1], run[|run| - 1];
      RunKeepsNear(start, delay, before);
      StepKeepsNear(After(start, before), x);
      StepKeepsOrder(After(start, before), x);
    }
  }

  lemma StepKeepsOrder(s: Sync, x: Step)
    requires Near(s) && Postponed(s, s.due) && Enabled(s, x)
    ensures Postponed(Next(s, x), Next(s, x).due)
  {
  }

  /** Resets and runs never bring the next scheduled attempt forward, as long as the startup delay is within one interval. */
  lemma {:induction false} TimerOnlyMovesLater(start: Sync, delay: Time, run: seq<Step>, k: nat)
    requires Initial(start, delay) && delay <= start.interval && Possible(start, run) && k <= |run|
    ensures Possible(start, run[..k]) && Postponed(After(start, run), After(start, run[..k]).due)
  {
    hide Near, Postponed, Initial, Enabled;
    if k == |run| {
      assert run[..k] == run;
      RunKeepsNear(start, delay, run);
    } else {
      var before := run[..|run| - 1];
      assert before[..k] == run[..k];
      TimerOnlyMovesLater(start, delay, before, k);
      RunKeepsNear(start, delay, before);
      StepPostpones(After(start, before), run[|run| - 1], After(start, run[..k]).due);
    }
  }

  // ----- manual runs -----

  /** No manual run has completed without the scheduler having noticed. */
  ghost predicate Noticed(s: Sync) {
    !s.reset && forall r: Runner :: r.Manual? ==> !PhaseOf(s, r).Completed?
  }

  /** Once noticed, a completed manual run has moved the next attempt an interval away. */
  ghost predicate KeepsDistance(s: Sync) {
    s.finished.Some? ==>
      && s.finished.value <= s.now
      && (Noticed(s) ==> match s.loop
                         case Selecting => s.due >= s.finished.value + s.interval
                         case Rearming(next) => next >= s.finished.value + s.interval
                         case Resetting(next, _) => next >= s.finished.value + s.interval
                         case _ => true)
  }

  /** Only taking the reset makes the scheduler notice. */
  lemma NoticedBefore(s: Sync, x: Step)
    requires Enabled(s, x) && Noticed(Next(s, x)) && !x.TakeReset?
    ensures Noticed(s) && !(x.Complete? && x.r.Manual?)
  {
    var t := Next(s, x);
    assert x.Complete? ==> PhaseOf(t, x.r).Completed?;
    forall r: Runner | r.Manual? ensures !PhaseOf(s, r).Completed? {
      assert !PhaseOf(t, r).Completed?;
    }
  }

  lemma StepKeepsDistance(s: Sync, x: Step)
    requires KeepsDistance(s) && Enabled(s, x)
    ensures KeepsDistance(Next(s, x))
  {
    hide Noticed;
    if Noticed(Next(s, x)) && !x.TakeReset? { NoticedBefore(s, x); }
  }

  lemma {:induction false} RunKeepsDistance(start: Sync, delay: Time, run: seq<Step>)
    requires Initial(start, delay) && Possible(start, run)
    ensures KeepsDistance(After(start, run))
  {
    if run != [] {
      hide KeepsDistance, Enabled;
      RunKeepsDistance(start, delay, run[..|run| - 1]);
      StepKeepsDistance(After(start, run[..|run| - 1]), run[|run| - 1]);
    }
  }

  /**
    A scheduled attempt cannot start within an interval of the last manual run
    once the scheduler has noticed it: no reset is waiting and no manual run
    stands between completing and asking for one.
  */
  lemma NoticedManualRunsPostpone(start: Sync, delay: Time, run: seq<Step>)
    requires Initial(start, delay) && Possible(start, run) && Enabled(After(start, run), TakeTick)
    requires Noticed(After(start, run)) && After(start, run).finished.Some?
    ensures After(start, run).now >= After(start, run).finished.value + start.interval
  {
    hide Initial, Possible, After, Exclusive, Spaced, Noticed, Past;
    RunKeepsDistance(start, delay, run);
    RunKeepsInv(start, delay, run);
  }

  lemma Extend(start: Sync, run: seq<Step>, x: Step)
    requires Possible(start, run) && Enabled(After(start, run), x)
    ensures Possible(start, run + [x]) && After(start, run + [x]) == Next(After(start, run), x)
  {
    assert (run + [x])[..|run|] == run;
  }

  /**
    Until it has noticed nothing is guaranteed: with the timer ticked already,
    the select may take the tick although a reset is waiting, or before one is
    asked for, and a scheduled attempt may start at any distance from the
    completion of the manual run, also at the same moment.
  */
  lemma ScheduledMayFollowManual(start: Sync, delay: Time, gap: Time, asked: bool) returns (run: seq<Step>)
    requires Initial(start, delay) && gap >= 0
    ensures Possible(start, run) && After(start, run).attempts == [Attempt(After(start, run).now, None)]
    ensures After(start, run).finished == Some(After(start, run).now - gap)
    ensures if asked then After(start, run).reset else PhaseOf(After(start, run), Manual(0)).Completed?
  {
    hide Possible, After;
    var m := Manual(0);
    Start(start);
    Extend(start, [], Pass(start.now + delay));
    run := [] + [Pass(start.now + delay)];
    Extend(start, run, Fire);
    run := run + [Fire];
    run := ManualRun(start, run, m);
    if asked { run := ManualEnd(start, run, m); }
    ghost var now := After(start, run).now + gap;
    Extend(start, run, Pass(now));
    run := run + [Pass(now)];
    Extend(start, run, TakeTick);
    run := run + [TakeTick];
  }

  /** A manual run from an idle state up to its completion, with nothing in between. */
  lemma ManualRun(start: Sync, before: seq<Step>, m: Runner) returns (run: seq<Step>)
    requires Possible(start, before) && m.Manual? && PhaseOf(After(start, before), m).Outside? && After(start, before).holder.None?
    ensures Possible(start, run)
    ensures var s, t := After(start, before), After(start, run);
            PhaseOf(t, m).Completed? && t.finished == Some(t.now) && t.now == s.now && t.timer == s.timer && t.loop == s.loop && t.attempts == s.attempts
  {
    hide Possible, After;
    Extend(start, before, Call(m.id));
    run := before + [Call(m.id)];
    Extend(start, run, TryLock(m));
    run := run + [TryLock(m)];
    Extend(start, run, Mark(m));
    run := run + [Mark(m)];
    Extend(start, run, Complete(m));
    run := run + [Complete(m)];
  }

  /** It asks for a reset and returns. */
  lemma ManualEnd(start: Sync, before: seq<Step>, m: Runner) returns (run: seq<Step>)
    requires Possible(start, before) && m.Manual? && PhaseOf(After(start, before), m).Completed?
    ensures Possible(start, run)
    ensures var s, t := After(start, before), After(start, run);
            t.reset && t.finished == s.finished && t.now == s.now && t.timer == s.timer && t.loop == s.loop && t.attempts == s.attempts
  {
    hide Possible, After;
    Extend(start, before, Step.Signal(m));
    run := before + [Step.Signal(m)];
    Extend(start, run, Unlock(m));
    run := run + [Unlock(m)];
  }

  lemma Start(start: Sync)
    ensures Possible(start, []) && After(start, []) == start
  {
  }
}
