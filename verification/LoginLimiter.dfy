/**
  Failed logins per source: a fixed window, a lockout and a bound on tracked
  sources; and the sessions of successful logins.
*/
module LoginLimiter {
  import opened Prelude
  import opened Schema

  const WINDOW := 5 * MINUTE
  const LOCKOUT := 5 * MINUTE
  const MAX_FAILURES := 5
  const MAX_SOURCES := 4096

  type Source = string
  /** A session value; its digest is represented by the value itself. */
  type SessionId = string

  datatype State = State(windowStart: Time, blockedUntil: Option<Time>, lastSeen: Time, failures: nat)

  // ----- one source -----

  function Outdated(s: State, now: Time): bool {
    now < s.windowStart || now - s.windowStart >= WINDOW
  }

  predicate Blocked(s: Option<State>, now: Time) {
    s.Some? && s.value.blockedUntil.Some? && now < s.value.blockedUntil.value
  }

  /** What a check leaves behind. */
  function AfterCheck(s: Option<State>, now: Time): Option<State> {
    if s.Some? && !Blocked(s, now) && (s.value.blockedUntil.Some? || Outdated(s.value, now)) then None else s
  }

  function AfterFailure(s: Option<State>, now: Time): State {
    var base := if s.None? || Outdated(s.value, now) then State(now, None, now, 0) else s.value;
    var failures := base.failures + 1;
    State(base.windowStart, if failures >= MAX_FAILURES then Some(now + LOCKOUT) else base.blockedUntil, now, failures)
  }

  // ----- runs of one source -----

  /** A check, followed by a failure unless the attempt was denied or failed for another reason. */
  datatype Attempt = Attempt(checkedAt: Time, failedAt: Option<Time>)

  /** The recorded failures, each with the position of the first failure of its window. */
  datatype Trace = Trace(state: Option<State>, times: seq<Time>, starts: seq<nat>, clock: Time)

  function AfterAttempt(t: Trace, a: Attempt): Trace
    requires |t.starts| == |t.times|
  {
    var s := AfterCheck(t.state, a.checkedAt);
    if Blocked(t.state, a.checkedAt) || a.failedAt.None? then t.(state := s, clock := a.checkedAt) else
      var now := a.failedAt.value;
      var opens := s.None? || Outdated(s.value, now) || |t.times| == 0;
      Trace(Some(AfterFailure(s, now)), t.times + [now], t.starts + [if opens then |t.times| else t.starts[|t.starts| - 1]], now)
  }

  function Play(start: Time, attempts: seq<Attempt>): (t: Trace)
    ensures |t.starts| == |t.times|
  {
    if attempts == [] then Trace(None, [], [], start)
    else AfterAttempt(Play(start, attempts[..|attempts| - 1]), attempts[|attempts| - 1])
  }

  /** The clock does not run backwards. */
  predicate InOrder(start: Time, attempts: seq<Attempt>) {
    attempts == [] ||
    var before, last := attempts[..|attempts| - 1], attempts[|attempts| - 1];
    && InOrder(start, before)
    && Play(start, before).clock <= last.checkedAt
    && (last.failedAt.Some? ==> last.checkedAt <= last.failedAt.value)
  }

  ghost predicate Windows(t: Trace) {
    && |t.starts| == |t.times|
    && (forall i, j :: 0 <= i <= j < |t.times| ==> t.times[i] <= t.times[j])
    && (forall j :: 0 <= j < |t.times| ==> t.starts[j] <= j < t.starts[j] + MAX_FAILURES && t.starts[t.starts[j]] == t.starts[j])
    && (forall j :: 0 < j < |t.times| && t.starts[j] == j ==> FollowsOn(t.times, t.starts[j - 1], j, t.times[j]))
  }

  /** A new window may open only one window length after the old one, or after the lockout of a full one. */
  ghost predicate FollowsOn(times: seq<Time>, first: nat, end: nat, now: Time)
    requires first < end <= |times|
  {
    && now >= times[first] + WINDOW
    && (end - first == MAX_FAILURES ==> now >= times[end - 1] + LOCKOUT)
  }

  ghost predicate StateMatches(t: Trace) {
    && Windows(t)
    && (forall j :: 0 <= j < |t.times| ==> t.times[j] <= t.clock)
    && var n := |t.times|;
       match t.state
       case None => n > 0 ==> FollowsOn(t.times, t.starts[n - 1], n, t.clock)
       case Some(s) =>
         n > 0
         && var first := t.starts[n - 1];
            s == State(t.times[first], if n - first == MAX_FAILURES then Some(t.times[n - 1] + LOCKOUT) else None, t.times[n - 1], n - first)
  }

  lemma AttemptKeepsMatch(t: Trace, a: Attempt)
    requires StateMatches(t) && t.clock <= a.checkedAt && (a.failedAt.Some? ==> a.checkedAt <= a.failedAt.value)
    ensures StateMatches(AfterAttempt(t, a))
  {
    hide FollowsOn;
    if Blocked(t.state, a.checkedAt) || a.failedAt.None? {
      CheckKeepsMatch(t, a.checkedAt);
    } else {
      var now, n := a.failedAt.value, |t.times|;
      var s := AfterCheck(t.state, a.checkedAt);
      var first := if s.None? || Outdated(s.value, now) || n == 0 then n else t.starts[n - 1];
      CheckedLaterFails(t, a.checkedAt, now);
      FailureKeepsWindows(t, Some(AfterFailure(s, now)), now, first);
      FailureMatches(t, s, now, first);
    }
  }

  lemma CheckKeepsMatch(t: Trace, now: Time)
    requires StateMatches(t) && t.clock <= now
    ensures StateMatches(t.(state := AfterCheck(t.state, now), clock := now))
  {
  }

  /** When the next failure opens a window, it comes late enough after the current one. */
  lemma CheckedLaterFails(t: Trace, checkedAt: Time, now: Time)
    requires StateMatches(t) && t.clock <= checkedAt <= now && !Blocked(t.state, checkedAt)
    ensures var n, s := |t.times|, AfterCheck(t.state, checkedAt);
            if s.None? || Outdated(s.value, now) then n > 0 ==> FollowsOn(t.times, t.starts[n - 1], n, now)
            else n > 0 && n - t.starts[n - 1] < MAX_FAILURES && s == t.state
  {
  }

  lemma FailureMatches(t: Trace, s: Option<State>, now: Time, first: nat)
    requires StateMatches(t) && (s.None? || s == t.state)
    requires first == if s.None? || Outdated(s.value, now) then |t.times| else t.starts[|t.times| - 1]
    requires s.Some? && !Outdated(s.value, now) ==> |t.times| - first < MAX_FAILURES
    requires Windows(Trace(Some(AfterFailure(s, now)), t.times + [now], t.starts + [first], now))
    requires forall j :: 0 <= j < |t.times| ==> t.times[j] <= now
    ensures StateMatches(Trace(Some(AfterFailure(s, now)), t.times + [now], t.starts + [first], now))
  {
  }

  /** The next failure opens a window of its own or joins the current one. */
  lemma FailureKeepsWindows(t: Trace, s: Option<State>, now: Time, first: nat)
    requires Windows(t) && forall j :: 0 <= j < |t.times| ==> t.times[j] <= now
    requires first == |t.times| || (|t.times| > 0 && first == t.starts[|t.times| - 1] && |t.times| - first < MAX_FAILURES)
    requires first == |t.times| && first > 0 ==> FollowsOn(t.times, t.starts[first - 1], first, now)
    ensures Windows(Trace(s, t.times + [now], t.starts + [first], now))
  {
    hide FollowsOn;
    var n, times, starts := |t.times|, t.times + [now], t.starts + [first];
    forall j | 0 <= j <= n ensures starts[j] <= j < starts[j] + MAX_FAILURES && starts[starts[j]] == starts[j] {
      if j < n { assert t.starts[t.starts[j]] == t.starts[j]; }
    }
    forall j | 0 < j <= n && starts[j] == j ensures FollowsOn(times, starts[j - 1], j, times[j]) {
      FollowsOnExtends(t.times, now, t.starts[j - 1], j, times[j]);
    }
  }

  lemma FollowsOnExtends(times: seq<Time>, more: Time, first: nat, end: nat, now: Time)
    requires first < end <= |times| && FollowsOn(times, first, end, now)
    ensures FollowsOn(times + [more], first, end, now)
  {
  }

  lemma {:induction false} RunMatches(start: Time, attempts: seq<Attempt>)
    requires InOrder(start, attempts)
    ensures StateMatches(Play(start, attempts))
  {
    if attempts != [] {
      RunMatches(start, attempts[..|attempts| - 1]);
      AttemptKeepsMatch(Play(start, attempts[..|attempts| - 1]), attempts[|attempts| - 1]);
    }
  }

  /** Nine failures of one source never fit into one window length. */
  lemma NineFailuresTakeAWindow(start: Time, attempts: seq<Attempt>, i: nat)
    requires InOrder(start, attempts) && i + 8 < |Play(start, attempts).times|
    ensures Play(start, attempts).times[i + 8] >= Play(start, attempts).times[i] + WINDOW
  {
    RunMatches(start, attempts);
    var t := Play(start, attempts);
    var c := t.starts[i + 8];
    assert t.starts[c] == c && FollowsOn(t.times, t.starts[c - 1], c, t.times[c]);
  }

  /** The failures inside a half-open interval of one window length. */
  ghost function FailuresWithin(times: seq<Time>, from: Time): set<nat> {
    set j | 0 <= j < |times| && from <= times[j] < from + WINDOW
  }

  lemma {:induction false} Least(s: set<nat>, bound: nat) returns (m: nat)
    requires exists j :: j in s && j < bound
    ensures m in s && forall j <- s :: m <= j
  {
    if bound == 1 || forall j :: j in s ==> j >= bound - 1 {
      m := bound - 1;
    } else {
      m := Least(s, bound - 1);
    }
  }

  /** At most eight failures are recorded within any interval of one window length, although a window ends at five. */
  lemma AtMostEightPerWindow(start: Time, attempts: seq<Attempt>, from: Time)
    requires InOrder(start, attempts)
    ensures |FailuresWithin(Play(start, attempts).times, from)| <= 8
  {
    hide Play, InOrder;
    var times := Play(start, attempts).times;
    var s := FailuresWithin(times, from);
    if s != {} {
      var some :| some in s;
      var m := Least(s, |times|);
      Increasing(start, attempts);
      forall j <- s ensures m <= j < m + 8 {
        if j >= m + 8 {
          NineFailuresTakeAWindow(start, attempts, m);
        }
      }
      SizeWithin(s, m, 8);
    }
  }

  lemma Increasing(start: Time, attempts: seq<Attempt>)
    requires InOrder(start, attempts)
    ensures forall i, j :: 0 <= i <= j < |Play(start, attempts).times| ==> Play(start, attempts).times[i] <= Play(start, attempts).times[j]
  {
    RunMatches(start, attempts);
  }

  const LATE := WINDOW - SECOND

  function FailingAt(now: Time): Attempt {
    Attempt(now, Some(now))
  }

  lemma LateFailures(attempts: seq<Attempt>)
    requires attempts == [FailingAt(0), FailingAt(LATE), FailingAt(LATE), FailingAt(LATE)]
    ensures InOrder(0, attempts)
    ensures Play(0, attempts) == Trace(Some(State(0, None, LATE, 4)), [0, LATE, LATE, LATE], [0, 0, 0, 0], LATE)
  {
    hide Play, InOrder;
    var a := FailingAt(LATE);
    Nothing(0);
    Extend(0, [], FailingAt(0), Trace(Some(State(0, None, 0, 1)), [0], [0], 0));
    var one := [FailingAt(0)];
    assert [] + one == one;
    Extend(0, one, a, Trace(Some(State(0, None, LATE, 2)), [0, LATE], [0, 0], LATE));
    assert one + [a, a] == one + [a] + [a];
    Extend(0, one + [a], a, Trace(Some(State(0, None, LATE, 3)), [0, LATE, LATE], [0, 0, 0], LATE));
    assert one + [a, a, a] == one + [a, a] + [a];
    Extend(0, one + [a, a], a, Trace(Some(State(0, None, LATE, 4)), [0, LATE, LATE, LATE], [0, 0, 0, 0], LATE));
    assert attempts == one + [a, a, a];
  }

  /** Eight is reached: three failures late in a window that never filled up, then a full window. */
  lemma EightIsReached(attempts: seq<Attempt>)
    requires attempts == [FailingAt(0), FailingAt(LATE), FailingAt(LATE), FailingAt(LATE), FailingAt(WINDOW),
                          FailingAt(WINDOW), FailingAt(WINDOW), FailingAt(WINDOW), FailingAt(WINDOW)]
    ensures InOrder(0, attempts)
    ensures FailuresWithin(Play(0, attempts).times, LATE) == {1, 2, 3, 4, 5, 6, 7, 8}
  {
    hide Play, InOrder;
    LateFailures(attempts[..4]);
    FullWindow(0, attempts[..4], LATE, WINDOW, [0, LATE, LATE, LATE], [0, 0, 0, 0]);
    assert attempts == attempts[..4] + [FailingAt(WINDOW), FailingAt(WINDOW), FailingAt(WINDOW), FailingAt(WINDOW), FailingAt(WINDOW)];
  }

  lemma FullWindow(start: Time, attempts: seq<Attempt>, late: Time, now: Time, times: seq<Time>, starts: seq<nat>)
    requires InOrder(start, attempts) && |times| == |starts| == 4 && 0 <= late <= now && now >= WINDOW
    requires Play(start, attempts) == Trace(Some(State(0, None, late, 4)), times, starts, late)
    ensures var a := FailingAt(now);
            InOrder(start, attempts + [a, a, a, a, a]) && Play(start, attempts + [a, a, a, a, a]).times == times + [now, now, now, now, now]
  {
    hide Play, InOrder;
    var a := FailingAt(now);
    Extend(start, attempts, a, Trace(Some(State(now, None, now, 1)), times + [now], starts + [4], now));
    assert attempts + [a, a] == attempts + [a] + [a];
    Extend(start, attempts + [a], a, Trace(Some(State(now, None, now, 2)), times + [now, now], starts + [4, 4], now));
    assert attempts + [a, a, a] == attempts + [a, a] + [a];
    Extend(start, attempts + [a, a], a, Trace(Some(State(now, None, now, 3)), times + [now, now, now], starts + [4, 4, 4], now));
    assert attempts + [a, a, a, a] == attempts + [a, a, a] + [a];
    Extend(start, attempts + [a, a, a], a, Trace(Some(State(now, None, now, 4)), times + [now, now, now, now], starts + [4, 4, 4, 4], now));
    assert attempts + [a, a, a, a, a] == attempts + [a, a, a, a] + [a];
    Extend(start, attempts + [a, a, a, a], a,
           Trace(Some(State(now, Some(now + LOCKOUT), now, 5)), times + [now, now, now, now, now], starts + [4, 4, 4, 4, 4], now));
  }

  lemma Nothing(start: Time)
    ensures InOrder(start, []) && Play(start, []) == Trace(None, [], [], start)
  {
  }

  lemma Extend(start: Time, attempts: seq<Attempt>, a: Attempt, u: Trace)
    requires InOrder(start, attempts) && Play(start, attempts).clock <= a.checkedAt
    requires a.failedAt.Some? ==> a.checkedAt <= a.failedAt.value
    requires AfterAttempt(Play(start, attempts), a) == u
    ensures InOrder(start, attempts + [a]) && Play(start, attempts + [a]) == u
  {
    assert (attempts + [a])[..|attempts|] == attempts;
  }

  /** From the fifth failure of a window on, every attempt within the lockout is denied. */
  lemma FullWindowLocksOut(start: Time, attempts: seq<Attempt>, now: Time)
    requires InOrder(start, attempts) && Play(start, attempts).clock <= now
    ensures var t := Play(start, attempts);
            Blocked(t.state, now) <==>
            && |t.times| > 0 && |t.times| - t.starts[|t.times| - 1] == MAX_FAILURES
            && now < t.times[|t.times| - 1] + LOCKOUT
  {
    RunMatches(start, attempts);
  }

  // ----- the tracked sources and sessions -----

  function Entry(m: map<Source, State>, source: Source): Option<State> {
    if source in m then Some(m[source]) else None
  }

  function Put(m: map<Source, State>, source: Source, s: Option<State>): map<Source, State> {
    if s.Some? then m[source := s.value] else m - {source}
  }

  predicate Expired(s: State, now: Time) {
    if s.blockedUntil.Some? then now >= s.blockedUntil.value else now - s.lastSeen >= WINDOW
  }

  /** What eviction does to a table: a small one stays; otherwise expired entries go, then the oldest. */
  ghost predicate Evicted(m: map<Source, State>, after: map<Source, State>, now: Time) {
    && after.Keys <= m.Keys && (forall source <- after :: after[source] == m[source])
    && |after| <= MAX_SOURCES
    && (|m| <= MAX_SOURCES ==> after == m)
    && (|m| > MAX_SOURCES ==> forall source <- after :: !Expired(after[source], now))
    && ("" !in m ==> forall gone <- m, kept <- after :: gone !in after && !Expired(m[gone], now) ==> m[gone].lastSeen <= m[kept].lastSeen)
    && (|after| < MAX_SOURCES && |m| > MAX_SOURCES ==> forall gone <- m :: gone !in after ==> Expired(m[gone], now))
  }

  datatype SessionOp = Created(id: SessionId, expiresAt: Time) | LoggedOut(id: SessionId)

  /** The expiry of a session that was created and not logged out since. */
  function OpenUntil(log: seq<SessionOp>, id: SessionId): Option<Time> {
    if log == [] then None else
      var last := log[|log| - 1];
      if last.id == id then (if last.Created? then Some(last.expiresAt) else None) else OpenUntil(log[..|log| - 1], id)
  }

  lemma {:induction false} OpenAfter(log: seq<SessionOp>, op: SessionOp, id: SessionId)
    ensures OpenUntil(log + [op], id) ==
            if op.id != id then OpenUntil(log, id) else if op.Created? then Some(op.expiresAt) else None
  {
    assert (log + [op])[..|log|] == log;
  }

  class AdminAuth {
    var sessions: map<SessionId, Time>
    var loginFailures: map<Source, State>
    /** The creations and logouts so far, and the latest time that was looked at. */
    ghost var log: seq<SessionOp>
    ghost var latest: Time

    ghost predicate Valid()
      reads this
    {
      && |loginFailures| <= MAX_SOURCES
      && (forall id :: id in sessions ==> OpenUntil(log, id) == Some(sessions[id]))
      && (forall id :: id !in sessions && OpenUntil(log, id).Some? ==> OpenUntil(log, id).value <= latest)
    }

    constructor (ghost now: Time)
      ensures Valid() && log == [] && loginFailures == map[]
    {
      sessions, loginFailures, log, latest := map[], map[], [], now;
    }

    method LoginAllowed(source: Source, now: Time) returns (allowed: bool, retryAfter: Time)
      requires Valid()
      modifies this`loginFailures
      ensures Valid()
      ensures allowed <==> !Blocked(Entry(old(loginFailures), source), now)
      ensures loginFailures == Put(old(loginFailures), source, AfterCheck(Entry(old(loginFailures), source), now))
      ensures if allowed then retryAfter == 0
              else forall t :: now <= t ==> (Blocked(Entry(loginFailures, source), t) <==> t < now + retryAfter)
    {
      if source !in loginFailures { return true, 0; }
      var state := loginFailures[source];
      if state.blockedUntil.Some? && now < state.blockedUntil.value {
        assert Put(loginFailures, source, Some(state)) == loginFailures;
        return false, state.blockedUntil.value - now;
      }
      if state.blockedUntil.Some? || now < state.windowStart || now - state.windowStart >= WINDOW {
        FewerEntries(loginFailures, source);
        loginFailures := loginFailures - {source};
      }
      return true, 0;
    }

    method RecordLoginFailure(source: Source, now: Time)
      requires Valid()
      modifies this`loginFailures
      ensures Valid()
      ensures Evicted(old(loginFailures)[source := AfterFailure(Entry(old(loginFailures), source), now)], loginFailures, now)
    {
      var state := State(now, None, now, 0);
      if source in loginFailures && !(now < loginFailures[source].windowStart || now - loginFailures[source].windowStart >= WINDOW) {
        state := loginFailures[source];
      }
      state := state.(failures := state.failures + 1, lastSeen := now);
      if state.failures >= MAX_FAILURES { state := state.(blockedUntil := Some(now + LOCKOUT)); }
      loginFailures := loginFailures[source := state];
      LimitLoginFailureEntries(now);
    }

    method ClearLoginFailures(source: Source)
      requires Valid()
      modifies this`loginFailures
      ensures Valid() && loginFailures == old(loginFailures) - {source}
    {
      FewerEntries(loginFailures, source);
      loginFailures := loginFailures - {source};
    }

    /** Keeps the table small: expired entries first, then the source that failed longest ago. */
    method LimitLoginFailureEntries(now: Time)
      modifies this`loginFailures
      ensures Evicted(old(loginFailures), loginFailures, now)
    {
      if |loginFailures| <= MAX_SOURCES { return; }
      var all := loginFailures;
      loginFailures := map source | source in loginFailures && !Expired(loginFailures[source], now) :: loginFailures[source];
      while |loginFailures| > MAX_SOURCES
        invariant loginFailures.Keys <= all.Keys && forall source <- loginFailures :: loginFailures[source] == all[source] && !Expired(all[source], now)
        invariant "" !in all ==> forall gone <- all, kept <- loginFailures ::
                    gone !in loginFailures && !Expired(all[gone], now) ==> all[gone].lastSeen <= all[kept].lastSeen
        invariant |loginFailures| >= MAX_SOURCES || forall gone <- all :: gone !in loginFailures ==> Expired(all[gone], now)
        decreases |loginFailures|
      {
        var oldest := Oldest(loginFailures);
        OneFewer(loginFailures, oldest);
        loginFailures := loginFailures - {oldest};
      }
    }

    /** One pass over the table in any order; the empty name stands for nothing chosen yet. */
    method Oldest(m: map<Source, State>) returns (oldest: Source)
      requires |m| > 0
      ensures oldest in m
      ensures "" !in m ==> forall source <- m :: m[oldest].lastSeen <= m[source].lastSeen
    {
      oldest := "";
      var oldestSeen := 0;
      var rest := m.Keys;
      while rest != {}
        invariant rest <= m.Keys
        invariant rest == m.Keys || (oldest in m && oldestSeen == m[oldest].lastSeen)
        invariant rest == m.Keys ==> oldest == ""
        invariant "" !in m ==> forall source <- m :: source !in rest ==> oldestSeen <= m[source].lastSeen
        decreases rest
      {
        var source :| source in rest;
        if oldest == "" || m[source].lastSeen < oldestSeen {
          oldest, oldestSeen := source, m[source].lastSeen;
        }
        rest := rest - {source};
      }
      assert |m.Keys| > 0;
    }

    method CreateSession(id: SessionId, now: Time, ttl: Time)
      requires Valid()
      modifies this`sessions, this`log, this`latest
      ensures Valid() && log == old(log) + [Created(id, now + ttl)]
    {
      sessions := map s | s in sessions && now < sessions[s] :: sessions[s];
      sessions := sessions[id := now + ttl];
      forall s ensures OpenUntil(log + [Created(id, now + ttl)], s) == if s == id then Some(now + ttl) else OpenUntil(log, s) {
        OpenAfter(log, Created(id, now + ttl), s);
      }
      log := log + [Created(id, now + ttl)];
      latest := if now > latest then now else latest;
    }

    /** A session is accepted only while it is open; an expired one may be forgotten, and then stays so. */
    method ValidSession(id: SessionId, now: Time) returns (ok: bool)
      requires Valid()
      modifies this`sessions, this`latest
      ensures Valid() && latest >= now && latest >= old(latest)
      ensures ok ==> OpenUntil(log, id).Some? && now < OpenUntil(log, id).value && id != ""
      ensures id != "" && OpenUntil(log, id).Some? && latest < OpenUntil(log, id).value ==> ok
    {
      latest := if now > latest then now else latest;
      if id == "" || id !in sessions { return false; }
      if now >= sessions[id] {
        sessions := sessions - {id};
        return false;
      }
      return true;
    }

    method Logout(id: SessionId)
      requires Valid()
      modifies this`sessions, this`log
      ensures Valid() && log == old(log) + [LoggedOut(id)]
      ensures OpenUntil(log, id).None?
    {
      forall s ensures OpenUntil(log + [LoggedOut(id)], s) == if s == id then None else OpenUntil(log, s) {
        OpenAfter(log, LoggedOut(id), s);
      }
      sessions := sessions - {id};
      log := log + [LoggedOut(id)];
    }
  }

  lemma FewerEntries(m: map<Source, State>, source: Source)
    ensures |m - {source}| <= |m|
  {
    if source in m { OneFewer(m, source); } else { assert m - {source} == m; }
  }

  lemma OneFewer(m: map<Source, State>, source: Source)
    requires source in m
    ensures |m - {source}| == |m| - 1
  {
    assert (m - {source}).Keys == m.Keys - {source};
    assert |(m - {source}).Keys| == |m.Keys| - 1;
  }
}
