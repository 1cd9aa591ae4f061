/** The calendar-time SLA clock: a budget that pauses freeze. Instants are milliseconds. */
module SlaClock {
  import opened Options
  import opened Counting
  import Sorting

  datatype Pause = Pause(start: int, end: Option<int>)

  datatype State = OnTrack | Warning | Breached | Paused | Met

  datatype Result = Result(due: int, state: State, remaining: int, paused: bool, completed: bool, escalate: bool)

  const MINUTE := 60000
  const MAX_MINUTES := 525600
  const MAX_DATE := 8640000000000000

  /** What an objective is evaluated from. */
  datatype Objective = Objective(started: int, minutes: int, fraction: real, now: int, completed: Option<int>, pauses: seq<Pause>) {
    function Evaluated(): int {
      completed.Or(now)
    }

    function Budget(): int {
      minutes * MINUTE
    }
  }

  // ---------------------------------------------------------------------------
  // Pauses as sets of instants
  // ---------------------------------------------------------------------------

  /** The clock stands still at t. */
  predicate Frozen(pauses: seq<Pause>, t: int) {
    exists i :: 0 <= i < |pauses| && Covers(pauses[i], t)
  }

  predicate Covers(p: Pause, t: int) {
    p.start <= t && (p.end.Some? ==> t < p.end.value)
  }

  function FrozenFrom(pauses: seq<Pause>, started: int): nat -> bool {
    (k: nat) => Frozen(pauses, started + k)
  }

  /** How many milliseconds from `started` up to `until` are frozen. */
  function Measure(pauses: seq<Pause>, started: int, until: int): nat {
    if until <= started then 0 else Tally(until - started, FrozenFrom(pauses, started))
  }

  // ---------------------------------------------------------------------------
  // Sorting and checking
  // ---------------------------------------------------------------------------

  predicate StartsFirst(p: Pause, q: Pause) {
    p.start <= q.start
  }

  /** The pauses by start. */
  function Sorted(ps: seq<Pause>): (r: seq<Pause>)
    ensures |r| == |ps| && forall p :: p in r <==> p in ps
  {
    Sorting.Sorted(ps, StartsFirst)
  }

  predicate Ordered(s: seq<Pause>) {
    forall i, j :: 0 <= i < j < |s| ==> s[i].start <= s[j].start
  }

  lemma SortedOrders(ps: seq<Pause>)
    ensures Ordered(Sorted(ps)) && (DistinctStarts(ps) ==> DistinctStarts(Sorted(ps)))
  {
    Sorting.SortedIsOrdered(ps, StartsFirst);
    var s := Sorted(ps);
    assert forall i, j :: 0 <= i < j < |s| ==> StartsFirst(s[i], s[j]);
    if DistinctStarts(ps) {
      Sorting.SortedKeepsApart(ps, StartsFirst, (p: Pause) => p.start);
    }
  }

  /** A pause lies within the time that has passed. */
  predicate Within(p: Pause, started: int, now: int) {
    started <= p.start <= now && (p.end.Some? ==> p.start <= p.end.value <= now)
  }

  predicate Before(p: Pause, q: Pause) {
    p.end.Some? && p.end.value <= q.start
  }

  /** What the loop lets through: each pause within range, and each over before the next begins. */
  predicate Chained(s: seq<Pause>, started: int, now: int) {
    && (forall i :: 0 <= i < |s| ==> Within(s[i], started, now))
    && (forall i :: 0 < i < |s| ==> Before(s[i - 1], s[i]))
  }

  predicate DistinctStarts(ps: seq<Pause>) {
    forall i, j :: 0 <= i < j < |ps| ==> ps[i].start != ps[j].start
  }

  /** Pauses in any order that lie within range and do not overlap. */
  ghost predicate Disjoint(ps: seq<Pause>, started: int, now: int) {
    && (forall p :: p in ps ==> Within(p, started, now))
    && (forall p, q :: p in ps && q in ps && p != q ==> Before(p, q) || Before(q, p))
  }

  /** With different starts, the order the pauses are given in does not matter: the loop accepts exactly disjoint ones. */
  lemma AcceptsExactlyDisjoint(ps: seq<Pause>, started: int, now: int)
    requires DistinctStarts(ps)
    ensures Chained(Sorted(ps), started, now) <==> Disjoint(ps, started, now)
  {
    SortedOrders(ps);
    if Chained(Sorted(ps), started, now) {
      ChainedAreDisjoint(Sorted(ps), started, now);
    }
    if Disjoint(Sorted(ps), started, now) {
      DisjointAreChained(Sorted(ps), started, now);
    }
  }

  lemma ChainedAreDisjoint(s: seq<Pause>, started: int, now: int)
    requires Chained(s, started, now)
    ensures Disjoint(s, started, now)
  {
    forall p, q | p in s && q in s && p != q
      ensures Before(p, q) || Before(q, p)
    {
      var i :| 0 <= i < |s| && s[i] == p;
      var j :| 0 <= j < |s| && s[j] == q;
      if i < j {
        ChainedBefore(s, started, now, i, j);
      } else {
        ChainedBefore(s, started, now, j, i);
      }
    }
  }

  lemma DisjointAreChained(s: seq<Pause>, started: int, now: int)
    requires Ordered(s) && DistinctStarts(s) && Disjoint(s, started, now)
    ensures Chained(s, started, now)
  {
    forall i | 0 < i < |s|
      ensures Before(s[i - 1], s[i])
    {
      assert s[i - 1] in s && s[i] in s && s[i - 1].start < s[i].start;
    }
  }

  lemma {:induction false} ChainedBefore(s: seq<Pause>, started: int, now: int, i: nat, j: nat)
    requires Chained(s, started, now) && i < j < |s|
    ensures Before(s[i], s[j])
  {
    if i + 1 < j {
      ChainedBefore(s, started, now, i, j - 1);
      assert Before(s[j - 1], s[j]);
    }
  }

  // ---------------------------------------------------------------------------
  // The measure of the pauses
  // ---------------------------------------------------------------------------

  /** How much of a pause lies before `until`. */
  function Clipped(p: Pause, until: int): nat {
    Max(0, Min(p.end.Or(until), until) - p.start)
  }

  lemma FrozenOneMore(s: seq<Pause>, p: Pause, t: int)
    ensures Frozen(s + [p], t) <==> Frozen(s, t) || Covers(p, t)
  {
    if Frozen(s, t) {
      var i :| 0 <= i < |s| && Covers(s[i], t);
      assert Covers((s + [p])[i], t);
    }
    if Covers(p, t) {
      assert Covers((s + [p])[|s|], t);
    }
  }

  lemma {:induction false} TallyOneMore(s: seq<Pause>, p: Pause, started: int, n: nat)
    requires started <= p.start && (p.end.Some? ==> p.start <= p.end.value)
    requires forall i :: 0 <= i < |s| ==> Before(s[i], p)
    ensures Tally(n, FrozenFrom(s + [p], started)) == Tally(n, FrozenFrom(s, started)) + Clipped(p, started + n)
  {
    if n > 0 {
      TallyOneMore(s, p, started, n - 1);
      FrozenOneMore(s, p, started + n - 1);
    }
  }

  /** A pause after all others adds what it covers of the time up to `until`. */
  lemma MeasureOneMore(s: seq<Pause>, p: Pause, started: int, now: int, until: int)
    requires Chained(s + [p], started, now) && started <= until
    ensures Measure(s + [p], started, until) == Measure(s, started, until) + Clipped(p, until)
  {
    forall i | 0 <= i < |s|
      ensures Before(s[i], p)
    {
      ChainedBefore(s + [p], started, now, i, |s|);
    }
    assert Within((s + [p])[|s|], started, now);
    TallyOneMore(s, p, started, until - started);
  }

  lemma {:induction false} SameTally(n: nat, f: nat -> bool, g: nat -> bool)
    requires forall k: nat :: k < n ==> f(k) == g(k)
    ensures Tally(n, f) == Tally(n, g)
  {
    if n > 0 {
      SameTally(n - 1, f, g);
    }
  }

  lemma SameMeasure(ps: seq<Pause>, qs: seq<Pause>, started: int, until: int)
    requires forall t :: started <= t < until ==> (Frozen(ps, t) <==> Frozen(qs, t))
    ensures Measure(ps, started, until) == Measure(qs, started, until)
  {
    if started < until {
      SameTally(until - started, FrozenFrom(ps, started), FrozenFrom(qs, started));
    }
  }

  lemma SortingKeepsFrozen(ps: seq<Pause>, t: int)
    ensures Frozen(Sorted(ps), t) <==> Frozen(ps, t)
  {
    if Frozen(Sorted(ps), t) {
      var i :| 0 <= i < |ps| && Covers(Sorted(ps)[i], t);
      assert Sorted(ps)[i] in ps;
    }
    if Frozen(ps, t) {
      var i :| 0 <= i < |ps| && Covers(ps[i], t);
      assert ps[i] in Sorted(ps);
    }
  }

  // ---------------------------------------------------------------------------
  // Evaluation
  // ---------------------------------------------------------------------------

  predicate InOrder(o: Objective) {
    o.started <= o.now && (o.completed.Some? ==> o.started <= o.completed.value <= o.now)
  }

  predicate Sensible(o: Objective) {
    0.0 < o.fraction < 1.0 && 1 <= o.minutes <= MAX_MINUTES
  }

  /** The time that has run: all of it but the frozen milliseconds. */
  function Elapsed(o: Objective): int {
    o.Evaluated() - o.started - Measure(o.pauses, o.started, o.Evaluated())
  }

  predicate Late(o: Objective) {
    if o.completed.Some? then Elapsed(o) > o.Budget() else Elapsed(o) >= o.Budget()
  }

  predicate OpenPause(pauses: seq<Pause>) {
    exists i :: 0 <= i < |pauses| && pauses[i].end.None?
  }

  /** What the answer says, in terms of the time that has run. */
  predicate Describes(o: Objective, r: Result) {
    && r.remaining == o.Budget() - Elapsed(o) && r.remaining == r.due - o.Evaluated()
    && r.completed == o.completed.Some? && r.paused == (o.completed.None? && OpenPause(o.pauses))
    && (r.state.Breached? <==> Late(o))
    && (r.state.Met? <==> !Late(o) && o.completed.Some?)
    && (r.state.Paused? <==> !Late(o) && r.paused)
    && (r.state.Warning? <==> !Late(o) && o.completed.None? && !r.paused && Elapsed(o) as real >= o.Budget() as real * o.fraction)
    && (r.escalate <==> Late(o) && o.completed.None?)
  }

  /**
   * The answer can be read off its deadline: an unfinished objective is breached from the deadline on, a completed one only
   * if it was completed after it; the warning is given for the last part of the budget, while the clock runs.
   */
  lemma AnswerFollowsDeadline(o: Objective, r: Result)
    requires Describes(o, r)
    ensures o.completed.None? ==> (r.state.Breached? <==> r.due <= o.now) && (r.escalate <==> r.due <= o.now) && !r.state.Met?
    ensures o.completed.Some? ==> r.state == (if r.due < o.completed.value then Breached else Met) && !r.escalate && !r.paused
    ensures o.completed.None? && o.now < r.due && OpenPause(o.pauses) ==> r.state.Paused?
    ensures o.completed.None? && o.now < r.due && !OpenPause(o.pauses) ==>
      r.state == if (r.due - o.now) as real <= (o.minutes * MINUTE) as real * (1.0 - o.fraction) then Warning else OnTrack
  {
    hide Elapsed, OpenPause;
  }

  predicate Acceptable(o: Objective) {
    InOrder(o) && Sensible(o) && Chained(Sorted(o.pauses), o.started, o.now)
  }

  /** The objective has an answer: its input is in order and its deadline is a date. */
  predicate Evaluable(o: Objective) {
    Acceptable(o) && -MAX_DATE <= o.Evaluated() + o.Budget() - Elapsed(o) <= MAX_DATE
  }

  /** `evaluateSlaObjective` */
  method EvaluateObjective(o: Objective) returns (r: Option<Result>)
    ensures r.Some? <==> Evaluable(o)
    ensures r.Some? ==> Describes(o, r.value)
  {
    hide Measure, Sorted, Chained, OpenPause;
    if o.now < o.started || (o.completed.Some? && (o.completed.value < o.started || o.completed.value > o.now)) {
      return None;
    }
    if o.fraction <= 0.0 || o.fraction >= 1.0 || o.minutes <= 0 || o.minutes > MAX_MINUTES {
      return None;
    }
    var budget := o.minutes * MINUTE;
    var evaluated := o.Evaluated();
    var pauses := Sorted(o.pauses);
    var ok, pauseMs, paused := SumPauses(o, pauses);
    if !ok {
      return None;
    }
    MeasureOfSorted(o.pauses, o.started, evaluated);
    SameOpen(pauses, o.pauses);
    var elapsed := evaluated - o.started - pauseMs;
    var remaining := budget - elapsed;
    var breached := if o.completed.None? then remaining <= 0 else remaining < 0;
    var warned := elapsed as real >= budget as real * o.fraction;
    var state := if breached then Breached else if o.completed.Some? then Met else if paused then Paused
                 else if warned then Warning else OnTrack;
    var due := o.started + budget + pauseMs;
    if !(-MAX_DATE <= due <= MAX_DATE) {
      return None;
    }
    return Some(Result(due, state, remaining, paused, o.completed.Some?, breached && o.completed.None?));
  }

  lemma SameOpen(ps: seq<Pause>, qs: seq<Pause>)
    requires forall p :: p in ps <==> p in qs
    ensures OpenPause(ps) <==> OpenPause(qs)
  {
    if OpenPause(ps) {
      var i :| 0 <= i < |ps| && ps[i].end.None?;
      assert ps[i] in qs;
    }
    if OpenPause(qs) {
      var i :| 0 <= i < |qs| && qs[i].end.None?;
      assert qs[i] in ps;
    }
  }

  lemma MeasureOfSorted(ps: seq<Pause>, started: int, until: int)
    ensures Measure(Sorted(ps), started, until) == Measure(ps, started, until)
  {
    forall t | started <= t < until
      ensures Frozen(Sorted(ps), t) <==> Frozen(ps, t)
    {
      SortingKeepsFrozen(ps, t);
    }
    SameMeasure(Sorted(ps), ps, started, until);
  }

  /** The loop over the sorted pauses: it refuses overlaps and adds up what lies before the moment of evaluation. */
  method SumPauses(o: Objective, pauses: seq<Pause>) returns (ok: bool, pauseMs: nat, paused: bool)
    requires InOrder(o)
    ensures ok <==> Chained(pauses, o.started, o.now)
    ensures ok ==> pauseMs == Measure(pauses, o.started, o.Evaluated())
    ensures ok ==> (paused <==> o.completed.None? && OpenPause(pauses))
  {
    hide Measure, Clipped;
    var evaluated := o.Evaluated();
    var previousEnd := Some(o.started);
    ok, pauseMs, paused := true, 0, false;
    NothingMeasured(o.started, evaluated);
    for n := 0 to |pauses|
      invariant Chained(pauses[..n], o.started, o.now)
      invariant previousEnd == if n == 0 then Some(o.started) else pauses[n - 1].end
      invariant pauseMs == Measure(pauses[..n], o.started, evaluated)
      invariant paused <==> o.completed.None? && OpenPause(pauses[..n])
    {
      var p := pauses[n];
      assert pauses[..n + 1] == pauses[..n] + [p];
      if previousEnd.None? || p.start < previousEnd.value || p.start < o.started || p.start > o.now
        || (p.end.Some? && (p.end.value < p.start || p.end.value > o.now))
      {
        Unchained(pauses, n, o.started, o.now, previousEnd);
        return false, 0, false;
      }
      MeasureOneMore(pauses[..n], p, o.started, o.now, evaluated);
      ClippedIs(p, evaluated);
      previousEnd := p.end;
      if p.start <= evaluated {
        pauseMs := pauseMs + (Min(p.end.Or(evaluated), evaluated) - p.start);
      }
      if o.completed.None? && p.end.None? {
        assert pauses[..n + 1][n].end.None?;
        paused := true;
      }
      OpenOneMore(pauses[..n], p);
    }
    assert pauses[..|pauses|] == pauses;
  }

  lemma OpenOneMore(s: seq<Pause>, p: Pause)
    ensures OpenPause(s + [p]) <==> OpenPause(s) || p.end.None?
  {
    if OpenPause(s) {
      var i :| 0 <= i < |s| && s[i].end.None?;
      assert (s + [p])[i].end.None?;
    }
    if p.end.None? {
      assert (s + [p])[|s|].end.None?;
    }
  }

  lemma ClippedIs(p: Pause, until: int)
    requires p.end.Some? ==> p.start <= p.end.value
    ensures Clipped(p, until) == if p.start <= until then Min(p.end.Or(until), until) - p.start else 0
  {
  }

  lemma Unchained(pauses: seq<Pause>, n: nat, started: int, now: int, previousEnd: Option<int>)
    requires n < |pauses| && previousEnd == if n == 0 then Some(started) else pauses[n - 1].end
    requires var p := pauses[n];
      previousEnd.None? || p.start < previousEnd.value || !Within(p, started, now)
    ensures !Chained(pauses, started, now)
  {
    if n > 0 {
      assert Chained(pauses, started, now) ==> Before(pauses[n - 1], pauses[n]);
    }
  }

  lemma {:induction false} NothingMeasured(started: int, until: int)
    ensures Measure([], started, until) == 0
  {
    if started < until {
      forall k: nat
        ensures !FrozenFrom([], started)(k)
      {
        assert !Frozen([], started + k);
      }
      CountAll(until - started, FrozenFrom([], started));
    }
  }

  // ---------------------------------------------------------------------------
  // How the clock runs
  // ---------------------------------------------------------------------------

  /** A later history: what was closed stays, an open pause may close from now on, and new ones start from now on. */
  predicate Continues(ps: seq<Pause>, later: seq<Pause>, now: int) {
    && |ps| <= |later|
    && (forall i :: 0 <= i < |ps| ==>
          later[i].start == ps[i].start &&
          (later[i].end == ps[i].end || (ps[i].end.None? && later[i].end.Some? && now <= later[i].end.value)))
    && (forall i :: |ps| <= i < |later| ==> now <= later[i].start)
  }

  /** The past does not change: before `now` both histories freeze the same milliseconds. */
  lemma PastStays(ps: seq<Pause>, later: seq<Pause>, now: int, t: int)
    requires Continues(ps, later, now) && t < now
    ensures Frozen(ps, t) <==> Frozen(later, t)
  {
    if Frozen(ps, t) {
      var i :| 0 <= i < |ps| && Covers(ps[i], t);
      assert Covers(later[i], t);
    }
    if Frozen(later, t) {
      var i :| 0 <= i < |later| && Covers(later[i], t);
      assert Covers(ps[i], t);
    }
  }

  lemma {:induction false} TallySplits(n: nat, m: nat, f: nat -> bool)
    requires n <= m
    ensures Tally(n, f) <= Tally(m, f) <= Tally(n, f) + (m - n)
  {
    if n < m {
      TallySplits(n, m - 1, f);
    }
  }

  predicate Later(o: Objective, p: Objective) {
    && p.started == o.started && p.minutes == o.minutes && p.fraction == o.fraction && o.now <= p.now
    && Continues(o.pauses, p.pauses, o.now)
  }

  /** As an unfinished objective's history goes on, its elapsed time never falls and grows no faster than time. */
  lemma ElapsedGrowsWithTime(o: Objective, p: Objective)
    requires Later(o, p) && InOrder(o) && InOrder(p) && o.completed.None? && (p.completed.Some? ==> o.now <= p.completed.value)
    ensures 0 <= Elapsed(p) - Elapsed(o) <= p.Evaluated() - o.Evaluated()
  {
    forall t | o.started <= t < o.now
      ensures Frozen(o.pauses, t) <==> Frozen(p.pauses, t)
    {
      PastStays(o.pauses, p.pauses, o.now, t);
    }
    SameMeasure(o.pauses, p.pauses, o.started, o.now);
    TallySplits(o.now - o.started, p.Evaluated() - o.started, FrozenFrom(p.pauses, o.started));
  }

  /** A breach is never undone while the objective is unfinished. */
  lemma BreachStays(o: Objective, p: Objective)
    requires Later(o, p) && InOrder(o) && InOrder(p) && o.completed.None? && p.completed.None? && Late(o)
    ensures Late(p)
  {
    ElapsedGrowsWithTime(o, p);
  }

  /**
   * Completing after a breach keeps it, except when the budget was used up to the millisecond and no more time ran
   * before the completion: then the objective counts as met.
   */
  lemma BreachOutlivesCompletionExactly(o: Objective, p: Objective)
    requires Later(o, p) && InOrder(o) && InOrder(p) && o.completed.None? && p.completed.Some? && o.now <= p.completed.value
    requires Late(o)
    ensures Late(p) <==> !(Elapsed(o) == o.Budget() && Elapsed(p) == Elapsed(o))
  {
    ElapsedGrowsWithTime(o, p);
  }

  /** A completed objective's answer does not depend on what time it is asked, or on pauses after its completion. */
  lemma CompletedIsSettled(o: Objective, p: Objective, r: Result, q: Result)
    requires Later(o, p) && InOrder(o) && InOrder(p) && o.completed.Some? && p.completed == o.completed
    requires Describes(o, r) && Describes(p, q)
    ensures r == q
  {
    forall t | o.started <= t < o.completed.value
      ensures Frozen(o.pauses, t) <==> Frozen(p.pauses, t)
    {
      PastStays(o.pauses, p.pauses, o.now, t);
    }
    SameMeasure(o.pauses, p.pauses, o.started, o.completed.value);
  }

  // ---------------------------------------------------------------------------
  // Tickets
  // ---------------------------------------------------------------------------

  datatype Targets = Targets(firstResponse: int, resolution: int)

  datatype Override = Override(firstResponse: Option<int>, resolution: Option<int>)

  datatype Policy<!P> = Policy(targets: Targets, overrides: map<P, Override>, fraction: real)

  predicate Minutes(n: int) {
    1 <= n <= MAX_MINUTES
  }

  /** `resolveSlaTargets`: a priority may override either target; anything out of range is refused. */
  function ResolveTargets<P>(policy: Policy<P>, priority: P): (t: Option<Targets>)
    ensures t.Some? ==> Minutes(t.value.firstResponse) && Minutes(t.value.resolution) && 0.0 < policy.fraction < 1.0
    ensures t.Some? && priority !in policy.overrides ==> t.value == policy.targets
    ensures t.Some? && priority in policy.overrides ==> var own := policy.overrides[priority];
      && (own.firstResponse.Some? ==> t.value.firstResponse == own.firstResponse.value)
      && (own.firstResponse.None? ==> t.value.firstResponse == policy.targets.firstResponse)
      && (own.resolution.Some? ==> t.value.resolution == own.resolution.value)
      && (own.resolution.None? ==> t.value.resolution == policy.targets.resolution)
  {
    var own := if priority in policy.overrides then policy.overrides[priority] else Override(None, None);
    var t := Targets(own.firstResponse.Or(policy.targets.firstResponse), own.resolution.Or(policy.targets.resolution));
    if 0.0 < policy.fraction < 1.0 && Minutes(policy.targets.firstResponse) && Minutes(policy.targets.resolution)
      && Minutes(t.firstResponse) && Minutes(t.resolution)
    then Some(t) else None
  }

  datatype Ticket<!P> = Ticket(
    policy: Policy<P>, priority: P, createdAt: int, now: int, respondedAt: Option<int>, resolvedAt: Option<int>,
    responsePauses: seq<Pause>, resolutionPauses: seq<Pause>)

  function ResponseOf<P>(t: Ticket<P>, targets: Targets): Objective {
    Objective(t.createdAt, targets.firstResponse, t.policy.fraction, t.now, t.respondedAt, t.responsePauses)
  }

  function ResolutionOf<P>(t: Ticket<P>, targets: Targets): Objective {
    Objective(t.createdAt, targets.resolution, t.policy.fraction, t.now, t.resolvedAt, t.resolutionPauses)
  }

  predicate TicketEvaluable<P>(t: Ticket<P>) {
    && ResolveTargets(t.policy, t.priority).Some?
    && var targets := ResolveTargets(t.policy, t.priority).value;
       Evaluable(ResponseOf(t, targets)) && Evaluable(ResolutionOf(t, targets))
  }

  /** `evaluateTicketSla`: two objectives on one clock, each with its own target, completion and pauses. */
  method EvaluateTicket<P(==)>(t: Ticket<P>) returns (r: Option<(Result, Result)>)
    ensures r.Some? <==> TicketEvaluable(t)
    ensures r.Some? ==> var targets := ResolveTargets(t.policy, t.priority).value;
      Describes(ResponseOf(t, targets), r.value.0) && Describes(ResolutionOf(t, targets), r.value.1)
  {
    hide Describes, Evaluable;
    var targets := ResolveTargets(t.policy, t.priority);
    if targets.None? {
      return None;
    }
    var response := EvaluateObjective(ResponseOf(t, targets.value));
    if response.None? {
      return None;
    }
    var resolution := EvaluateObjective(ResolutionOf(t, targets.value));
    if resolution.None? {
      return None;
    }
    return Some((response.value, resolution.value));
  }
}
