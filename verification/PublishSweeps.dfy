/** The sweep that brings variants back in line with the state of their tasks. */
module PublishSweeps {
  import opened Options
  import opened PublishStates

  datatype JobState = Queued | Running | Waiting | Retrying | WaitingForUser | Failed | Cancelled | Completed

  /** The columns of a task the sweep reads; `skipped` and the references are fields of its result. */
  datatype Job = Job(
    state: JobState,
    error: Option<string>,
    reason: Option<string>,
    currentStep: Option<string>,
    skipped: bool,
    externalRef: Option<string>,
    externalUrl: Option<string>)

  datatype Row = Row(
    state: PublishState,
    task: Option<nat>,
    lastError: Option<string>,
    externalRef: Option<string>,
    externalUrl: Option<string>)

  const POLL_STEP := "publish-op:"
  const MISSING := "Publishing job is missing; reschedule this variant."

  function Cut(s: string, max: nat): string {
    if |s| <= max then s else s[..max]
  }

  predicate InFlight(s: PublishState) {
    s in {Scheduled, PublishState.Queued, Publishing}
  }

  function Coalesce(a: Option<string>, b: Option<string>): Option<string> {
    if a.Some? then a else b
  }

  predicate BeingPolled(j: Job) {
    j.state.Waiting? && j.currentStep.Some? && POLL_STEP <= j.currentStep.value
  }

  function JobOf(r: Row, jobs: map<nat, Job>): Option<Job> {
    if r.task.Some? && r.task.value in jobs then Some(jobs[r.task.value]) else None
  }

  function Finished(r: Row, j: Job): Row {
    r.(state := PublishState.Published,
       externalUrl := if j.externalUrl.Some? && "https://" <= j.externalUrl.value then Some(Cut(j.externalUrl.value, 2000)) else None,
       externalRef := if j.externalRef.Some? then Some(Cut(j.externalRef.value, 300)) else None)
  }

  /** The successive values the sweep writes into a row it selected. */
  function Writes(r: Row, jobs: map<nat, Job>): seq<Row> {
    match JobOf(r, jobs)
    case None => [r.(state := PublishState.Failed, lastError := Some(MISSING))]
    case Some(j) =>
      if j.state.Running? && r.state != Publishing then [r.(state := Publishing)]
      else if BeingPolled(j) && r.state == Publishing then []
      else if (j.state.Retrying? || j.state.Waiting?) && r.state == Publishing then
        [r.(state := PublishState.Queued, lastError := j.error)]
      else if j.state.WaitingForUser? && r.lastError != Coalesce(j.reason, j.error) then
        [r.(state := if r.state == Publishing then PublishState.Queued else r.state,
            lastError := Some(Cut(Coalesce(j.reason, j.error).Or("Needs operator action"), 1000)))]
      else if j.state.Failed? then [r.(state := PublishState.Failed, lastError := Some(Cut(j.error.Or("Publishing failed"), 1000)))]
      else if j.state.Cancelled? then [r.(state := PublishState.Cancelled)]
      else if j.state.Completed? && !j.skipped then
        if r.state != Publishing then [r.(state := Publishing), Finished(r, j)] else [Finished(r, j)]
      else []
  }

  function Reconciled(r: Row, jobs: map<nat, Job>): Row {
    if InFlight(r.state) && Writes(r, jobs) != [] then Writes(r, jobs)[|Writes(r, jobs)| - 1] else r
  }

  /** The rows a pass selects: the first `limit` in flight. */
  function Selected(rows: seq<Row>, limit: nat): (n: nat)
    ensures n <= limit && n <= |rows|
  {
    if rows == [] then 0
    else
      var before := Selected(rows[..|rows| - 1], limit);
      if InFlight(rows[|rows| - 1].state) && before < limit then before + 1 else before
  }

  /** Row i is among the first `limit` in flight. */
  predicate Picked(rows: seq<Row>, limit: nat, i: nat)
    requires i < |rows|
  {
    InFlight(rows[i].state) && Selected(rows[..i], limit) < limit
  }

  function TotalWrites(rows: seq<Row>, jobs: map<nat, Job>, limit: nat): nat {
    if rows == [] then 0
    else
      var i := |rows| - 1;
      TotalWrites(rows[..i], jobs, limit) + if Picked(rows, limit, i) then |Writes(rows[i], jobs)| else 0
  }

  /** The branches for one selected row; `written` are the values given to the row, in order. */
  method ReconcileRow(rows: array<Row>, n: nat, jobs: map<nat, Job>) returns (updated: nat, ghost written: seq<Row>)
    requires n < rows.Length && InFlight(rows[n].state)
    modifies rows
    ensures rows[..n] == old(rows[..n]) && rows[n + 1..] == old(rows[n + 1..])
    ensures written == Writes(old(rows[n]), jobs) && updated == |written|
    ensures rows[n] == Reconciled(old(rows[n]), jobs)
  {
    var r := rows[n];
    var t := JobOf(r, jobs);
    updated, written := 0, [];
    if t.None? {
      rows[n] := r.(state := PublishState.Failed, lastError := Some(MISSING));
      updated, written := 1, [rows[n]];
    } else if t.value.state.Running? && r.state != Publishing {
      rows[n] := r.(state := Publishing);
      updated, written := 1, [rows[n]];
    } else if BeingPolled(t.value) && r.state == Publishing {
      // The provider accepted the post: it may go live at any moment.
    } else if (t.value.state.Retrying? || t.value.state.Waiting?) && r.state == Publishing {
      rows[n] := r.(state := PublishState.Queued, lastError := t.value.error);
      updated, written := 1, [rows[n]];
    } else if t.value.state.WaitingForUser? && r.lastError != Coalesce(t.value.reason, t.value.error) {
      var message := Some(Cut(Coalesce(t.value.reason, t.value.error).Or("Needs operator action"), 1000));
      rows[n] := r.(state := if r.state == Publishing then PublishState.Queued else r.state, lastError := message);
      updated, written := 1, [rows[n]];
    } else if t.value.state.Failed? {
      rows[n] := r.(state := PublishState.Failed, lastError := Some(Cut(t.value.error.Or("Publishing failed"), 1000)));
      updated, written := 1, [rows[n]];
    } else if t.value.state.Cancelled? {
      rows[n] := r.(state := PublishState.Cancelled);
      updated, written := 1, [rows[n]];
    } else if t.value.state.Completed? && !t.value.skipped {
      if r.state != Publishing {
        rows[n] := r.(state := Publishing);
        updated, written := 1, [rows[n]];
      }
      rows[n] := Finished(r, t.value);
      updated, written := updated + 1, written + [rows[n]];
    }
  }

  /** The counters after one more row. */
  lemma OneMoreRow(rows: seq<Row>, jobs: map<nat, Job>, limit: nat, n: nat)
    requires n < |rows|
    ensures Selected(rows[..n + 1], limit) == Selected(rows[..n], limit) + if Picked(rows, limit, n) then 1 else 0
    ensures TotalWrites(rows[..n + 1], jobs, limit) ==
      TotalWrites(rows[..n], jobs, limit) + if Picked(rows, limit, n) then |Writes(rows[n], jobs)| else 0
  {
    hide Writes;
    assert rows[..n + 1][..n] == rows[..n];
  }

  /** One pass over the variants in the order of their schedule. */
  method ReconcilePublishing(rows: array<Row>, jobs: map<nat, Job>, limit: nat) returns (checked: nat, updated: nat)
    modifies rows
    ensures rows[..] == Pass(old(rows[..]), jobs, limit)
    ensures checked == Selected(old(rows[..]), limit) && updated == TotalWrites(old(rows[..]), jobs, limit)
  {
    hide Writes, Reconciled, Selected, TotalWrites, InFlight;
    checked, updated := 0, 0;
    ghost var was := rows[..];
    assert was[..0] == [] && Selected([], limit) == 0 && TotalWrites([], jobs, limit) == 0 by {
      NoRows(jobs, limit);
    }
    for n := 0 to rows.Length
      invariant forall i :: n <= i < rows.Length ==> rows[i] == was[i]
      invariant forall i :: 0 <= i < n ==> rows[i] == Pass(was, jobs, limit)[i]
      invariant checked == Selected(was[..n], limit)
      invariant updated == TotalWrites(was[..n], jobs, limit)
    {
      OneMoreRow(was, jobs, limit, n);
      if InFlight(rows[n].state) && checked < limit {
        checked := checked + 1;
        var sets, written := ReconcileRow(rows, n, jobs);
        updated := updated + sets;
      }
    }
    assert was[..rows.Length] == was;
  }

  lemma NoRows(jobs: map<nat, Job>, limit: nat)
    ensures Selected([], limit) == 0 && TotalWrites([], jobs, limit) == 0
  {
  }

  /** All rows after a pass. */
  function Pass(rows: seq<Row>, jobs: map<nat, Job>, limit: nat): (after: seq<Row>)
    ensures |after| == |rows|
  {
    seq(|rows|, i requires 0 <= i < |rows| => if Picked(rows, limit, i) then Reconciled(rows[i], jobs) else rows[i])
  }

  /** Every state the sweep writes is the one before or a legal move from it. */
  lemma SweepIsLegal(r: Row, jobs: map<nat, Job>, i: nat)
    requires InFlight(r.state) && i < |Writes(r, jobs)|
    ensures var from := if i == 0 then r.state else Writes(r, jobs)[i - 1].state;
      Writes(r, jobs)[i].state == from || LegalMove(from, Writes(r, jobs)[i].state)
  {
  }

  /** What a sweep leaves of a value it stores: the beginning, up to the column's size. */
  predicate CutTo(stored: Option<string>, value: string, max: nat) {
    stored.Some? && stored.value <= value && |stored.value| == Min(|value|, max)
  }

  /**
   * Row by row: a row outside the selection is left alone, a row without its task fails, and every other row follows its
   * task. A post that the provider has accepted and that is being polled is left alone: it may go live at any moment.
   */
  lemma SweepFollowsTask(rows: seq<Row>, jobs: map<nat, Job>, limit: nat, i: nat)
    requires i < |rows|
    ensures var r, t := rows[i], Pass(rows, jobs, limit)[i];
      if !Picked(rows, limit, i) then t == r
      else if r.task.None? || r.task.value !in jobs then t == r.(state := PublishState.Failed, lastError := Some(MISSING))
      else
        var j := jobs[r.task.value];
        var note := if j.reason.Some? then j.reason else j.error;
        && (j.state.Running? ==> t == r.(state := Publishing))
        && (j.state.Waiting? && r.state == Publishing && j.currentStep.Some? && POLL_STEP <= j.currentStep.value ==> t == r)
        && (j.state.Waiting? && r.state == Publishing && !(j.currentStep.Some? && POLL_STEP <= j.currentStep.value) ==>
              t == r.(state := PublishState.Queued, lastError := j.error))
        && (j.state.Retrying? && r.state == Publishing ==> t == r.(state := PublishState.Queued, lastError := j.error))
        && ((j.state.Waiting? || j.state.Retrying?) && r.state != Publishing ==> t == r)
        && (j.state.Queued? ==> t == r)
        && (j.state.Cancelled? ==> t == r.(state := PublishState.Cancelled))
        && (j.state.Failed? ==> t == r.(state := PublishState.Failed, lastError := t.lastError))
        && (j.state.Failed? ==> CutTo(t.lastError, if j.error.Some? then j.error.value else "Publishing failed", 1000))
        && (j.state.WaitingForUser? && r.lastError == note ==> t == r)
        && (j.state.WaitingForUser? && r.lastError != note ==>
              t == r.(state := if r.state == Publishing then PublishState.Queued else r.state, lastError := t.lastError))
        && (j.state.WaitingForUser? && r.lastError != note ==>
              CutTo(t.lastError, if note.Some? then note.value else "Needs operator action", 1000))
        && (j.state.Completed? && j.skipped ==> t == r)
        && (j.state.Completed? && !j.skipped ==>
              && t == r.(state := PublishState.Published, externalRef := t.externalRef, externalUrl := t.externalUrl)
              && (if j.externalRef.Some? then CutTo(t.externalRef, j.externalRef.value, 300) else t.externalRef.None?)
              && (if j.externalUrl.Some? && "https://" <= j.externalUrl.value then CutTo(t.externalUrl, j.externalUrl.value, 2000)
                  else t.externalUrl.None?))
  {
    hide Selected;
  }

  /** A row the sweep has dealt with stays as it is while its task stays as it is. */
  lemma ReconciledTwice(r: Row, jobs: map<nat, Job>)
    ensures Reconciled(Reconciled(r, jobs), jobs) == Reconciled(r, jobs)
  {
  }

  /** How many rows are in flight. */
  function Flying(rows: seq<Row>): nat {
    if rows == [] then 0 else Flying(rows[..|rows| - 1]) + if InFlight(rows[|rows| - 1].state) then 1 else 0
  }

  /** A pass selects the rows in flight as far as the limit goes. */
  lemma {:induction false} SelectedAre(rows: seq<Row>, limit: nat)
    ensures Selected(rows, limit) == Min(Flying(rows), limit)
  {
    if rows != [] {
      SelectedAre(rows[..|rows| - 1], limit);
    }
  }

  lemma {:induction false} FlyingBefore(rows: seq<Row>, i: nat)
    requires i < |rows|
    ensures Flying(rows[..i]) + (if InFlight(rows[i].state) then 1 else 0) <= Flying(rows)
    decreases |rows|
  {
    var rest := rows[..|rows| - 1];
    if i < |rows| - 1 {
      FlyingBefore(rest, i);
      assert rest[..i] == rows[..i];
    }
  }

  /** The first row in flight that the limit shuts out. */
  lemma {:induction false} FirstLeftOut(rows: seq<Row>, limit: nat) returns (i: nat)
    requires Flying(rows) > limit
    ensures i < |rows| && InFlight(rows[i].state) && !Picked(rows, limit, i)
    ensures forall j: nat :: j < i && InFlight(rows[j].state) ==> Picked(rows, limit, j)
    decreases |rows|
  {
    var m := |rows| - 1;
    var rest := rows[..m];
    if Flying(rest) > limit {
      i := FirstLeftOut(rest, limit);
      assert forall j: nat :: j <= i ==> rest[..j] == rows[..j];
    } else {
      i := m;
      SelectedAre(rest, limit);
      forall j: nat | j < m && InFlight(rows[j].state)
        ensures Picked(rows, limit, j)
      {
        FlyingBefore(rest, j);
        SelectedAre(rows[..j], limit);
        assert rest[..j] == rows[..j];
      }
    }
  }

  /**
   * A second pass over unchanged tasks changes no row the first one selected, and no row at all when the limit has
   * room for every row in flight.
   */
  lemma SecondPassIsQuiet(rows: seq<Row>, jobs: map<nat, Job>, limit: nat)
    ensures var once := Pass(rows, jobs, limit);
      && (forall i: nat :: i < |rows| && Picked(rows, limit, i) ==> Pass(once, jobs, limit)[i] == once[i])
      && (limit == 0 || Flying(rows) <= limit ==> Pass(once, jobs, limit) == once)
  {
    hide Reconciled, Selected;
    var once := Pass(rows, jobs, limit);
    forall i: nat | i < |rows| && (Picked(rows, limit, i) || limit == 0 || Flying(rows) <= limit)
      ensures Pass(once, jobs, limit)[i] == once[i]
    {
      FlyingBefore(rows, i);
      SelectedAre(rows[..i], limit);
      SelectedAre(once[..i], limit);
      ReconciledTwice(rows[i], jobs);
    }
  }

  lemma {:induction false} NoneFlying(rows: seq<Row>)
    requires forall i: nat :: i < |rows| ==> !InFlight(rows[i].state)
    ensures Flying(rows) == 0
  {
    if rows != [] {
      NoneFlying(rows[..|rows| - 1]);
    }
  }

  /** With more rows in flight than the limit, those that leave make room, and a second pass goes on with the rest. */
  lemma SecondPassGoesOn(rows: seq<Row>, limit: nat)
    requires 0 < limit < Flying(rows)
    ensures Pass(Pass(rows, map[], limit), map[], limit) != Pass(rows, map[], limit)
  {
    var once := Pass(rows, map[], limit);
    var i := FirstLeftOut(rows, limit);
    assert once[i] == rows[i];
    forall j: nat | j < i
      ensures !InFlight(once[..i][j].state)
    {
      assert once[..i][j] == once[j];
    }
    NoneFlying(once[..i]);
    SelectedAre(once[..i], limit);
    assert Pass(once, map[], limit)[i] == Reconciled(rows[i], map[]);
  }

  /** The sweep promises to be idempotent. It is, whatever the tasks, exactly when no row in flight is shut out by the limit. */
  lemma SecondPassIsQuietExactly(rows: seq<Row>, limit: nat)
    ensures (forall jobs :: Pass(Pass(rows, jobs, limit), jobs, limit) == Pass(rows, jobs, limit))
      <==> limit == 0 || Flying(rows) <= limit
  {
    if limit == 0 || Flying(rows) <= limit {
      forall jobs
        ensures Pass(Pass(rows, jobs, limit), jobs, limit) == Pass(rows, jobs, limit)
      {
        SecondPassIsQuiet(rows, jobs, limit);
      }
    } else {
      SecondPassGoesOn(rows, limit);
    }
  }
}
