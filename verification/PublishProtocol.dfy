/**
 * The receipt protocol as a state machine: any number of publishing runs for one idempotency key,
 * interleaved at every database call and every provider call, each of which may stop (crash) anywhere.
 */
module PublishProtocol {
  import opened Options
  import opened Counting
  import opened PublishContract

  const MAX_ACCEPTED_AGE_MS := 24 * 3_600_000
  const MAX_POLLS := 200

  datatype ReceiptStatus = Submitting | Accepted | Published | Partial | Failed | Unknown

  /** A row of publish_receipts. Its position in the table is its primary key. */
  datatype Receipt = Receipt(
    attempt: nat,
    status: ReceiptStatus,
    operationRef: Option<string>,
    pollCount: nat,
    createdAt: int,
    externalRef: Option<string>,
    externalUrl: Option<string>,
    errorClass: Option<ErrorClass>)

  /** `statusThrows`: the error classes, with their terminal flag, that `status` may raise. */
  datatype Provider = Provider(idempotentSubmit: bool, hasStatus: bool, statusThrows: set<(ErrorClass, bool)>)

  /** What became of one submitted request on the platform. */
  datatype Post = Pending | Live | Dead

  /** The next effect of a run. */
  datatype Pc =
    | Reading
    | Polling(row: nat, prior: Receipt)
    | Counting(row: nat, prior: Receipt, outcome: Outcome)
    | Marking(row: nat)
    | Inserting(attempt: nat, base: nat)
    | Calling(row: nat)
    | Awaiting(row: nat)
    | Settling(row: nat, hadRef: bool, outcome: Outcome)
    | Ending

  /** A run: its task's attempt number, whether an operator resolved the task, the variant state it started from. */
  datatype Run = Run(attempts: nat, resolved: bool, sawPublishing: bool, pc: Pc)

  /** The table, who inserted each row, the platform, and the runs under way. */
  datatype World = World(
    receipts: seq<Receipt>,
    owners: seq<nat>,
    posts: map<nat, Post>,
    runs: map<nat, Run>,
    started: set<nat>,
    resolvedRuns: set<nat>)

  datatype Event =
    | Start(id: nat, attempts: nat, resolved: bool, sawPublishing: bool)
    | Read(id: nat, now: int)
    | Poll(id: nat, answer: Answer)
    | Count(id: nat)
    | Mark(id: nat)
    | Insert(id: nat, now: int)
    | Send(id: nat)
    | Receive(id: nat, answer: Answer)
    | Settle(id: nat)
    | Stop(id: nat)
    | GoLive(row: nat)
    | Die(row: nat)

  const INIT := World([], [], map[], map[], {}, {})

  /** The row with the highest attempt number. */
  function Latest(rs: seq<Receipt>): (row: Option<nat>)
    ensures row.Some? ==> row.value < |rs|
  {
    if rs == [] then None
    else
      var rest := Latest(rs[..|rs| - 1]);
      if rest.None? || rs[rest.value].attempt < rs[|rs| - 1].attempt then Some(|rs| - 1) else rest
  }

  /** JavaScript truth of a text column. */
  predicate Usable(ref: Option<string>) {
    ref.Some? && ref.value != ""
  }

  predicate Expired(r: Receipt, now: int) {
    now - r.createdAt > MAX_ACCEPTED_AGE_MS || r.pollCount >= MAX_POLLS
  }

  predicate Ambiguous(p: Provider, run: Run, prior: Option<Receipt>) {
    match prior
    case None => run.sawPublishing
    case Some(r) =>
      || r.status == Submitting
      || (r.status == ReceiptStatus.Accepted && !p.hasStatus)
      || (r.status == ReceiptStatus.Unknown && !run.resolved)
  }

  function PriorOf(rs: seq<Receipt>): Option<Receipt> {
    if Latest(rs).None? then None else Some(rs[Latest(rs).value])
  }

  function NextAttempt(attempts: nat, prior: Option<Receipt>): nat {
    Max(attempts, if prior.None? then 1 else prior.value.attempt + 1)
  }

  /** Steps 2 and 3 of the engine: resume, stop, or submit. */
  function Decide(p: Provider, run: Run, rs: seq<Receipt>, now: int): Pc {
    var prior := PriorOf(rs);
    if prior.Some? && prior.value.status in {ReceiptStatus.Published, ReceiptStatus.Partial} then Ending
    else if prior.Some? && prior.value.status == ReceiptStatus.Accepted && Usable(prior.value.operationRef) && p.hasStatus then
      var row := Latest(rs).value;
      if Expired(prior.value, now) then Counting(row, prior.value, Outcome.Unknown(prior.value.operationRef))
      else Polling(row, prior.value)
    else if Ambiguous(p, run, prior) && !p.idempotentSubmit then
      if prior.Some? && prior.value.status != ReceiptStatus.Unknown then Marking(Latest(rs).value) else Ending
    else Inserting(NextAttempt(run.attempts, prior), |rs|)
  }

  /** A failed status read of a retryable class counts as still accepted. */
  function PollOutcome(prior: Receipt, a: Answer): Outcome {
    var polled := Interpret(a, true);
    if polled.Failed? && !polled.final && DecisionFor(polled.errorClass) == Retry
    then Outcome.Accepted(prior.operationRef.Or(""), polled.retryAfterMs)
    else polled
  }

  /** A failure of a class the queue retries, not marked as final. */
  predicate Passing(errorClass: ErrorClass, final: bool) {
    errorClass in {Transient, RateLimited, Internal} && !final
  }

  /**
   * What a status read says is believed: a confirmation is one, a failure that can pass leaves the operation accepted, any
   * other failure of a known class is one, and everything else is unknown.
   */
  lemma StatusReadsAreBelieved(prior: Receipt, a: Answer)
    ensures var o := PollOutcome(prior, a);
      match a
      case Returned(RawPublished(_, _)) => o.Published?
      case Returned(RawPartial(_, _)) => o.Partial?
      case Returned(RawAccepted(ref, hint)) =>
        if Bounded(ref, REF_MAX).Some? then o == Outcome.Accepted(ref.value, hint) else o.Unknown?
      case Returned(RawFailed(cls, _, final)) =>
        if cls == Some(UnknownOutcome) then o.Unknown?
        else if Passing(cls.Or(Internal), final) then o.Accepted? && o.operationRef == prior.operationRef.Or("") else o.Failed?
      case Returned(_) => o.Unknown?
      case Threw(e) =>
        if e.errorClass == UnknownOutcome then o.Unknown?
        else if Passing(e.errorClass, e.terminal) then o.Accepted? && o.operationRef == prior.operationRef.Or("") else o.Failed?
  {
  }

  /** The receipt columns an outcome writes; `hadRef` is the engine's copy of operation_ref being set. */
  function Patched(r: Receipt, hadRef: bool, o: Outcome): Receipt {
    match o
    case Published(ref, url) =>
      r.(status := ReceiptStatus.Published, externalRef := ref, externalUrl := url, errorClass := None)
    case Accepted(ref, _) => r.(status := ReceiptStatus.Accepted, operationRef := if hadRef then r.operationRef else Some(ref))
    case Partial(ref, url) =>
      r.(status := ReceiptStatus.Partial, externalRef := ref, externalUrl := url, errorClass := Some(UnknownOutcome))
    case Failed(cls, _, _) => r.(status := ReceiptStatus.Failed, errorClass := Some(cls))
    case Unknown(ref) =>
      Doubted(r.(operationRef := if ref.Some? && !hadRef then ref else r.operationRef))
  }

  /** The receipt of an attempt whose outcome nobody knows. */
  function Doubted(r: Receipt): Receipt {
    r.(status := ReceiptStatus.Unknown, errorClass := Some(UnknownOutcome))
  }

  predicate Settled(s: ReceiptStatus) {
    s in {ReceiptStatus.Published, ReceiptStatus.Partial, ReceiptStatus.Failed}
  }

  /** The guard of the table: settled rows never change, references are set once, accepted rows have one. */
  predicate Writable(old_: Receipt, new_: Receipt) {
    && (old_.operationRef.Some? ==> new_.operationRef == old_.operationRef)
    && !Settled(old_.status)
    && (old_.status != new_.status ==> new_.status != Submitting)
    && (new_.status == ReceiptStatus.Accepted ==> new_.operationRef.Some?)
  }

  /** The contract of `submit`: a denial means not live now or later, a confirmation means live. */
  predicate SubmitAnswer(post: Post, a: Answer) {
    (Denies(a) ==> post == Dead) && (Confirms(a) ==> post == Live)
  }

  /** The contract of `status`: what it returns is true of the post; what it raises says nothing about the post. */
  predicate StatusAnswer(p: Provider, prior: Receipt, post: Post, a: Answer) {
    match a
    case Threw(e) => (e.errorClass, e.terminal) in p.statusThrows
    case Returned(_) => (PollOutcome(prior, a).Failed? ==> post == Dead) && (Confirms(a) ==> post == Live)
  }

  /** Runs that overlap hold the same task.attempts. */
  predicate SameAttempts(runs: map<nat, Run>, attempts: nat) {
    forall id :: id in runs ==> runs[id].attempts == attempts
  }

  predicate Enabled(p: Provider, w: World, e: Event) {
    match e
    case Start(id, attempts, _, _) => id !in w.started && 1 <= attempts && SameAttempts(w.runs, attempts)
    case Read(id, _) => id in w.runs && w.runs[id].pc.Reading?
    case Poll(id, a) =>
      && p.hasStatus && id in w.runs && w.runs[id].pc.Polling? && w.runs[id].pc.row in w.posts
      && StatusAnswer(p, w.runs[id].pc.prior, w.posts[w.runs[id].pc.row], a)
    case Count(id) => id in w.runs && w.runs[id].pc.Counting? && w.runs[id].pc.row < |w.receipts|
    case Mark(id) => id in w.runs && w.runs[id].pc.Marking? && w.runs[id].pc.row < |w.receipts|
    case Insert(id, _) => id in w.runs && w.runs[id].pc.Inserting?
    case Send(id) => id in w.runs && w.runs[id].pc.Calling?
    case Receive(id, a) =>
      && id in w.runs && w.runs[id].pc.Awaiting? && w.runs[id].pc.row in w.posts
      && SubmitAnswer(w.posts[w.runs[id].pc.row], a)
    case Settle(id) => id in w.runs && w.runs[id].pc.Settling? && w.runs[id].pc.row < |w.receipts|
    case Stop(id) => id in w.runs
    case GoLive(row) => row in w.posts && w.posts[row] == Pending
    case Die(row) => row in w.posts && w.posts[row] == Pending
  }

  function Goto(w: World, id: nat, pc: Pc): World
    requires id in w.runs
  {
    w.(runs := w.runs[id := w.runs[id].(pc := pc)])
  }

  /** An update of one receipt; a rejected update ends the run. */
  function Write(w: World, id: nat, row: nat, r: Receipt, pc: Pc): World
    requires id in w.runs && row < |w.receipts|
  {
    if Writable(w.receipts[row], r) then Goto(w.(receipts := w.receipts[row := r]), id, pc) else Goto(w, id, Ending)
  }

  predicate Taken(rs: seq<Receipt>, attempt: nat) {
    exists i :: 0 <= i < |rs| && rs[i].attempt == attempt
  }

  /** The world after a successful insert. */
  function Inserted(w: World, id: nat, attempt: nat, now: int): World
    requires id in w.runs
  {
    Goto(w.(receipts := w.receipts + [Receipt(attempt, Submitting, None, 0, now, None, None, None)], owners := w.owners + [id]),
         id, Calling(|w.receipts|))
  }

  function Apply(p: Provider, w: World, e: Event): World
    requires Enabled(p, w, e)
  {
    match e
    case Start(id, attempts, resolved, saw) =>
      w.(runs := w.runs[id := Run(attempts, resolved, saw, Reading)], started := w.started + {id},
         resolvedRuns := if resolved then w.resolvedRuns + {id} else w.resolvedRuns)
    case Read(id, now) => Goto(w, id, Decide(p, w.runs[id], w.receipts, now))
    case Poll(id, a) =>
      var pc := w.runs[id].pc;
      Goto(w, id, Counting(pc.row, pc.prior, PollOutcome(pc.prior, a)))
    case Count(id) =>
      var pc := w.runs[id].pc;
      Write(w, id, pc.row, w.receipts[pc.row].(pollCount := pc.prior.pollCount + 1), Settling(pc.row, true, pc.outcome))
    case Mark(id) =>
      var row := w.runs[id].pc.row;
      Write(w, id, row, Doubted(w.receipts[row]), Ending)
    case Insert(id, now) =>
      var attempt := w.runs[id].pc.attempt;
      if Taken(w.receipts, attempt) then Goto(w, id, Ending) else Inserted(w, id, attempt, now)
    case Send(id) =>
      var row := w.runs[id].pc.row;
      Goto(w.(posts := w.posts[row := Pending]), id, Awaiting(row))
    case Receive(id, a) => Goto(w, id, Settling(w.runs[id].pc.row, false, Interpret(a, p.idempotentSubmit)))
    case Settle(id) =>
      var pc := w.runs[id].pc;
      Write(w, id, pc.row, Patched(w.receipts[pc.row], pc.hadRef, pc.outcome), Ending)
    case Stop(id) => w.(runs := w.runs - {id})
    case GoLive(row) => w.(posts := w.posts[row := Live])
    case Die(row) => w.(posts := w.posts[row := Dead])
  }

  /** The world after a history, or None when the history breaks a rule. */
  function After(p: Provider, es: seq<Event>): Option<World> {
    if es == [] then Some(INIT)
    else
      var before := After(p, es[..|es| - 1]);
      if before.Some? && Enabled(p, before.value, es[|es| - 1]) then Some(Apply(p, before.value, es[|es| - 1])) else None
  }

  // ---------------------------------------------------------------------------
  // The invariant
  // ---------------------------------------------------------------------------

  /** A receipt tells the truth about the post of its attempt. */
  ghost predicate RowOk(w: World, i: nat)
    requires i < |w.receipts|
  {
    (w.receipts[i].operationRef.Some? ==> Usable(w.receipts[i].operationRef)) &&
    match w.receipts[i].status
    case Failed => i in w.posts && w.posts[i] == Dead
    case Published => i in w.posts && w.posts[i] == Live
    case Partial => i in w.posts && w.posts[i] == Live
    case Accepted => i in w.posts && w.receipts[i].operationRef.Some?
    case _ => true
  }

  /** An attempt was made only after the one before it failed, unless an operator resolved the task. */
  ghost predicate Justified(w: World, i: nat)
    requires i < |w.receipts| == |w.owners|
  {
    0 < i ==> w.owners[i] in w.resolvedRuns || w.receipts[i - 1].status == ReceiptStatus.Failed
  }

  ghost predicate TableOk(w: World) {
    && |w.owners| == |w.receipts|
    && (forall i, j :: 0 <= i < j < |w.receipts| ==> w.receipts[i].attempt < w.receipts[j].attempt)
    && (forall i, j :: 0 <= i < j < |w.owners| ==> w.owners[i] != w.owners[j])
    && (forall i :: 0 <= i < |w.receipts| ==> RowOk(w, i) && Justified(w, i) && w.receipts[i].attempt >= 1)
    && (forall i :: 0 <= i < |w.owners| ==> w.owners[i] in w.started)
    && (forall r :: r in w.posts ==> r < |w.receipts|)
    && w.runs.Keys <= w.started
    && w.resolvedRuns <= w.started
  }

  /** An outcome waiting to be recorded is true of the post. */
  ghost predicate OutcomeOk(w: World, row: nat, o: Outcome) {
    && row < |w.receipts| && row in w.posts
    && (o.Failed? ==> w.posts[row] == Dead)
    && (o.Published? || o.Partial? ==> w.posts[row] == Live)
    && (o.Accepted? ==> o.operationRef != "")
    && (o.Unknown? && o.maybeRef.Some? ==> Usable(o.maybeRef))
  }

  /** A run that is about to insert either still sits on top of the table or is bound to collide. */
  ghost predicate MayInsert(w: World, run: Run, attempt: nat, base: nat) {
    || Taken(w.receipts, attempt)
    || (&& base == |w.receipts|
        && attempt == Max(run.attempts, if base == 0 then 1 else w.receipts[base - 1].attempt + 1)
        && (base == 0 || run.resolved || w.receipts[base - 1].status == ReceiptStatus.Failed))
  }

  ghost predicate Owns(w: World, id: nat, row: nat) {
    row < |w.owners| == |w.receipts| && w.owners[row] == id && w.receipts[row].status in {Submitting, ReceiptStatus.Unknown}
  }

  /** The run that inserted this row has recorded its answer, or will never come back. */
  ghost predicate Answered(w: World, row: nat) {
    row < |w.owners| && (w.owners[row] in w.runs ==> w.runs[w.owners[row]].pc.Ending?)
  }

  ghost predicate RunOk(w: World, id: nat, run: Run) {
    && id in w.started
    && (run.resolved ==> id in w.resolvedRuns)
    && match run.pc
       case Reading => id !in w.owners
       case Polling(row, prior) => id !in w.owners && row < |w.receipts| && row in w.posts && Answered(w, row) && Usable(prior.operationRef)
       case Counting(row, prior, o) => id !in w.owners && OutcomeOk(w, row, o) && Answered(w, row)
       case Marking(row) => id !in w.owners && row < |w.receipts|
       case Inserting(attempt, base) => id !in w.owners && MayInsert(w, run, attempt, base)
       case Calling(row) => Owns(w, id, row) && row !in w.posts
       case Awaiting(row) => Owns(w, id, row) && row in w.posts
       case Settling(row, hadRef, o) => OutcomeOk(w, row, o) && (if id in w.owners then Owns(w, id, row) else Answered(w, row))
       case Ending => true
  }

  ghost predicate Inv(w: World) {
    && TableOk(w)
    && (forall id :: id in w.runs ==> RunOk(w, id, w.runs[id]))
    && (forall i, j :: i in w.runs && j in w.runs ==> w.runs[i].attempts == w.runs[j].attempts)
  }

  /** `status` raises nothing that could be mistaken for a definite failure. */
  predicate StatusReadsAreHarmless(p: Provider) {
    p.hasStatus ==> forall t :: t in p.statusThrows ==> t.0 == UnknownOutcome || (DecisionFor(t.0) == Retry && !t.1)
  }

  lemma {:induction false} LatestIsLast(rs: seq<Receipt>)
    requires forall i, j :: 0 <= i < j < |rs| ==> rs[i].attempt < rs[j].attempt
    ensures rs != [] ==> Latest(rs) == Some(|rs| - 1)
  {
    if |rs| > 1 {
      LatestIsLast(rs[..|rs| - 1]);
    }
  }

  /** Posts only ever move from pending to live or dead. */
  ghost predicate PostsLater(a: map<nat, Post>, b: map<nat, Post>) {
    a.Keys <= b.Keys && forall r :: r in a && a[r] != Pending ==> b[r] == a[r]
  }

  /**
   * What one event of run `id` may do to the rest of the world (inserting aside): no row is added, identities
   * and failures stay, a row that another run still has to answer for only becomes unknown.
   */
  ghost predicate Calm(w: World, v: World, id: nat) {
    && v.owners == w.owners && v.started == w.started && v.resolvedRuns == w.resolvedRuns
    && |v.receipts| == |w.receipts| == |w.owners|
    && (forall i :: 0 <= i < |w.receipts| ==>
          && v.receipts[i].attempt == w.receipts[i].attempt
          && (w.receipts[i].status == ReceiptStatus.Failed ==> v.receipts[i].status == ReceiptStatus.Failed)
          && (v.receipts[i].status == w.receipts[i].status || v.receipts[i].status == ReceiptStatus.Unknown
              || w.owners[i] == id || Answered(w, i)))
    && PostsLater(w.posts, v.posts)
    && (forall r :: r in v.posts && r !in w.posts ==> r < |w.owners| && w.owners[r] == id)
    && (forall j :: j in v.runs && j != id ==> j in w.runs && v.runs[j] == w.runs[j])
    && (id in v.runs && id in w.runs && w.runs[id].pc.Ending? ==> v.runs[id].pc.Ending?)
    && (id in v.runs ==> id in w.runs)
  }

  lemma OthersKept(w: World, v: World, id: nat, j: nat)
    requires Inv(w) && Calm(w, v, id) && j in v.runs && j != id
    ensures RunOk(v, j, v.runs[j])
  {
    var run := w.runs[j];
    assert RunOk(w, j, run);
    match run.pc {
      case Inserting(attempt, base) =>
        if Taken(w.receipts, attempt) {
          var i :| 0 <= i < |w.receipts| && w.receipts[i].attempt == attempt;
          assert v.receipts[i].attempt == attempt;
        }
      case _ =>
    }
  }

  /** Assembles the invariant after a calm event from what it says about the table and about its own run. */
  lemma CalmKeeps(w: World, v: World, id: nat)
    requires Inv(w) && Calm(w, v, id)
    requires id in v.runs ==> RunOk(v, id, v.runs[id]) && v.runs[id].attempts == w.runs[id].attempts
    requires forall i :: 0 <= i < |v.receipts| ==> RowOk(v, i)
    ensures Inv(v)
  {
    forall j | j in v.runs && j != id ensures RunOk(v, j, v.runs[j]) {
      OthersKept(w, v, id, j);
    }
    forall i | 0 <= i < |v.receipts| ensures Justified(v, i) {
      assert Justified(w, i);
    }
    assert forall i :: 0 <= i < |w.receipts| ==> RowOk(w, i);
  }

  lemma RowsKept(w: World, v: World)
    requires Inv(w) && v.receipts == w.receipts && PostsLater(w.posts, v.posts)
    ensures forall i :: 0 <= i < |v.receipts| ==> RowOk(v, i)
  {
    forall i | 0 <= i < |v.receipts| ensures RowOk(v, i) {
      assert RowOk(w, i);
    }
  }

  lemma StartKeeps(p: Provider, w: World, id: nat, attempts: nat, resolved: bool, saw: bool)
    requires Inv(w) && Enabled(p, w, Start(id, attempts, resolved, saw))
    ensures Inv(Apply(p, w, Start(id, attempts, resolved, saw)))
  {
    var v := Apply(p, w, Start(id, attempts, resolved, saw));
    forall i | 0 <= i < |v.receipts| ensures RowOk(v, i) && Justified(v, i) {
      assert RowOk(w, i) && Justified(w, i);
    }
    forall j | j in v.runs ensures RunOk(v, j, v.runs[j]) {
      if j != id {
        assert RunOk(w, j, w.runs[j]);
      }
    }
  }

  /** What a run decides from the receipts it reads is sound for these receipts. */
  lemma DecisionOk(p: Provider, w: World, id: nat, now: int)
    requires Inv(w) && Enabled(p, w, Read(id, now)) && !p.idempotentSubmit
    ensures var v := Goto(w, id, Decide(p, w.runs[id], w.receipts, now)); RunOk(v, id, v.runs[id])
  {
    LatestIsLast(w.receipts);
    assert RunOk(w, id, w.runs[id]);
    if w.receipts != [] {
      var row := |w.receipts| - 1;
      assert RowOk(w, row);
      var owner := w.owners[row];
      assert owner in w.runs ==> RunOk(w, owner, w.runs[owner]);
    }
  }

  lemma ReadKeeps(p: Provider, w: World, id: nat, now: int)
    requires Inv(w) && Enabled(p, w, Read(id, now)) && !p.idempotentSubmit
    ensures Inv(Apply(p, w, Read(id, now)))
  {
    hide Decide, RunOk, RowOk, Justified;
    DecisionOk(p, w, id, now);
    RowsKept(w, Apply(p, w, Read(id, now)));
    CalmKeeps(w, Apply(p, w, Read(id, now)), id);
  }

  lemma PollKeeps(p: Provider, w: World, id: nat, a: Answer)
    requires Inv(w) && Enabled(p, w, Poll(id, a)) && StatusReadsAreHarmless(p)
    ensures Inv(Apply(p, w, Poll(id, a)))
  {
    var v := Apply(p, w, Poll(id, a));
    assert RunOk(w, id, w.runs[id]);
    RowsKept(w, v);
    CalmKeeps(w, v, id);
  }

  /** A run whose update was rejected, or that lost the race to insert, just ends. */
  lemma EndKeeps(w: World, id: nat)
    requires Inv(w) && id in w.runs
    ensures Inv(Goto(w, id, Ending))
  {
    RowsKept(w, Goto(w, id, Ending));
    assert RunOk(w, id, w.runs[id]);
    CalmKeeps(w, Goto(w, id, Ending), id);
  }

  /** An update of a receipt by a run that may write it. */
  lemma WriteKeeps(w: World, id: nat, row: nat, r: Receipt, pc: Pc)
    requires Inv(w) && id in w.runs && row < |w.receipts| && r.attempt == w.receipts[row].attempt
    requires r.status == w.receipts[row].status || r.status == ReceiptStatus.Unknown || w.owners[row] == id || Answered(w, row)
    requires Writable(w.receipts[row], r) ==> var v := Write(w, id, row, r, pc); RowOk(v, row) && RunOk(v, id, v.runs[id])
    requires !w.runs[id].pc.Ending?
    ensures Inv(Write(w, id, row, r, pc))
  {
    if Writable(w.receipts[row], r) {
      var v := Write(w, id, row, r, pc);
      forall i | 0 <= i < |v.receipts| ensures RowOk(v, i) {
        assert RowOk(w, i);
      }
      CalmKeeps(w, v, id);
    } else {
      EndKeeps(w, id);
    }
  }

  lemma CountKeeps(p: Provider, w: World, id: nat)
    requires Inv(w) && Enabled(p, w, Count(id))
    ensures Inv(Apply(p, w, Count(id)))
  {
    var pc := w.runs[id].pc;
    assert RunOk(w, id, w.runs[id]);
    assert RowOk(w, pc.row);
    WriteKeeps(w, id, pc.row, w.receipts[pc.row].(pollCount := pc.prior.pollCount + 1), Settling(pc.row, true, pc.outcome));
  }

  lemma MarkKeeps(p: Provider, w: World, id: nat)
    requires Inv(w) && Enabled(p, w, Mark(id))
    ensures Inv(Apply(p, w, Mark(id)))
  {
    var row := w.runs[id].pc.row;
    assert RunOk(w, id, w.runs[id]);
    WriteKeeps(w, id, row, Doubted(w.receipts[row]), Ending);
  }

  lemma SettleKeeps(p: Provider, w: World, id: nat)
    requires Inv(w) && Enabled(p, w, Settle(id))
    ensures Inv(Apply(p, w, Settle(id)))
  {
    var pc := w.runs[id].pc;
    assert RunOk(w, id, w.runs[id]);
    WriteKeeps(w, id, pc.row, Patched(w.receipts[pc.row], pc.hadRef, pc.outcome), Ending);
  }

  lemma SendKeeps(p: Provider, w: World, id: nat)
    requires Inv(w) && Enabled(p, w, Send(id))
    ensures Inv(Apply(p, w, Send(id)))
  {
    assert RunOk(w, id, w.runs[id]);
    RowsKept(w, Apply(p, w, Send(id)));
    CalmKeeps(w, Apply(p, w, Send(id)), id);
  }

  lemma ReceiveKeeps(p: Provider, w: World, id: nat, a: Answer)
    requires Inv(w) && Enabled(p, w, Receive(id, a)) && !p.idempotentSubmit
    ensures Inv(Apply(p, w, Receive(id, a)))
  {
    assert RunOk(w, id, w.runs[id]);
    AmbiguousAnswersStayUnknown(a);
    RowsKept(w, Apply(p, w, Receive(id, a)));
    CalmKeeps(w, Apply(p, w, Receive(id, a)), id);
  }

  lemma StopKeeps(p: Provider, w: World, id: nat)
    requires Inv(w) && Enabled(p, w, Stop(id))
    ensures Inv(Apply(p, w, Stop(id)))
  {
    RowsKept(w, Apply(p, w, Stop(id)));
    CalmKeeps(w, Apply(p, w, Stop(id)), id);
  }

  /** The platform decides the fate of a pending post. */
  lemma PlatformKeeps(w: World, row: nat, fate: Post)
    requires Inv(w) && row in w.posts && w.posts[row] == Pending
    ensures Inv(w.(posts := w.posts[row := fate]))
  {
    var v := w.(posts := w.posts[row := fate]);
    RowsKept(w, v);
    forall i | 0 <= i < |v.receipts| ensures Justified(v, i) {
      assert Justified(w, i);
    }
    forall j | j in v.runs ensures RunOk(v, j, v.runs[j]) {
      assert RunOk(w, j, w.runs[j]);
    }
  }

  /** A run that does not collide is still on top of the table, so the new attempt number is the highest. */
  lemma InsertedTable(w: World, id: nat, attempt: nat, now: int)
    requires Inv(w) && id in w.runs && w.runs[id].pc.Inserting? && w.runs[id].pc.attempt == attempt
    requires !Taken(w.receipts, attempt)
    ensures TableOk(Inserted(w, id, attempt, now))
  {
    var v := Inserted(w, id, attempt, now);
    assert RunOk(w, id, w.runs[id]);
    var n := |w.receipts|;
    forall i | 0 <= i < |v.receipts| ensures RowOk(v, i) && Justified(v, i) && v.receipts[i].attempt >= 1 {
      if i < n {
        assert RowOk(w, i) && Justified(w, i);
      }
    }
    forall i, j | 0 <= i < j < |v.receipts| ensures v.receipts[i].attempt < v.receipts[j].attempt {
      if j == n && i < n - 1 {
        assert w.receipts[i].attempt < w.receipts[n - 1].attempt;
      }
    }
  }

  /** Everyone else about to insert now collides: two runs on top of the same row hold the same attempt number. */
  lemma InsertedOthers(w: World, id: nat, attempt: nat, now: int, j: nat)
    requires Inv(w) && id in w.runs && w.runs[id].pc.Inserting? && w.runs[id].pc.attempt == attempt
    requires !Taken(w.receipts, attempt) && j in w.runs && j != id
    ensures RunOk(Inserted(w, id, attempt, now), j, w.runs[j])
  {
    var v := Inserted(w, id, attempt, now);
    var n := |w.receipts|;
    assert RunOk(w, id, w.runs[id]) && RunOk(w, j, w.runs[j]);
    if w.runs[j].pc.Inserting? {
      if Taken(w.receipts, w.runs[j].pc.attempt) {
        var i :| 0 <= i < n && w.receipts[i].attempt == w.runs[j].pc.attempt;
        assert v.receipts[i].attempt == w.runs[j].pc.attempt;
      } else {
        assert v.receipts[n].attempt == w.runs[j].pc.attempt;
      }
    }
  }

  lemma InsertKeeps(p: Provider, w: World, id: nat, now: int)
    requires Inv(w) && Enabled(p, w, Insert(id, now))
    ensures Inv(Apply(p, w, Insert(id, now)))
  {
    var attempt := w.runs[id].pc.attempt;
    if Taken(w.receipts, attempt) {
      EndKeeps(w, id);
    } else {
      assert RunOk(w, id, w.runs[id]);
      InsertedTable(w, id, attempt, now);
      forall j | j in w.runs && j != id ensures RunOk(Inserted(w, id, attempt, now), j, w.runs[j]) {
        InsertedOthers(w, id, attempt, now, j);
      }
    }
  }

  lemma StepKeeps(p: Provider, w: World, e: Event)
    requires Inv(w) && Enabled(p, w, e) && !p.idempotentSubmit && StatusReadsAreHarmless(p)
    ensures Inv(Apply(p, w, e))
  {
    match e {
      case Start(id, attempts, resolved, saw) => StartKeeps(p, w, id, attempts, resolved, saw);
      case Read(id, now) => ReadKeeps(p, w, id, now);
      case Poll(id, a) => PollKeeps(p, w, id, a);
      case Count(id) => CountKeeps(p, w, id);
      case Mark(id) => MarkKeeps(p, w, id);
      case Insert(id, now) => InsertKeeps(p, w, id, now);
      case Send(id) => SendKeeps(p, w, id);
      case Receive(id, a) => ReceiveKeeps(p, w, id, a);
      case Settle(id) => SettleKeeps(p, w, id);
      case Stop(id) => StopKeeps(p, w, id);
      case GoLive(row) => PlatformKeeps(w, row, Live);
      case Die(row) => PlatformKeeps(w, row, Dead);
    }
  }

  lemma {:induction false} HistoryKeeps(p: Provider, es: seq<Event>)
    requires After(p, es).Some? && !p.idempotentSubmit && StatusReadsAreHarmless(p)
    ensures Inv(After(p, es).value)
  {
    if es != [] {
      HistoryKeeps(p, es[..|es| - 1]);
      StepKeeps(p, After(p, es[..|es| - 1]).value, es[|es| - 1]);
    }
  }

  // ---------------------------------------------------------------------------
  // Counting posts
  // ---------------------------------------------------------------------------

  /** The posts that are on the platform. */
  function LiveRows(w: World): set<nat> {
    set r | r in w.posts && w.posts[r] == Live
  }

  function FailedRows(w: World): set<nat> {
    set r: nat | r < |w.receipts| && w.receipts[r].status == ReceiptStatus.Failed
  }

  /** A post that is, or may still come, live. */
  ghost function IsOpen(w: World): nat -> bool {
    (r: nat) => r in w.posts && w.posts[r] != Dead
  }

  ghost function IsFailed(w: World): nat -> bool {
    (r: nat) => r < |w.receipts| && w.receipts[r].status == ReceiptStatus.Failed
  }

  /** A row inserted by one of these runs. */
  ghost function IsBy(owners: seq<nat>, ids: set<nat>): nat -> bool {
    (r: nat) => r < |owners| && owners[r] in ids
  }

  lemma {:induction false} OpenRowsBound(w: World, n: nat)
    requires Inv(w) && n <= |w.receipts|
    ensures Tally(n, IsOpen(w)) <= Tally(n, IsBy(w.owners, w.resolvedRuns)) + if 0 < n && IsOpen(w)(n - 1) then 1 else 0
  {
    if n > 0 {
      OpenRowsBound(w, n - 1);
      assert Justified(w, n - 1);
      assert n > 1 ==> RowOk(w, n - 2);
    }
  }

  /** Each run inserts at most one row. */
  lemma {:induction false} OneRowPerRun(owners: seq<nat>, n: nat, ids: set<nat>)
    requires n <= |owners| && forall i, j :: 0 <= i < j < |owners| ==> owners[i] != owners[j]
    ensures Tally(n, IsBy(owners, ids)) <= |ids|
  {
    if n > 0 {
      var fewer := ids - {owners[n - 1]};
      OneRowPerRun(owners, n - 1, fewer);
      CountLess(n - 1, IsBy(owners, ids), IsBy(owners, fewer));
    }
  }

  lemma {:induction false} RowsBound(w: World, n: nat)
    requires Inv(w) && n <= |w.receipts|
    ensures n <= 1 + (if n == 0 then 0 else Tally(n - 1, IsFailed(w))) + Tally(n, IsBy(w.owners, w.resolvedRuns))
  {
    if n > 1 {
      RowsBound(w, n - 1);
      assert Justified(w, n - 1);
    }
  }

  /**
   * At most once: whatever the interleaving and wherever runs stop, the posts that are live never outnumber one
   * plus the runs an operator resolved, and neither do the requests sent exceed one plus the failed receipts
   * plus the resolved runs.
   */
  lemma AtMostOncePublication(p: Provider, es: seq<Event>)
    requires After(p, es).Some? && !p.idempotentSubmit && StatusReadsAreHarmless(p)
    ensures var w := After(p, es).value;
      && |LiveRows(w)| <= 1 + |w.resolvedRuns|
      && |w.posts| <= 1 + |FailedRows(w)| + |w.resolvedRuns|
  {
    HistoryKeeps(p, es);
    var w := After(p, es).value;
    var n := |w.receipts|;
    OpenRowsBound(w, n);
    OneRowPerRun(w.owners, n, w.resolvedRuns);
    var live: nat -> bool := r => r in w.posts && w.posts[r] == Live;
    Card(LiveRows(w), n, live);
    CountLess(n, live, IsOpen(w));
    var sent: nat -> bool := r => r in w.posts;
    Card(w.posts.Keys, n, sent);
    CountAll(n, sent);
    RowsBound(w, n);
    Card(FailedRows(w), n, IsFailed(w));
    assert |w.posts| == |w.posts.Keys|;
  }

  lemma Snoc(p: Provider, es: seq<Event>, e: Event)
    requires After(p, es).Some? && Enabled(p, After(p, es).value, e)
    ensures After(p, es + [e]) == Some(Apply(p, After(p, es).value, e))
  {
    assert (es + [e])[..|es + [e]| - 1] == es;
  }

  const ACCEPTED := Receipt(1, ReceiptStatus.Accepted, Some("op"), 0, 0, None, None, None)

  /** A first run whose post was accepted: one accepted receipt, one pending post, nobody running. */
  lemma AcceptedOnce(p: Provider) returns (es: seq<Event>)
    requires p.hasStatus && !p.idempotentSubmit
    ensures After(p, es) == Some(World(
      [ACCEPTED], [0], map[0 := Pending], map[], {0}, {}))
  {
    hide After;
    var accepted := Returned(RawAccepted(Some("op"), None));
    NoEvents(p);
    es := [];
    var w := INIT;
    es, w := Then(p, es, w, Start(0, 1, false, false));
    es, w := Then(p, es, w, Read(0, 0));
    assert w.runs[0].pc == Inserting(1, 0);
    es, w := Then(p, es, w, Insert(0, 0));
    es, w := Then(p, es, w, Send(0));
    es, w := Then(p, es, w, Receive(0, accepted));
    es, w := Then(p, es, w, Settle(0));
    es, w := Then(p, es, w, Stop(0));
    assert w.runs == map[];
    assert w.receipts == [ACCEPTED] && w.owners == [0] && w.started == {0} && w.resolvedRuns == {};
  }

  lemma NoEvents(p: Provider)
    ensures After(p, []) == Some(INIT)
  {
  }

  /** One more event of a concrete history. */
  lemma Then(p: Provider, es: seq<Event>, w: World, e: Event) returns (es': seq<Event>, w': World)
    requires After(p, es) == Some(w) && Enabled(p, w, e)
    ensures es' == es + [e] && w' == Apply(p, w, e) && After(p, es') == Some(w')
  {
    Snoc(p, es, e);
    es', w' := es + [e], Apply(p, w, e);
  }

  lemma ThrowingStatusRead(p: Provider, es: seq<Event>, t: (ErrorClass, bool)) returns (es': seq<Event>, w': World)
    requires After(p, es) == Some(World([ACCEPTED], [0], map[0 := Pending], map[], {0}, {}))
    requires p.hasStatus && t in p.statusThrows && !(t.0 == UnknownOutcome || (DecisionFor(t.0) == Retry && !t.1))
    ensures After(p, es') == Some(w')
    ensures w' == World([ACCEPTED], [0], map[0 := Pending],
                        map[1 := Run(2, false, true, Counting(0, ACCEPTED, Outcome.Failed(t.0, None, t.1)))], {0, 1}, {})
  {
    hide After;
    es', w' := Then(p, es, After(p, es).value, Start(1, 2, false, true));
    es', w' := Then(p, es', w', Read(1, 0));
    assert Latest(w'.receipts[..0]) == None;
    assert w'.runs == map[1 := Run(2, false, true, Polling(0, ACCEPTED))];
    es', w' := Then(p, es', w', Poll(1, Threw(Thrown(t.0, t.1, None))));
  }

  /** A status read that raises anything but a retryable or unknown class marks the receipt failed, whatever the post. */
  lemma FailedByStatusRead(p: Provider, es: seq<Event>, t: (ErrorClass, bool)) returns (es': seq<Event>, w': World)
    requires After(p, es) == Some(World([ACCEPTED], [0], map[0 := Pending], map[], {0}, {}))
    requires p.hasStatus && t in p.statusThrows && !(t.0 == UnknownOutcome || (DecisionFor(t.0) == Retry && !t.1))
    ensures After(p, es') == Some(w') && w'.runs == map[] && w'.started == {0, 1} && w'.posts == map[0 := Pending]
    ensures w'.receipts == [ACCEPTED.(status := ReceiptStatus.Failed, pollCount := 1, errorClass := Some(t.0))] && w'.resolvedRuns == {}
  {
    hide After;
    es', w' := ThrowingStatusRead(p, es, t);
    es', w' := Then(p, es', w', Count(1));
    es', w' := Then(p, es', w', Settle(1));
    es', w' := Then(p, es', w', Stop(1));
    assert w'.runs == map[];
  }

  lemma PostsTwice(p: Provider) returns (es: seq<Event>)
    requires !p.idempotentSubmit && !StatusReadsAreHarmless(p)
    ensures After(p, es).Some? && After(p, es).value.resolvedRuns == {}
    ensures LiveRows(After(p, es).value) == {0, 1}
  {
    var t :| t in p.statusThrows && !(t.0 == UnknownOutcome || (DecisionFor(t.0) == Retry && !t.1));
    es := AcceptedOnce(p);
    var w;
    es, w := FailedByStatusRead(p, es, t);
    es, w := PostAgain(p, es, w);
  }

  /** From a failed receipt whose post is still pending, a further run and the platform make two posts live. */
  lemma PostAgain(p: Provider, es: seq<Event>, w: World) returns (es': seq<Event>, w': World)
    requires After(p, es) == Some(w) && w.runs == map[] && w.started == {0, 1} && w.posts == map[0 := Pending]
    requires |w.receipts| == 1 && w.receipts[0].attempt == 1 && w.receipts[0].status == ReceiptStatus.Failed
    requires !p.idempotentSubmit && w.resolvedRuns == {}
    ensures After(p, es') == Some(w') && LiveRows(w') == {0, 1} && w'.resolvedRuns == {}
  {
    hide After;
    es', w' := Then(p, es, w, Start(2, 3, false, true));
    es', w' := Then(p, es', w', Read(2, 0));
    assert Latest(w'.receipts[..0]) == None;
    assert w'.runs[2].pc == Inserting(3, 1);
    es', w' := Then(p, es', w', Insert(2, 0));
    es', w' := Then(p, es', w', Send(2));
    es', w' := Then(p, es', w', GoLive(0));
    es', w' := Then(p, es', w', GoLive(1));
  }

  /** Without idempotent submits and without operators, at most one post is ever live exactly when status reads are harmless. */
  lemma AtMostOnceExactly(p: Provider)
    requires !p.idempotentSubmit
    ensures StatusReadsAreHarmless(p) <==>
      forall es :: After(p, es).Some? && After(p, es).value.resolvedRuns == {} ==> |LiveRows(After(p, es).value)| <= 1
  {
    if StatusReadsAreHarmless(p) {
      forall es | After(p, es).Some? && After(p, es).value.resolvedRuns == {}
        ensures |LiveRows(After(p, es).value)| <= 1
      {
        AtMostOncePublication(p, es);
      }
    } else {
      var es := PostsTwice(p);
      assert |LiveRows(After(p, es).value)| == 2;
    }
  }
}
