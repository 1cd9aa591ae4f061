/** The publishing engine: one run over the variant row and the receipts table, allowed to crash at any call. */
module PublishEngine {
  import opened Options
  import opened PublishContract
  import opened PublishProtocol
  import opened PublishStates

  const MIN_POLL_MS := 15_000
  const MAX_POLL_MS := 10 * 60_000

  function PollDelayMs(pollCount: nat, hintMs: Option<int>): int {
    Min(MAX_POLL_MS, Max(Max(MIN_POLL_MS, hintMs.Or(0)), MIN_POLL_MS * Pow2(Min(pollCount, 6))))
  }

  /** Every deferral lies between 15 seconds and 10 minutes and never shrinks as polls grow. */
  lemma PollDelayBounds(a: nat, b: nat, hintMs: Option<int>)
    requires a <= b
    ensures MIN_POLL_MS <= PollDelayMs(a, hintMs) <= PollDelayMs(b, hintMs) <= MAX_POLL_MS
    ensures hintMs.Some? ==> Min(hintMs.value, MAX_POLL_MS) <= PollDelayMs(a, hintMs)
    ensures PollDelayMs(a, None) == Min(MIN_POLL_MS * Pow2(a), MAX_POLL_MS)
  {
    Pow2Grows(Min(a, 6), a);
    Pow2Grows(Min(a, 6), Min(b, 6));
  }

  /** A row of editorial_variants; `hasError` says whether last_error is set. */
  datatype Variant = Variant(
    state: PublishState,
    attemptCount: nat,
    externalRef: Option<string>,
    externalUrl: Option<string>,
    hasError: bool)

  /** The columns an update sets besides the state. */
  datatype Patch = Patch(attemptCount: Option<nat>, external: Option<(Option<string>, Option<string>)>, hasError: Option<bool>)

  const NOTHING := Patch(None, None, None)
  const ERROR := Patch(None, None, Some(true))

  function WentLive(ref: Option<string>, url: Option<string>): Patch {
    Patch(None, Some((ref, url)), Some(false))
  }

  function PatchVariant(v: Variant, p: Patch): Variant {
    Variant(v.state, p.attemptCount.Or(v.attemptCount),
            if p.external.Some? then p.external.value.0 else v.externalRef,
            if p.external.Some? then p.external.value.1 else v.externalUrl,
            p.hasError.Or(v.hasError))
  }

  datatype Task = Task(attempts: nat, maxAttempts: nat, resolved: bool)

  /** What the outside does during a run: the provider's answer and what has become of the post by then. */
  datatype Script = Script(answer: Answer, fate: Post)

  /** How a run ends. A run that crashes leaves whatever it has written. */
  datatype RunEnd =
    | Completed(externalRef: Option<string>, externalUrl: Option<string>)
    | Deferred(delayMs: int, row: nat)
    | Raised(errorClass: ErrorClass, terminal: bool)
    | Skipped
    | Crashed

  /** The result of one call to the outside: it happens, or the run ends here. */
  datatype Step = Ok | Ends(end: RunEnd) {
    predicate IsFailure() { Ends? }
    function PropagateFailure(): RunEnd requires Ends? { end }
  }

  /** The variant state fixed by the latest receipt. */
  predicate Agrees(v: Variant, rs: seq<Receipt>) {
    match PriorOf(rs)
    case None => v.state == PublishState.Failed
    case Some(r) =>
      match r.status
      case Submitting => false
      case Accepted => v.state == Publishing
      case Published => v.state == PublishState.Published && v.externalRef == r.externalRef && v.externalUrl == r.externalUrl
      case Failed => v.state == PublishState.Failed || v.state == Queued
      case _ => v.state == PublishState.Failed
  }

  /** The variant state that belongs to an outcome. */
  function StateFor(task: Task, o: Outcome): PublishState {
    match o
    case Published(_, _) => PublishState.Published
    case Accepted(_, _) => Publishing
    case Failed(cls, _, final) =>
      if !final && DecisionFor(cls) == Retry && task.attempts < task.maxAttempts then Queued else PublishState.Failed
    case _ => PublishState.Failed
  }

  /** How a run with this outcome ends. */
  function EndFor(o: Outcome, row: nat, pollCount: nat): RunEnd {
    match o
    case Published(ref, url) => Completed(ref, url)
    case Accepted(_, hint) => Deferred(PollDelayMs(pollCount, hint), row)
    case Partial(_, _) => Raised(UnknownOutcome, true)
    case Failed(cls, _, final) => Raised(cls, final)
    case Unknown(_) => Raised(UnknownOutcome, false)
  }

  /** Nothing is ever submitted or polled on top of these. */
  predicate SettledLast(rs: seq<Receipt>) {
    PriorOf(rs).Some? && PriorOf(rs).value.status in {ReceiptStatus.Published, ReceiptStatus.Partial}
  }

  /** What a run reports is what its latest receipt says. */
  predicate EndMatches(end: RunEnd, rs: seq<Receipt>) {
    match PriorOf(rs)
    case None => end == Raised(UnknownOutcome, false)
    case Some(r) =>
      match r.status
      case Published => end == Completed(r.externalRef, r.externalUrl)
      case Accepted => end.Deferred? && end.row == |rs| - 1 && MIN_POLL_MS <= end.delayMs <= MAX_POLL_MS
      case Partial => end == Raised(UnknownOutcome, true)
      case Failed => end.Raised? && r.errorClass == Some(end.errorClass)
      case Unknown => end == Raised(UnknownOutcome, false)
      case Submitting => false
  }

  /** The queue runs a task again after an error of a class to retry, unless it is terminal or the attempts are used up. */
  predicate RunsAgain(task: Task, end: RunEnd) {
    end.Raised? && !end.terminal && end.errorClass in {Transient, RateLimited, Internal} && task.attempts < task.maxAttempts
  }

  /** The variant waits in `queued` exactly for a task that runs again. */
  predicate Awaits(v: Variant, task: Task, end: RunEnd) {
    match end
    case Completed(_, _) => v.state == PublishState.Published
    case Deferred(_, _) => v.state == Publishing
    case Raised(_, _) => v.state == if RunsAgain(task, end) then Queued else PublishState.Failed
    case _ => true
  }

  /** The latest receipt is an accepted operation that can be polled. */
  predicate Pollable(p: Provider, rs: seq<Receipt>) {
    && rs != [] && rs[|rs| - 1].status == ReceiptStatus.Accepted && Usable(rs[|rs| - 1].operationRef) && p.hasStatus
  }

  /** A poll moves the receipt one step towards MAX_POLLS; one that is too old ends as unknown. */
  predicate PolledOnce(before: seq<Receipt>, rs: seq<Receipt>, now: int)
    requires before != []
  {
    var last := |before| - 1;
    && |rs| == |before| && rs[..last] == before[..last]
    && rs[last].pollCount == before[last].pollCount + 1
    && rs[last].status != Submitting
    && (now - before[last].createdAt > MAX_ACCEPTED_AGE_MS || before[last].pollCount >= MAX_POLLS ==>
          rs[last].status == ReceiptStatus.Unknown)
  }

  /**
   * `tables` are the receipts between runs that are not cut short, each of which finds an accepted operation to poll. There
   * are at most as many as polls are left, and one that gives the operation up: an accepted receipt does not stay accepted.
   */
  lemma {:induction false} AcceptedSettles(p: Provider, tables: seq<seq<Receipt>>, nows: seq<int>)
    requires |tables| == |nows| + 1 && tables[0] != []
    requires forall i :: 0 <= i < |nows| ==> Pollable(p, tables[i]) && PolledOnce(tables[i], tables[i + 1], nows[i])
    ensures var left := Max(0, MAX_POLLS - tables[0][|tables[0]| - 1].pollCount);
      && |nows| <= left + 1
      && (|nows| == left + 1 ==> |tables[|nows|]| == |tables[0]| && tables[|nows|][|tables[0]| - 1].status == ReceiptStatus.Unknown)
    decreases |nows|
  {
    if |nows| > 1 {
      assert Pollable(p, tables[1]);
      AcceptedSettles(p, tables[1..], nows[1..]);
    }
  }

  /** When a run may put a new attempt on top of the latest receipt. */
  predicate MaySubmit(p: Provider, task: Task, state: PublishState, prior: Option<Receipt>) {
    match prior
    case None => p.idempotentSubmit || state != Publishing
    case Some(r) =>
      || r.status == ReceiptStatus.Failed
      || (r.status == ReceiptStatus.Unknown && task.resolved)
      || (p.idempotentSubmit && r.status !in {ReceiptStatus.Published, ReceiptStatus.Partial})
  }

  /** An ambiguous attempt that cannot be repeated safely is not repeated. */
  lemma MayNotSubmit(p: Provider, task: Task, state: PublishState, prior: Option<Receipt>)
    requires Ambiguous(p, Run(task.attempts, task.resolved, state == Publishing, Reading), prior) && !p.idempotentSubmit
    ensures !MaySubmit(p, task, state, prior)
  {
  }

  /** The states the task handler lets through to the engine. */
  predicate Admitted(s: PublishState) {
    s in {Scheduled, Queued, PublishState.Failed, Publishing}
  }

  /** From an admitted state the engine's four targets can always be reached. */
  lemma NoDeadEnd(from: PublishState, to: PublishState)
    requires Admitted(from) && to in {Publishing, PublishState.Published, PublishState.Failed, Queued}
    ensures exists path :: Admissible(Legal(), Hops(), from, to, path)
  {
    var path :=
      if from == to then []
      else if to in Legal()[from] then [to]
      else if from == PublishState.Failed && to == PublishState.Published then [Scheduled, Publishing, to]
      else if from == PublishState.Failed then [Scheduled, to]
      else [Publishing, to];
    assert Admissible(Legal(), Hops(), from, to, path);
  }

  lemma TableTotal()
    ensures Total(Legal())
  {
  }

  lemma WalkOn<T>(legal: Table<T>, origin: T, walk: seq<T>, s: T)
    requires LegalWalk(legal, origin, walk) && End(origin, walk) in legal && s in legal[End(origin, walk)]
    ensures LegalWalk(legal, origin, walk + [s]) && End(origin, walk + [s]) == s
  {
    assert forall i :: 0 <= i <= |walk| ==> Before(origin, walk + [s], i) == Before(origin, walk, i);
  }

  /** A pending post meets its fate; a decided one stays. */
  function PostsBy(posts: map<nat, Post>, row: nat, fate: Post): map<nat, Post>
    requires row in posts
  {
    if posts[row] == Pending then posts[row := fate] else posts
  }

  /** What a receipt row satisfies, whatever the provider promises; `sent` are the rows whose request was sent. */
  ghost predicate ReceiptOk(rs: seq<Receipt>, sent: set<nat>, i: nat)
    requires i < |rs|
  {
    && rs[i].attempt >= 1
    && (rs[i].operationRef.Some? ==> Usable(rs[i].operationRef))
    && (rs[i].status == ReceiptStatus.Accepted ==> rs[i].operationRef.Some?)
    && (rs[i].status !in {Submitting, ReceiptStatus.Unknown} ==> i in sent)
  }

  /** Recording this outcome is an update the table accepts. */
  predicate Recordable(r: Receipt, hadRef: bool, o: Outcome) {
    && Writable(r, Patched(r, hadRef, o))
    && (o.Accepted? ==> hadRef || o.operationRef != "")
    && (o.Unknown? && o.maybeRef.Some? ==> Usable(o.maybeRef))
  }

  /** The outcome of a poll: unknown once the operation is too old, else what the provider's answer means. */
  function PollResult(prior: Receipt, now: int, a: Answer): Outcome {
    if Expired(prior, now) then Outcome.Unknown(prior.operationRef) else PollOutcome(prior, a)
  }

  lemma PollRecordable(prior: Receipt, now: int, a: Answer)
    requires prior.status == ReceiptStatus.Accepted && Usable(prior.operationRef)
    ensures var counted := prior.(pollCount := prior.pollCount + 1);
      && Recordable(counted, true, PollResult(prior, now, a))
      && Patched(counted, true, PollResult(prior, now, a)).pollCount == counted.pollCount
  {
  }

  lemma SubmitRecordable(attempt: nat, now: int, a: Answer, idempotent: bool)
    ensures Recordable(NewReceipt(attempt, now), false, Interpret(a, idempotent))
    ensures Patched(NewReceipt(attempt, now), false, Interpret(a, idempotent)).pollCount == 0
  {
  }

  function NewReceipt(attempt: nat, now: int): Receipt {
    Receipt(attempt, Submitting, None, 0, now, None, None, None)
  }

  lemma AgreesAfter(v: Variant, rs: seq<Receipt>, r: Receipt, hadRef: bool, o: Outcome, task: Task)
    requires rs != [] && rs[|rs| - 1] == Patched(r, hadRef, o) && v.state == StateFor(task, o)
    requires forall i, j :: 0 <= i < j < |rs| ==> rs[i].attempt < rs[j].attempt
    requires o.Published? ==> v.externalRef == o.externalRef && v.externalUrl == o.externalUrl
    ensures Agrees(v, rs) && EndMatches(EndFor(o, |rs| - 1, rs[|rs| - 1].pollCount), rs)
    ensures Awaits(v, task, EndFor(o, |rs| - 1, rs[|rs| - 1].pollCount))
  {
    LatestIsLast(rs);
    var pc := rs[|rs| - 1].pollCount;
    if o.Accepted? {
      PollDelayBounds(pc, pc, o.pollAfterMs);
    }
  }

  /** `polls` counts the status reads of each row: all but the uncounted one and one per crash are in its poll_count. */
  ghost predicate RowsOk(rs: seq<Receipt>, sent: set<nat>, polls: seq<nat>, crashes: nat, uncounted: set<nat>) {
    && (forall i, j :: 0 <= i < j < |rs| ==> rs[i].attempt < rs[j].attempt)
    && (forall i :: 0 <= i < |rs| ==> ReceiptOk(rs, sent, i))
    && |polls| == |rs|
    && (forall i :: 0 <= i < |rs| ==> polls[i] <= Min(rs[i].pollCount, MAX_POLLS) + crashes + if i in uncounted then 1 else 0)
  }

  lemma RowsUpdated(rs: seq<Receipt>, sent: set<nat>, polls: seq<nat>, crashes: nat, uncounted: set<nat>, row: nat, r: Receipt)
    requires RowsOk(rs, sent, polls, crashes, uncounted) && row < |rs| && r.attempt == rs[row].attempt
    requires r.pollCount >= rs[row].pollCount && ReceiptOk(rs[row := r], sent, row)
    ensures RowsOk(rs[row := r], sent, polls, crashes, uncounted)
  {
    var after := rs[row := r];
    forall i | 0 <= i < |rs| ensures ReceiptOk(after, sent, i) {
      assert ReceiptOk(rs, sent, i);
    }
  }

  /** Counting a poll absorbs the read that was not counted yet. */
  lemma RowsCounted(rs: seq<Receipt>, sent: set<nat>, polls: seq<nat>, crashes: nat, uncounted: set<nat>, row: nat)
    requires RowsOk(rs, sent, polls, crashes, uncounted) && row < |rs| && uncounted <= {row}
    requires row in uncounted ==> rs[row].pollCount < MAX_POLLS
    ensures RowsOk(rs[row := rs[row].(pollCount := rs[row].pollCount + 1)], sent, polls, crashes, {})
  {
    var r := rs[row].(pollCount := rs[row].pollCount + 1);
    var after := rs[row := r];
    forall i | 0 <= i < |rs| ensures ReceiptOk(after, sent, i) {
      assert ReceiptOk(rs, sent, i);
    }
  }

  lemma RowsInserted(rs: seq<Receipt>, sent: set<nat>, polls: seq<nat>, crashes: nat, uncounted: set<nat>, attempt: nat, now: int)
    requires RowsOk(rs, sent, polls, crashes, uncounted) && attempt >= 1
    requires forall i :: 0 <= i < |rs| ==> rs[i].attempt < attempt
    ensures RowsOk(rs + [NewReceipt(attempt, now)], sent, polls + [0], crashes, uncounted)
    ensures !Taken(rs, attempt)
  {
    var after := rs + [NewReceipt(attempt, now)];
    forall i | 0 <= i < |after| ensures ReceiptOk(after, sent, i) {
      if i < |rs| {
        assert ReceiptOk(rs, sent, i);
      }
    }
  }

  lemma RowsSent(rs: seq<Receipt>, sent: set<nat>, polls: seq<nat>, crashes: nat, uncounted: set<nat>, row: nat)
    requires RowsOk(rs, sent, polls, crashes, uncounted)
    ensures RowsOk(rs, sent + {row}, polls, crashes, uncounted)
  {
    forall i | 0 <= i < |rs| ensures ReceiptOk(rs, sent + {row}, i) {
      assert ReceiptOk(rs, sent, i);
    }
  }

  lemma RowsRead(rs: seq<Receipt>, sent: set<nat>, polls: seq<nat>, crashes: nat, row: nat)
    requires RowsOk(rs, sent, polls, crashes, {}) && row < |rs|
    ensures RowsOk(rs, sent, polls[row := polls[row] + 1], crashes, {row})
  {
  }

  /** The table the engine sees is the one in the history, and its rows are in order. */
  ghost predicate Book(w: World, rs: seq<Receipt>, polls: seq<nat>, crashes: nat, uncounted: set<nat>) {
    w.receipts == rs && RowsOk(rs, w.posts.Keys, polls, crashes, uncounted)
  }

  /** Only run `id` is under way, about to do `pc`. */
  ghost predicate Alone(w: World, id: nat, task: Task, pc: Pc) {
    && w.runs.Keys == {id} && w.runs[id].pc == pc
    && w.runs[id].attempts == task.attempts && w.runs[id].resolved == task.resolved
  }

  lemma SameBook(w: World, v: World, rs: seq<Receipt>, polls: seq<nat>, crashes: nat, uncounted: set<nat>)
    requires Book(w, rs, polls, crashes, uncounted) && v.receipts == w.receipts && v.posts == w.posts
    ensures Book(v, rs, polls, crashes, uncounted)
  {
  }

  lemma RowsCrash(rs: seq<Receipt>, sent: set<nat>, polls: seq<nat>, crashes: nat, uncounted: set<nat>)
    requires RowsOk(rs, sent, polls, crashes, uncounted)
    ensures RowsOk(rs, sent, polls, crashes + 1, {})
  {
    assert forall i :: 0 <= i < |rs| ==> ReceiptOk(rs, sent, i);
  }

  // Each event of a lone run, with the update the engine makes beside it.

  lemma CountBook(p: Provider, w: World, polls: seq<nat>, crashes: nat, uncounted: set<nat>,
                  id: nat, task: Task, row: nat, prior: Receipt, o: Outcome)
    requires Book(w, w.receipts, polls, crashes, uncounted) && Alone(w, id, task, Counting(row, prior, o))
    requires row < |w.receipts| && w.receipts[row] == prior && prior.status == ReceiptStatus.Accepted
    requires uncounted <= {row} && (row in uncounted ==> prior.pollCount < MAX_POLLS)
    ensures var e := Event.Count(id);
      && Enabled(p, w, e) && Apply(p, w, e).posts == w.posts
      && Book(Apply(p, w, e), w.receipts[row := prior.(pollCount := prior.pollCount + 1)], polls, crashes, {})
      && Alone(Apply(p, w, e), id, task, Settling(row, true, o))
  {
    assert ReceiptOk(w.receipts, w.posts.Keys, row);
    RowsCounted(w.receipts, w.posts.Keys, polls, crashes, uncounted, row);
  }

  lemma MarkBook(p: Provider, w: World, polls: seq<nat>, crashes: nat, uncounted: set<nat>, id: nat, task: Task, row: nat)
    requires Book(w, w.receipts, polls, crashes, uncounted) && Alone(w, id, task, Marking(row))
    requires row < |w.receipts| && w.receipts[row].status in {Submitting, ReceiptStatus.Accepted}
    ensures
      && Enabled(p, w, Mark(id)) && Apply(p, w, Mark(id)).posts == w.posts
      && Book(Apply(p, w, Mark(id)), w.receipts[row := Doubted(w.receipts[row])], polls, crashes, uncounted)
      && Alone(Apply(p, w, Mark(id)), id, task, Ending)
  {
    assert ReceiptOk(w.receipts, w.posts.Keys, row);
    RowsUpdated(w.receipts, w.posts.Keys, polls, crashes, uncounted, row, Doubted(w.receipts[row]));
  }

  lemma SettleBook(p: Provider, w: World, polls: seq<nat>, crashes: nat, uncounted: set<nat>,
                   id: nat, task: Task, row: nat, hadRef: bool, o: Outcome)
    requires Book(w, w.receipts, polls, crashes, uncounted) && Alone(w, id, task, Settling(row, hadRef, o))
    requires row < |w.receipts| && row in w.posts && Recordable(w.receipts[row], hadRef, o)
    ensures
      && Enabled(p, w, Settle(id)) && Apply(p, w, Settle(id)).posts == w.posts
      && Book(Apply(p, w, Settle(id)), w.receipts[row := Patched(w.receipts[row], hadRef, o)], polls, crashes, uncounted)
      && Alone(Apply(p, w, Settle(id)), id, task, Ending)
  {
    assert ReceiptOk(w.receipts, w.posts.Keys, row);
    RowsUpdated(w.receipts, w.posts.Keys, polls, crashes, uncounted, row, Patched(w.receipts[row], hadRef, o));
  }

  lemma InsertBook(p: Provider, w: World, polls: seq<nat>, crashes: nat, id: nat, task: Task, attempt: nat, now: int)
    requires Book(w, w.receipts, polls, crashes, {}) && Alone(w, id, task, Inserting(attempt, |w.receipts|))
    requires attempt >= 1 && forall i :: 0 <= i < |w.receipts| ==> w.receipts[i].attempt < attempt
    ensures var e := Event.Insert(id, now);
      && !Taken(w.receipts, attempt)
      && Enabled(p, w, e) && Apply(p, w, e).posts == w.posts
      && Book(Apply(p, w, e), w.receipts + [NewReceipt(attempt, now)], polls + [0], crashes, {})
      && Alone(Apply(p, w, e), id, task, Calling(|w.receipts|))
  {
    RowsInserted(w.receipts, w.posts.Keys, polls, crashes, {}, attempt, now);
  }

  lemma SendBook(p: Provider, w: World, polls: seq<nat>, crashes: nat, id: nat, task: Task, row: nat)
    requires Book(w, w.receipts, polls, crashes, {}) && Alone(w, id, task, Calling(row))
    ensures
      && Enabled(p, w, Send(id)) && Apply(p, w, Send(id)).posts == w.posts[row := Pending]
      && Book(Apply(p, w, Send(id)), w.receipts, polls, crashes, {})
      && Alone(Apply(p, w, Send(id)), id, task, Awaiting(row))
  {
    RowsSent(w.receipts, w.posts.Keys, polls, crashes, {}, row);
    assert w.posts[row := Pending].Keys == w.posts.Keys + {row};
  }

  /** The world once a pending post has met its fate. */
  ghost function Fated(w: World, row: nat, fate: Post): World
    requires row in w.posts
  {
    w.(posts := PostsBy(w.posts, row, fate))
  }

  lemma FateBook(w: World, polls: seq<nat>, crashes: nat, uncounted: set<nat>, id: nat, task: Task, pc: Pc, row: nat, fate: Post)
    requires Book(w, w.receipts, polls, crashes, uncounted) && Alone(w, id, task, pc) && row in w.posts
    ensures Book(Fated(w, row, fate), w.receipts, polls, crashes, uncounted) && Alone(Fated(w, row, fate), id, task, pc)
  {
    assert Fated(w, row, fate).posts.Keys == w.posts.Keys;
  }

  lemma ReceiveBook(p: Provider, w: World, polls: seq<nat>, crashes: nat, id: nat, task: Task, row: nat, a: Answer)
    requires Book(w, w.receipts, polls, crashes, {}) && Alone(w, id, task, Awaiting(row))
    requires row in w.posts && SubmitAnswer(w.posts[row], a)
    ensures var e := Receive(id, a);
      && Enabled(p, w, e) && Apply(p, w, e).posts == w.posts
      && Book(Apply(p, w, e), w.receipts, polls, crashes, {})
      && Alone(Apply(p, w, e), id, task, Settling(row, false, Interpret(a, p.idempotentSubmit)))
  {
  }

  lemma PollBook(p: Provider, w: World, polls: seq<nat>, crashes: nat, uncounted: set<nat>,
                 id: nat, task: Task, row: nat, prior: Receipt, a: Answer)
    requires Book(w, w.receipts, polls, crashes, uncounted) && Alone(w, id, task, Polling(row, prior))
    requires p.hasStatus && row in w.posts && StatusAnswer(p, prior, w.posts[row], a)
    ensures var e := Poll(id, a);
      && Enabled(p, w, e) && Apply(p, w, e).posts == w.posts
      && Book(Apply(p, w, e), w.receipts, polls, crashes, uncounted)
      && Alone(Apply(p, w, e), id, task, Counting(row, prior, PollOutcome(prior, a)))
  {
  }

  /**
   * The rows of one scheduled variant, the provider, and the process that runs the engine.
   * `log` is the history of the receipt protocol, `origin` and `walk` every state the variant row has had,
   * `statusReads` the calls of `status` made for each receipt.
   */
  class Desk {
    const provider: Provider
    var variant: Variant
    var receipts: seq<Receipt>
    /** Calls to the outside the process still makes before it dies. */
    var life: nat
    ghost var log: seq<Event>
    ghost const origin: PublishState
    ghost var walk: seq<PublishState>
    ghost var statusReads: seq<nat>
    /** Rows with a status read whose count is not written yet. */
    ghost var uncounted: set<nat>
    ghost var crashes: nat

    ghost function World(): World
      reads `log
      requires After(provider, log).Some?
    {
      After(provider, log).value
    }

    ghost predicate Valid()
      reads `log, `receipts, `variant, `walk, `statusReads, `uncounted, `crashes
    {
      && After(provider, log).Some?
      && Book(World(), receipts, statusReads, crashes, uncounted)
      && LegalWalk(Legal(), origin, walk) && End(origin, walk) == variant.state
    }

    /** Nobody is running. */
    ghost predicate Quiet()
      reads `log, `receipts, `variant, `walk, `statusReads, `uncounted, `crashes
    {
      Valid() && World().runs == map[] && uncounted == {}
    }

    /** Only run `id` is under way, about to do `pc`. */
    ghost predicate At(id: nat, task: Task, pc: Pc)
      reads `log, `receipts, `variant, `walk, `statusReads, `uncounted, `crashes
    {
      Valid() && Alone(World(), id, task, pc)
    }

    /** Run `id` has nothing left to do. */
    ghost predicate Finished(id: nat)
      reads `log, `receipts, `variant, `walk, `statusReads, `uncounted, `crashes
    {
      Valid() && World().runs.Keys == {id}
    }

    lemma SameTable()
      requires Valid()
      ensures World().receipts == receipts
    {
      hide After, LegalWalk, Legal, End;
    }

    /** One call to the outside. */
    method Tick() returns (s: Step)
      modifies this`life
      ensures s.Ends? ==> life == 0
      ensures s == if old(life) == 0 then Ends(Crashed) else Ok
    {
      if life == 0 {
        return Ends(Crashed);
      }
      life := life - 1;
      return Ok;
    }

    /** One update of the variant row; `state` is null when the update leaves the state alone. */
    method UpdateVariant(state: Option<PublishState>, patch: Patch) returns (s: Step)
      requires Valid() && (state.Some? ==> LegalMove(variant.state, state.value))
      modifies this`life, this`variant, this`walk
      ensures s.Ends? ==> life == 0
      ensures Valid() && walk == old(walk) + if s.Ok? && state.Some? then [state.value] else []
      ensures s == if old(life) == 0 then Ends(Crashed) else Ok
      ensures s.Ends? ==> variant == old(variant)
      ensures s.Ok? ==> variant == PatchVariant(old(variant).(state := state.Or(old(variant).state)), patch)
    {
      hide Book, After, Legal;
      s := Tick();
      if s.Ok? {
        if state.Some? {
          WalkOn(Legal(), origin, walk, state.value);
          walk := walk + [state.value];
          variant := variant.(state := state.value);
        }
        variant := PatchVariant(variant, patch);
      }
    }

    /** The loop of VariantState.moveTo: one update per step, the patch on the last. */
    method Follow(current: PublishState, steps: seq<PublishState>, patch: Patch) returns (s: Step, now: PublishState)
      requires Valid() && current == variant.state && steps != []
      requires LegalWalk(Legal(), current, steps) || steps == [current]
      modifies this`life, this`variant, this`walk
      ensures s.Ends? ==> life == 0
      ensures Valid() && (s.Ends? ==> s.end.Crashed?)
      ensures s.Ok? ==> now == End(current, steps)
      ensures s.Ok? ==> variant == PatchVariant(old(variant).(state := now), patch)
    {
      now := current;
      hide Valid, Legal;
      for i := 0 to |steps|
        invariant Valid() && now == variant.state == Before(current, steps, i)
        invariant if i < |steps| then variant == old(variant).(state := now)
                  else variant == PatchVariant(old(variant).(state := now), patch)
      {
        var state := if steps[i] != now then Some(steps[i]) else None;
        var columns := if i == |steps| - 1 then patch else NOTHING;
        if state.Some? || columns != NOTHING {
          s := UpdateVariant(state, columns);
          if s.Ends? {
            return;
          }
        }
        now := steps[i];
      }
      s := Ok;
    }

    /** VariantState.moveTo: walks the shortest legal path to the target. */
    method MoveTo(current: PublishState, target: PublishState, patch: Patch) returns (s: Step, now: PublishState)
      requires Valid() && current == variant.state && Admitted(current)
      requires target in {Publishing, PublishState.Published, PublishState.Failed, Queued}
      modifies this`life, this`variant, this`walk
      ensures s.Ends? ==> life == 0
      ensures Valid() && (s.Ends? ==> s.end.Crashed?)
      ensures s.Ok? ==> now == target && variant == PatchVariant(old(variant).(state := target), patch)
    {
      TableTotal();
      var path := PublishPath(Legal(), Hops(), current, target);
      NoDeadEnd(current, target);
      if path.None? {
        return Ends(Raised(Internal, false)), current;
      }
      var steps := if path.value != [] then path.value else [target];
      s, now := Follow(current, steps, patch);
    }

    /** Adds an event to the history. */
    ghost method Record(e: Event)
      requires After(provider, log).Some? && Enabled(provider, World(), e)
      modifies this`log
      ensures After(provider, log).Some? && World() == Apply(provider, old(World()), e)
    {
      Snoc(provider, log, e);
      log := log + [e];
    }

    /** What has become of a pending post by the time the provider answers. */
    ghost method Platform(row: nat, fate: Post)
      requires After(provider, log).Some? && row in World().posts
      modifies this`log
      ensures After(provider, log).Some? && World() == Fated(old(World()), row, fate)
    {
      if World().posts[row] == Pending && fate != Pending {
        Record(if fate == Post.Live then GoLive(row) else Die(row));
      }
    }

    /** The update of poll_count. */
    method WritePollCount(ghost id: nat, ghost task: Task, row: nat, prior: Receipt, ghost outcome: Outcome)
      requires At(id, task, Counting(row, prior, outcome)) && row < |receipts| && receipts[row] == prior
      requires prior.status == ReceiptStatus.Accepted && uncounted <= {row} && (row in uncounted ==> prior.pollCount < MAX_POLLS)
      modifies this`receipts, this`log, this`uncounted
      ensures receipts == old(receipts)[row := prior.(pollCount := prior.pollCount + 1)] && uncounted == {}
      ensures At(id, task, Settling(row, true, outcome)) && World().posts == old(World()).posts
    {
      hide Book, Alone, Apply, Enabled, After, Legal, LegalWalk, End;
      SameTable();
      CountBook(provider, World(), statusReads, crashes, uncounted, id, task, row, prior, outcome);
      receipts := receipts[row := receipts[row].(pollCount := prior.pollCount + 1)];
      uncounted := {};
      Record(Event.Count(id));
    }

    /** Writes poll_count, unless the process dies first. */
    method CountPoll(ghost id: nat, ghost task: Task, row: nat, prior: Receipt, ghost outcome: Outcome) returns (s: Step)
      requires At(id, task, Counting(row, prior, outcome)) && row < |receipts| && receipts[row] == prior
      requires prior.status == ReceiptStatus.Accepted && uncounted <= {row} && (row in uncounted ==> prior.pollCount < MAX_POLLS)
      modifies this`life, this`receipts, this`log, this`uncounted
      ensures s.Ends? ==> life == 0
      ensures s == if old(life) == 0 then Ends(Crashed) else Ok
      ensures s.Ends? ==> receipts == old(receipts) && Finished(id)
      ensures s.Ok? ==> receipts == old(receipts)[row := prior.(pollCount := prior.pollCount + 1)] && uncounted == {}
      ensures s.Ok? ==> At(id, task, Settling(row, true, outcome)) && World().posts == old(World()).posts
    {
      hide After, Book, Legal, LegalWalk, End;
      s := Tick();
      if s.Ok? {
        WritePollCount(id, task, row, prior, outcome);
      }
    }

    /** Writes status unknown on an attempt that ended without a recorded answer. */
    method MarkUnknown(ghost id: nat, ghost task: Task, row: nat) returns (s: Step)
      requires At(id, task, Marking(row)) && row < |receipts| && receipts[row].status in {Submitting, ReceiptStatus.Accepted}
      modifies this`life, this`receipts, this`log
      ensures s.Ends? ==> life == 0
      ensures s == if old(life) == 0 then Ends(Crashed) else Ok
      ensures s.Ends? ==> receipts == old(receipts) && log == old(log)
      ensures s.Ok? ==> receipts == old(receipts)[row := Doubted(old(receipts)[row])]
      ensures s.Ok? ==> At(id, task, Ending) && World().posts == old(World()).posts
    {
      hide Book, Alone, Apply, Enabled, After, Legal, LegalWalk, End;
      SameTable();
      s := Tick();
      if s.Ok? {
        MarkBook(provider, World(), statusReads, crashes, uncounted, id, task, row);
        receipts := receipts[row := receipts[row].(status := ReceiptStatus.Unknown, errorClass := Some(UnknownOutcome))];
        Record(Mark(id));
      }
    }

    /** Inserts the receipt of a new attempt; a unique violation ends the run. */
    method InsertReceipt(ghost id: nat, ghost task: Task, attempt: nat, now: int) returns (s: Step, row: nat)
      requires At(id, task, Inserting(attempt, |receipts|)) && attempt >= 1 && uncounted == {}
      requires forall i :: 0 <= i < |receipts| ==> receipts[i].attempt < attempt
      modifies this`life, this`receipts, this`log, this`statusReads
      ensures s.Ends? ==> life == 0
      ensures s == if old(life) == 0 then Ends(Crashed) else Ok
      ensures s.Ends? ==> receipts == old(receipts) && log == old(log) && statusReads == old(statusReads)
      ensures s.Ok? ==> row == |old(receipts)| && statusReads == old(statusReads) + [0]
      ensures s.Ok? ==> receipts == old(receipts) + [NewReceipt(attempt, now)]
      ensures s.Ok? ==> At(id, task, Calling(row)) && World().posts == old(World()).posts
    {
      hide Book, Alone, Apply, Enabled, After, Legal, LegalWalk, End;
      SameTable();
      row := |receipts|;
      s := Tick();
      if s.Ok? {
        InsertBook(provider, World(), statusReads, crashes, id, task, attempt, now);
        if Taken(receipts, attempt) {
          return Ends(Raised(UnknownOutcome, false)), row;
        }
        receipts := receipts + [NewReceipt(attempt, now)];
        statusReads := statusReads + [0];
        Record(Event.Insert(id, now));
      }
    }

    /** The request reaches the provider. */
    ghost method Request(id: nat, task: Task, row: nat)
      requires At(id, task, Calling(row)) && uncounted == {}
      modifies this`log
      ensures At(id, task, Awaiting(row)) && After(provider, log).Some?
      ensures World().posts == old(World()).posts[row := Pending]
    {
      hide Book, Alone, Apply, Enabled, After, Legal, LegalWalk, End;
      SameTable();
      SendBook(provider, World(), statusReads, crashes, id, task, row);
      Record(Send(id));
    }

    /** The answer to a submit arrives. */
    ghost method Answered(id: nat, task: Task, row: nat, script: Script)
      requires At(id, task, Awaiting(row)) && row in World().posts && World().posts[row] == Pending && uncounted == {}
      requires SubmitAnswer(script.fate, script.answer)
      modifies this`log
      ensures At(id, task, Settling(row, false, Interpret(script.answer, provider.idempotentSubmit)))
      ensures After(provider, log).Some? && World().posts.Keys == old(World()).posts.Keys
    {
      hide Book, Alone, Apply, Enabled, After, Legal, LegalWalk, End, Interpret, SubmitAnswer;
      SameTable();
      FateBook(World(), statusReads, crashes, {}, id, task, Awaiting(row), row, script.fate);
      Platform(row, script.fate);
      ReceiveBook(provider, World(), statusReads, crashes, id, task, row, script.answer);
      Record(Receive(id, script.answer));
    }

    /** The answer to a status read arrives. */
    ghost method Polled(id: nat, task: Task, row: nat, prior: Receipt, script: Script)
      requires At(id, task, Polling(row, prior)) && provider.hasStatus && row in World().posts
      requires StatusAnswer(provider, prior, PostsBy(World().posts, row, script.fate)[row], script.answer)
      modifies this`log
      ensures At(id, task, Counting(row, prior, PollOutcome(prior, script.answer)))
      ensures After(provider, log).Some? && World().posts.Keys == old(World()).posts.Keys
    {
      hide Book, Alone, Apply, Enabled, After, Legal, LegalWalk, End, PollOutcome, StatusAnswer;
      SameTable();
      FateBook(World(), statusReads, crashes, uncounted, id, task, Polling(row, prior), row, script.fate);
      Platform(row, script.fate);
      PollBook(provider, World(), statusReads, crashes, uncounted, id, task, row, prior, script.answer);
      Record(Poll(id, script.answer));
    }

    /** Calls provider.submit; the process may die before the request is sent or before the answer arrives. */
    method CallSubmit(ghost id: nat, ghost task: Task, row: nat, script: Script) returns (s: Step, outcome: Outcome)
      requires At(id, task, Calling(row)) && SubmitAnswer(script.fate, script.answer) && uncounted == {}
      modifies this`life, this`log
      ensures s.Ends? ==> life == 0
      ensures s.Ends? ==> s.end.Crashed? && (At(id, task, Calling(row)) || At(id, task, Awaiting(row)))
      ensures s.Ok? ==> outcome == Interpret(script.answer, provider.idempotentSubmit) && At(id, task, Settling(row, false, outcome))
      ensures After(provider, log).Some?
      ensures World().posts.Keys == old(World()).posts.Keys || World().posts.Keys == old(World()).posts.Keys + {row}
      ensures s.Ok? ==> row in World().posts
    {
      hide Book, Alone, After, Legal, LegalWalk, End, Interpret, SubmitAnswer, Apply, Enabled;
      outcome := Interpret(script.answer, provider.idempotentSubmit);
      s := Tick();
      if s.Ok? {
        Request(id, task, row);
        s := Tick();
        if s.Ok? {
          Answered(id, task, row, script);
        }
      }
    }

    /** Accounts for a status read before it is made. */
    ghost method NoteRead(id: nat, task: Task, row: nat, prior: Receipt)
      requires At(id, task, Polling(row, prior)) && row < |receipts| && uncounted == {}
      modifies this`statusReads, this`uncounted
      ensures At(id, task, Polling(row, prior)) && uncounted == {row}
      ensures row < |old(statusReads)| && statusReads == old(statusReads)[row := old(statusReads)[row] + 1]
    {
      hide Alone, After, Legal, LegalWalk, End;
      RowsRead(receipts, World().posts.Keys, statusReads, crashes, row);
      statusReads := statusReads[row := statusReads[row] + 1];
      uncounted := {row};
    }

    /** Calls provider.status; a read the process dies in is counted as made. */
    method CallStatus(ghost id: nat, ghost task: Task, row: nat, prior: Receipt, script: Script) returns (s: Step, outcome: Outcome)
      requires At(id, task, Polling(row, prior)) && row < |receipts| && provider.hasStatus && row in World().posts
      requires StatusAnswer(provider, prior, PostsBy(World().posts, row, script.fate)[row], script.answer) && uncounted == {}
      modifies this`life, this`log, this`statusReads, this`uncounted
      ensures s.Ends? ==> life == 0
      ensures s == if old(life) == 0 then Ends(Crashed) else Ok
      ensures s.Ends? ==> At(id, task, Polling(row, prior))
      ensures uncounted == {row} && After(provider, log).Some? && World().posts.Keys == old(World()).posts.Keys
      ensures row < |old(statusReads)| && statusReads == old(statusReads)[row := old(statusReads)[row] + 1]
      ensures s.Ok? ==> outcome == PollOutcome(prior, script.answer) && At(id, task, Counting(row, prior, outcome))
    {
      NoteRead(id, task, row, prior);
      hide *;
      outcome := PollOutcome(prior, script.answer);
      s := Tick();
      if s.Ok? {
        Polled(id, task, row, prior, script);
      }
    }

    /** Records the outcome on the receipt. */
    method SettleReceipt(ghost id: nat, ghost task: Task, row: nat, hadRef: bool, outcome: Outcome) returns (s: Step)
      requires At(id, task, Settling(row, hadRef, outcome)) && row < |receipts| && row in World().posts
      requires Recordable(receipts[row], hadRef, outcome)
      modifies this`life, this`receipts, this`log
      ensures s.Ends? ==> life == 0
      ensures s == if old(life) == 0 then Ends(Crashed) else Ok
      ensures s.Ends? ==> receipts == old(receipts) && log == old(log)
      ensures s.Ok? ==> receipts == old(receipts)[row := Patched(old(receipts)[row], hadRef, outcome)]
      ensures s.Ok? ==> At(id, task, Ending) && World().posts == old(World()).posts
    {
      hide Book, Alone, Apply, Enabled, After, Legal, LegalWalk, End, Patched, Recordable;
      SameTable();
      s := Tick();
      if s.Ok? {
        SettleBook(provider, World(), statusReads, crashes, uncounted, id, task, row, hadRef, outcome);
        receipts := receipts[row := Patched(receipts[row], hadRef, outcome)];
        Record(Settle(id));
      }
    }

    /** The latest row is the last one inserted. */
    lemma LatestRow()
      requires Valid()
      ensures receipts != [] ==> Latest(receipts) == Some(|receipts| - 1) && PriorOf(receipts) == Some(receipts[|receipts| - 1])
      ensures receipts == [] ==> PriorOf(receipts) == None
    {
      LatestIsLast(receipts);
    }

    /** Step 4: applies the outcome to the receipt, then to the variant. */
    method ApplyOutcome(ghost id: nat, task: Task, current: PublishState, row: nat, hadRef: bool, outcome: Outcome)
      returns (end: RunEnd)
      requires At(id, task, Settling(row, hadRef, outcome)) && row == |receipts| - 1 && row in World().posts
      requires Recordable(receipts[row], hadRef, outcome) && current == variant.state && Admitted(current)
      modifies this`life, this`receipts, this`log, this`variant, this`walk
      ensures end.Crashed? ==> life == 0
      ensures Finished(id) && World().posts == old(World()).posts
      ensures end.Crashed? ==> receipts == old(receipts) || receipts == old(receipts)[row := Patched(old(receipts)[row], hadRef, outcome)]
      ensures !end.Crashed? ==> receipts == old(receipts)[row := Patched(old(receipts)[row], hadRef, outcome)]
      ensures !end.Crashed? ==> variant.state == StateFor(task, outcome) && end == EndFor(outcome, row, receipts[row].pollCount)
      ensures !end.Crashed? && outcome.Published? ==> variant.externalRef == outcome.externalRef && variant.externalUrl == outcome.externalUrl
      ensures !end.Crashed? && outcome.Accepted? ==> end == Deferred(PollDelayMs(receipts[row].pollCount, outcome.pollAfterMs), row)
      ensures !end.Crashed? && outcome.Failed? ==> end == Raised(outcome.errorClass, outcome.final)
      ensures !end.Crashed? ==> Awaits(variant, task, end)
      ensures !end.Crashed? ==> variant.attemptCount == old(variant).attemptCount
    {
      hide Book, Apply, Enabled, After, Legal, LegalWalk, End, Patched, Recordable;
      var s := SettleReceipt(id, task, row, hadRef, outcome);
      :- s;
      var state := current;
      match outcome {
        case Published(ref, url) =>
          s, state := MoveTo(state, PublishState.Published, WentLive(ref, url));
          :- s;
          return Completed(ref, url);
        case Accepted(_, hint) =>
          if state != Publishing {
            s, state := MoveTo(state, Publishing, NOTHING);
            :- s;
          }
          return Deferred(PollDelayMs(receipts[row].pollCount, hint), row);
        case Partial(_, _) =>
          s, state := MoveTo(state, PublishState.Failed, ERROR);
          :- s;
          return Raised(UnknownOutcome, true);
        case Failed(cls, _, final) =>
          var willRetry := !final && DecisionFor(cls) == Retry && task.attempts < task.maxAttempts;
          s, state := MoveTo(state, if willRetry then Queued else PublishState.Failed, ERROR);
          :- s;
          return Raised(cls, final);
        case Unknown(_) =>
          s, state := MoveTo(state, PublishState.Failed, ERROR);
          :- s;
          return Raised(UnknownOutcome, false);
      }
    }

    /** What a poll that is not cut short leaves behind. */
    ghost predicate PollApplied(task: Task, before: seq<Receipt>, row: nat, outcome: Outcome, end: RunEnd)
      requires row < |before|
      reads `receipts, `variant
    {
      var counted := before[row].(pollCount := before[row].pollCount + 1);
      && receipts == before[row := Patched(counted, true, outcome)]
      && variant.state == StateFor(task, outcome) && end == EndFor(outcome, row, counted.pollCount)
      && (outcome.Published? ==> variant.externalRef == outcome.externalRef && variant.externalUrl == outcome.externalUrl)
    }

    /** The outcome of an accepted operation: read from the provider unless it is too old. */
    method ReadStatus(ghost id: nat, ghost task: Task, row: nat, prior: Receipt, script: Script, now: int) returns (s: Step, outcome: Outcome)
      requires Valid() && row < |receipts| && row in World().posts && uncounted == {} && provider.hasStatus
      requires Expired(prior, now) ==> At(id, task, Counting(row, prior, Outcome.Unknown(prior.operationRef)))
      requires !Expired(prior, now) ==> At(id, task, Polling(row, prior))
      requires !Expired(prior, now) ==> StatusAnswer(provider, prior, PostsBy(World().posts, row, script.fate)[row], script.answer)
      modifies this`life, this`log, this`statusReads, this`uncounted
      ensures s.Ends? ==> life == 0
      ensures s.Ends? ==> s.end.Crashed? && Finished(id)
      ensures s.Ok? ==> outcome == PollResult(prior, now, script.answer) && At(id, task, Counting(row, prior, outcome))
      ensures s.Ok? ==> uncounted <= {row} && (row in uncounted ==> prior.pollCount < MAX_POLLS)
      ensures s.Ok? ==> row in World().posts
      ensures Expired(prior, now) ==> statusReads == old(statusReads)
    {
      hide Book, Apply, Enabled, After, Legal, LegalWalk, End, PollOutcome, StatusAnswer;
      s, outcome := Ok, Outcome.Unknown(prior.operationRef);
      if !Expired(prior, now) {
        s, outcome := CallStatus(id, task, row, prior, script);
      }
    }

    /** Counts a poll and applies its outcome. */
    method CountAndApply(ghost id: nat, task: Task, row: nat, prior: Receipt, outcome: Outcome) returns (end: RunEnd)
      requires At(id, task, Counting(row, prior, outcome)) && row == |receipts| - 1 && receipts[row] == prior
      requires prior.status == ReceiptStatus.Accepted && uncounted <= {row} && (row in uncounted ==> prior.pollCount < MAX_POLLS)
      requires Recordable(prior.(pollCount := prior.pollCount + 1), true, outcome) && Admitted(variant.state)
      requires Patched(prior.(pollCount := prior.pollCount + 1), true, outcome).pollCount == prior.pollCount + 1
      requires row in World().posts
      modifies this`life, this`receipts, this`log, this`variant, this`walk, this`uncounted
      ensures end.Crashed? ==> life == 0
      ensures Finished(id) && |receipts| == |old(receipts)|
      ensures !end.Crashed? ==> uncounted == {} && PollApplied(task, old(receipts), row, outcome, end)
    {
      hide At, Valid, Finished, Recordable, Patched, StateFor, EndFor, After, Admitted;
      var s := CountPoll(id, task, row, prior, outcome);
      :- s;
      end := ApplyOutcome(id, task, variant.state, row, true, outcome);
    }

    /** An operation the provider accepted earlier: look how it went, or write it off as unknown once it is too old. */
    method ResumeAccepted(ghost id: nat, task: Task, row: nat, prior: Receipt, script: Script, now: int) returns (end: RunEnd)
      requires Valid() && row == |receipts| - 1 && receipts[row] == prior && row in World().posts && uncounted == {}
      requires prior.status == ReceiptStatus.Accepted && Usable(prior.operationRef) && provider.hasStatus
      requires Expired(prior, now) ==> At(id, task, Counting(row, prior, Outcome.Unknown(prior.operationRef)))
      requires !Expired(prior, now) ==> At(id, task, Polling(row, prior))
      requires !Expired(prior, now) ==> StatusAnswer(provider, prior, PostsBy(World().posts, row, script.fate)[row], script.answer)
      requires Admitted(variant.state)
      modifies this`life, this`receipts, this`log, this`variant, this`walk, this`statusReads, this`uncounted
      ensures end.Crashed? ==> life == 0
      ensures Finished(id) && |receipts| == |old(receipts)|
      ensures !end.Crashed? ==>
        uncounted == {} && PollApplied(task, old(receipts), row, PollResult(prior, now, script.answer), end)
      ensures Expired(prior, now) ==> statusReads == old(statusReads)
    {
      PollRecordable(prior, now, script.answer);
      hide At, Valid, Finished, Recordable, PollResult, StatusAnswer, Expired, Patched, After, Admitted, PollApplied;
      var s, outcome := ReadStatus(id, task, row, prior, script, now);
      :- s;
      end := CountAndApply(id, task, row, prior, outcome);
    }

    /** What a submission that is not cut short leaves behind. */
    ghost predicate SubmitApplied(task: Task, before: seq<Receipt>, attempt: nat, now: int, answer: Answer, end: RunEnd)
      reads `receipts, `variant
    {
      var outcome := Interpret(answer, provider.idempotentSubmit);
      && receipts == before + [Patched(NewReceipt(attempt, now), false, outcome)]
      && variant.state == StateFor(task, outcome) && end == EndFor(outcome, |before|, 0)
      && (outcome.Published? ==> variant.externalRef == outcome.externalRef && variant.externalUrl == outcome.externalUrl)
    }

    /** Step 3: the receipt first, then the provider call. */
    method SubmitAttempt(ghost id: nat, task: Task, attempt: nat, script: Script, now: int) returns (end: RunEnd)
      requires At(id, task, Inserting(attempt, |receipts|)) && attempt >= 1 && uncounted == {}
      requires forall i :: 0 <= i < |receipts| ==> receipts[i].attempt < attempt
      requires SubmitAnswer(script.fate, script.answer) && Admitted(variant.state)
      modifies this`life, this`receipts, this`log, this`variant, this`walk, this`statusReads
      ensures end.Crashed? ==> life == 0
      ensures Finished(id)
      ensures !end.Crashed? ==> SubmitApplied(task, old(receipts), attempt, now, script.answer, end)
      ensures !end.Crashed? ==> variant.attemptCount == old(variant).attemptCount + 1 && |receipts| == |old(receipts)| + 1
      ensures old(statusReads) <= statusReads
    {
      SubmitRecordable(attempt, now, script.answer, provider.idempotentSubmit);
      hide Book, Apply, Enabled, After, Legal, LegalWalk, End, Recordable, SubmitAnswer, Patched, Interpret;
      var s, state := MoveTo(variant.state, Publishing, Patch(Some(variant.attemptCount + 1), None, Some(false)));
      :- s;
      var row;
      s, row := InsertReceipt(id, task, attempt, now);
      :- s;
      var outcome;
      s, outcome := CallSubmit(id, task, row, script);
      :- s;
      end := ApplyOutcome(id, task, state, row, false, outcome);
    }

    lemma ResumeAgrees(task: Task, prior: Receipt, outcome: Outcome, now: int, end: RunEnd, before: seq<Receipt>)
      requires Valid() && before != [] && before[|before| - 1] == prior
      requires PollApplied(task, before, |before| - 1, outcome, end)
      requires Expired(prior, now) ==> outcome.Unknown?
      ensures Agrees(variant, receipts) && EndMatches(end, receipts) && Awaits(variant, task, end) && PolledOnce(before, receipts, now)
    {
      AgreesAfter(variant, receipts, prior.(pollCount := prior.pollCount + 1), true, outcome, task);
    }

    lemma SubmitAgrees(task: Task, attempt: nat, answer: Answer, now: int, end: RunEnd, before: seq<Receipt>)
      requires Valid() && SubmitApplied(task, before, attempt, now, answer, end)
      ensures Agrees(variant, receipts) && EndMatches(end, receipts) && Awaits(variant, task, end)
    {
      var outcome := Interpret(answer, provider.idempotentSubmit);
      var r := Patched(NewReceipt(attempt, now), false, outcome);
      assert r.pollCount == 0;
      AgreesAfter(variant, receipts, NewReceipt(attempt, now), false, outcome, task);
    }

    /** The receipt lookup. */
    ghost method TakeRead(id: nat, task: Task, now: int)
      requires At(id, task, Reading) && World().runs[id].sawPublishing == (variant.state == Publishing)
      modifies this`log
      ensures At(id, task, Next(task, now)) && After(provider, log).Some? && World().posts == old(World()).posts
    {
      hide Decide, After, LegalWalk, Legal, End, RowsOk;
      Record(Read(id, now));
    }

    /** What a run that starts now will do first. */
    ghost function Next(task: Task, now: int): Pc
      reads `receipts, `variant
    {
      Decide(provider, Run(task.attempts, task.resolved, variant.state == Publishing, Reading), receipts, now)
    }

    /** The provider keeps its contract in this run. */
    ghost predicate Honest(task: Task, script: Script, now: int)
      requires Valid()
      reads `log, `receipts, `variant, `walk, `statusReads, `uncounted, `crashes
    {
      match Next(task, now)
      case Polling(row, prior) =>
        row in World().posts ==> StatusAnswer(provider, prior, PostsBy(World().posts, row, script.fate)[row], script.answer)
      case _ => SubmitAnswer(script.fate, script.answer)
    }

    /** Step 2, ambiguous attempts: mark the receipt unknown and the variant failed. */
    method StopAmbiguous(ghost id: nat, ghost task: Task, mark: Option<nat>) returns (end: RunEnd)
      requires At(id, task, if mark.Some? then Marking(mark.value) else Ending) && Admitted(variant.state)
      requires mark.Some? ==> mark.value < |receipts| && receipts[mark.value].status in {Submitting, ReceiptStatus.Accepted}
      modifies this`life, this`receipts, this`log, this`variant, this`walk
      ensures end.Crashed? ==> life == 0
      ensures Finished(id) && World().posts == old(World()).posts
      ensures !end.Crashed? ==> variant.state == PublishState.Failed && end == Raised(UnknownOutcome, false)
      ensures !end.Crashed? ==>
        receipts == if mark.None? then old(receipts)
                    else old(receipts)[mark.value := Doubted(old(receipts)[mark.value])]
    {
      hide Book, After, Legal, LegalWalk, End;
      var s;
      if mark.Some? {
        s := MarkUnknown(id, task, mark.value);
        :- s;
      }
      var state;
      s, state := MoveTo(variant.state, PublishState.Failed, ERROR);
      :- s;
      return Raised(UnknownOutcome, false);
    }

    /** The latest receipt is published or partial while the variant lags behind: only the variant catches up. */
    method FinishSettled(ghost id: nat, ghost task: Task, prior: Receipt) returns (end: RunEnd)
      requires Finished(id) && SettledLast(receipts) && PriorOf(receipts) == Some(prior) && Admitted(variant.state)
      modifies this`life, this`variant, this`walk
      ensures end.Crashed? ==> life == 0
      ensures Finished(id)
      ensures !end.Crashed? ==> Agrees(variant, receipts) && EndMatches(end, receipts) && Awaits(variant, task, end)
    {
      hide Book, After, Legal, LegalWalk, End;
      var s, state;
      if prior.status == ReceiptStatus.Published {
        s, state := MoveTo(variant.state, PublishState.Published, WentLive(prior.externalRef, prior.externalUrl));
        :- s;
        return Completed(prior.externalRef, prior.externalUrl);
      }
      s, state := MoveTo(variant.state, PublishState.Failed, ERROR);
      :- s;
      return Raised(UnknownOutcome, true);
    }

    lemma StopAgrees(task: Task, mark: Option<nat>, before: seq<Receipt>)
      requires Valid() && variant.state == PublishState.Failed
      requires mark.Some? ==> before != [] && mark.value == |before| - 1
      requires receipts == if mark.None? then before else before[mark.value := Doubted(before[mark.value])]
      requires mark.None? && before != [] ==> before[|before| - 1].status == ReceiptStatus.Unknown
      ensures Agrees(variant, receipts) && EndMatches(Raised(UnknownOutcome, false), receipts)
      ensures Awaits(variant, task, Raised(UnknownOutcome, false))
    {
      LatestIsLast(receipts);
    }

    /** Where the machine stands in each branch of the engine, and what the provider owes there. */
    lemma Branches(task: Task, script: Script, now: int)
      requires Valid() && Honest(task, script, now) && task.attempts >= 1
      ensures receipts != [] ==> PriorOf(receipts) == Some(receipts[|receipts| - 1])
      ensures receipts == [] ==> PriorOf(receipts) == None
      ensures Pollable(provider, receipts) ==>
        var row, prior := |receipts| - 1, receipts[|receipts| - 1];
        && row in World().posts
        && Next(task, now) == (if Expired(prior, now) then Counting(row, prior, Outcome.Unknown(prior.operationRef)) else Polling(row, prior))
        && (!Expired(prior, now) ==>
              StatusAnswer(provider, prior, PostsBy(World().posts, row, script.fate)[row], script.answer))
      ensures !SettledLast(receipts) && !Pollable(provider, receipts) ==>
        var prior := PriorOf(receipts);
        if Ambiguous(provider, Run(task.attempts, task.resolved, variant.state == Publishing, Reading), prior) && !provider.idempotentSubmit then
          if prior.Some? && prior.value.status != ReceiptStatus.Unknown
          then Next(task, now) == Marking(|receipts| - 1) && prior.value.status in {Submitting, ReceiptStatus.Accepted}
          else Next(task, now) == Ending
        else
          && Next(task, now) == Inserting(NextAttempt(task.attempts, prior), |receipts|)
          && SubmitAnswer(script.fate, script.answer)
          && MaySubmit(provider, task, variant.state, prior)
          && forall i :: 0 <= i < |receipts| ==> receipts[i].attempt < NextAttempt(task.attempts, prior)
    {
      hide After, Legal, LegalWalk, End, SubmitAnswer, StatusAnswer, Latest;
      LatestRow();
      if receipts != [] {
        assert ReceiptOk(receipts, World().posts.Keys, |receipts| - 1);
      }
    }

    /** What a run leaves behind that is not cut short. */
    ghost predicate Lands(task: Task, before: seq<Receipt>, now: int, end: RunEnd)
      reads `receipts, `variant, `uncounted
    {
      && uncounted == {}
      && Agrees(variant, receipts) && EndMatches(end, receipts) && Awaits(variant, task, end)
      && (Pollable(provider, before) ==> PolledOnce(before, receipts, now))
    }

    method ResumeBranch(ghost id: nat, task: Task, prior: Receipt, script: Script, now: int) returns (end: RunEnd)
      requires At(id, task, Next(task, now)) && Pollable(provider, receipts) && prior == receipts[|receipts| - 1]
      requires Admitted(variant.state) && Honest(task, script, now) && uncounted == {} && task.attempts >= 1
      modifies this`life, this`receipts, this`log, this`variant, this`walk, this`statusReads, this`uncounted
      ensures end.Crashed? ==> life == 0
      ensures Finished(id) && |old(receipts)| == |receipts| && (!end.Crashed? ==> Lands(task, old(receipts), now, end))
      ensures Expired(prior, now) ==> statusReads == old(statusReads)
    {
      Branches(task, script, now);
      hide Next, Honest, PollResult, StatusAnswer, Agrees, EndMatches, Awaits, PolledOnce, Book, After, Legal, LegalWalk, End;
      ghost var before := receipts;
      end := ResumeAccepted(id, task, |receipts| - 1, prior, script, now);
      if !end.Crashed? {
        ResumeAgrees(task, prior, PollResult(prior, now, script.answer), now, end, before);
      }
    }

    method StopBranch(ghost id: nat, ghost task: Task, prior: Option<Receipt>, ghost script: Script, ghost now: int) returns (end: RunEnd)
      requires At(id, task, Next(task, now)) && prior == PriorOf(receipts) && !SettledLast(receipts) && !Pollable(provider, receipts)
      requires Ambiguous(provider, Run(task.attempts, task.resolved, variant.state == Publishing, Reading), prior)
      requires !provider.idempotentSubmit
      requires Admitted(variant.state) && Honest(task, script, now) && uncounted == {} && task.attempts >= 1
      modifies this`life, this`receipts, this`log, this`variant, this`walk
      ensures end.Crashed? ==> life == 0
      ensures Finished(id) && |old(receipts)| == |receipts| && (!end.Crashed? ==> Lands(task, old(receipts), now, end))
      ensures !MaySubmit(provider, task, old(variant).state, prior)
    {
      MayNotSubmit(provider, task, variant.state, prior);
      Branches(task, script, now);
      hide Next, Honest, Agrees, EndMatches, Awaits, PolledOnce, Book, After, Legal, LegalWalk, End, Ambiguous, SettledLast, PriorOf;
      ghost var before := receipts;
      var mark := if prior.Some? && prior.value.status != ReceiptStatus.Unknown then Some(|receipts| - 1) else None;
      end := StopAmbiguous(id, task, mark);
      if !end.Crashed? {
        StopAgrees(task, mark, before);
      }
    }

    method SubmitBranch(ghost id: nat, task: Task, prior: Option<Receipt>, script: Script, now: int) returns (end: RunEnd)
      requires At(id, task, Next(task, now)) && prior == PriorOf(receipts) && !SettledLast(receipts) && !Pollable(provider, receipts)
      requires !Ambiguous(provider, Run(task.attempts, task.resolved, variant.state == Publishing, Reading), prior)
            || provider.idempotentSubmit
      requires Admitted(variant.state) && Honest(task, script, now) && uncounted == {} && task.attempts >= 1
      modifies this`life, this`receipts, this`log, this`variant, this`walk, this`statusReads
      ensures end.Crashed? ==> life == 0
      ensures Finished(id) && |old(receipts)| <= |receipts| && (!end.Crashed? ==> Lands(task, old(receipts), now, end))
      ensures MaySubmit(provider, task, old(variant).state, prior)
      ensures !end.Crashed? ==> |receipts| == |old(receipts)| + 1
    {
      Branches(task, script, now);
      hide Next, Honest, SubmitAnswer, Interpret, Agrees, EndMatches, Awaits, PolledOnce, Book, After, Legal, LegalWalk, End,
           Ambiguous, SettledLast, PriorOf, MaySubmit, SubmitApplied, Pollable;
      ghost var before := receipts;
      var attempt := NextAttempt(task.attempts, prior);
      end := SubmitAttempt(id, task, attempt, script, now);
      if !end.Crashed? {
        SubmitAgrees(task, attempt, script.answer, now, end, before);
      }
    }

    /** Everything after the receipt lookup. */
    method Proceed(ghost id: nat, task: Task, prior: Option<Receipt>, script: Script, now: int) returns (end: RunEnd)
      requires At(id, task, Next(task, now)) && prior == PriorOf(receipts)
      requires Admitted(variant.state) && Honest(task, script, now) && uncounted == {} && task.attempts >= 1
      modifies this`life, this`receipts, this`log, this`variant, this`walk, this`statusReads, this`uncounted
      ensures end.Crashed? ==> life == 0
      ensures Finished(id) && |old(receipts)| <= |receipts| && (!end.Crashed? ==> Lands(task, old(receipts), now, end))
      ensures Pollable(provider, old(receipts)) && Expired(old(receipts)[|old(receipts)| - 1], now) ==> statusReads == old(statusReads)
      ensures |receipts| > |old(receipts)| ==> MaySubmit(provider, task, old(variant).state, prior)
      ensures !end.Crashed? && MaySubmit(provider, task, old(variant).state, prior) && !Pollable(provider, old(receipts)) ==>
        |receipts| == |old(receipts)| + 1
      ensures Pollable(provider, old(receipts)) ==> |receipts| == |old(receipts)|
      ensures SettledLast(old(receipts)) ==> receipts == old(receipts) && statusReads == old(statusReads) && log == old(log)
    {
      LatestRow();
      hide Next, Honest, Lands, Book, After, Legal, LegalWalk, End, Ambiguous, PriorOf, MaySubmit, Expired;
      if prior.Some? && prior.value.status in {ReceiptStatus.Published, ReceiptStatus.Partial} {
        end := FinishSettled(id, task, prior.value);
      } else if prior.Some? && prior.value.status == ReceiptStatus.Accepted && Usable(prior.value.operationRef) && provider.hasStatus {
        end := ResumeBranch(id, task, prior.value, script, now);
      } else if Ambiguous(provider, Run(task.attempts, task.resolved, variant.state == Publishing, Reading), prior)
             && !provider.idempotentSubmit {
        end := StopBranch(id, task, prior, script, now);
      } else {
        end := SubmitBranch(id, task, prior, script, now);
      }
    }

    /** One run of the engine. */
    method RunApiPublish(ghost id: nat, task: Task, script: Script, now: int, capable: bool) returns (end: RunEnd)
      requires At(id, task, Reading) && World().runs[id].sawPublishing == (variant.state == Publishing)
      requires Admitted(variant.state) && Honest(task, script, now) && uncounted == {} && task.attempts >= 1
      modifies this`life, this`receipts, this`log, this`variant, this`walk, this`statusReads, this`uncounted
      ensures end.Crashed? ==> life == 0
      ensures Finished(id) && |old(receipts)| <= |receipts|
      ensures !end.Crashed? && capable ==> Lands(task, old(receipts), now, end)
      ensures Pollable(provider, old(receipts)) && Expired(old(receipts)[|old(receipts)| - 1], now) ==> statusReads == old(statusReads)
      ensures |receipts| > |old(receipts)| ==> MaySubmit(provider, task, old(variant).state, PriorOf(old(receipts)))
      ensures capable && !end.Crashed? ==>
        (MaySubmit(provider, task, old(variant).state, PriorOf(old(receipts))) && !Pollable(provider, old(receipts)) <==>
         |receipts| == |old(receipts)| + 1)
      ensures SettledLast(old(receipts)) || !capable ==>
        receipts == old(receipts) && statusReads == old(statusReads) && World().posts == old(World()).posts
      ensures !capable ==> uncounted == {}
      ensures !capable && !end.Crashed? ==> variant.state == PublishState.Failed && end == Raised(UnsupportedCapability, false)
    {
      hide Book, After, Legal, LegalWalk, End, PriorOf, Decide, Agrees, EndMatches, Awaits, PolledOnce, MaySubmit, SettledLast, Pollable, Lands;
      var s, state;
      if !capable {
        s, state := MoveTo(variant.state, PublishState.Failed, ERROR);
        :- s;
        return Raised(UnsupportedCapability, false);
      }
      s := Tick();
      :- s;
      var prior := PriorOf(receipts);
      TakeRead(id, task, now);
      end := Proceed(id, task, prior, script, now);
    }

    /** A run starts. */
    ghost method Begin(id: nat, task: Task)
      requires Quiet() && id !in World().started && task.attempts >= 1
      modifies this`log
      ensures At(id, task, Reading) && After(provider, log).Some? && World().posts == old(World()).posts
      ensures World().runs[id].sawPublishing == (variant.state == Publishing)
    {
      hide After, Book, LegalWalk, Legal, End;
      Record(Start(id, task.attempts, task.resolved, variant.state == Publishing));
      SameBook(old(World()), World(), receipts, statusReads, crashes, uncounted);
    }

    /** A run is over; one that died is counted as a crash. */
    ghost method Finish(id: nat, crashed: bool)
      requires Finished(id) && (!crashed ==> uncounted == {})
      modifies this`log, this`crashes, this`uncounted
      ensures Quiet() && crashes == old(crashes) + if crashed then 1 else 0
      ensures After(provider, log).Some? && World().posts == old(World()).posts
    {
      hide After, LegalWalk, Legal, End;
      if crashed {
        RowsCrash(receipts, World().posts.Keys, statusReads, crashes, uncounted);
        crashes := crashes + 1;
        uncounted := {};
      }
      Record(Stop(id));
      assert World().runs == map[];
    }

    /** One claim of the task: a run from its start to its end, or to the call in which the process dies. */
    method Execute(ghost id: nat, task: Task, script: Script, now: int, capable: bool, calls: nat) returns (end: RunEnd)
      requires Quiet() && id !in World().started && task.attempts >= 1
      requires Admitted(variant.state) && Honest(task, script, now)
      modifies this`life, this`receipts, this`log, this`variant, this`walk, this`statusReads, this`uncounted, this`crashes
      ensures end.Crashed? ==> life == 0
      ensures Quiet() && (end.Crashed? || crashes == old(crashes)) && |old(receipts)| <= |receipts|
      ensures !end.Crashed? && capable ==> Lands(task, old(receipts), now, end)
      ensures !end.Crashed? && !capable ==> variant.state == PublishState.Failed && end == Raised(UnsupportedCapability, false)
      ensures !capable ==> receipts == old(receipts)
      ensures |receipts| > |old(receipts)| ==> MaySubmit(provider, task, old(variant).state, PriorOf(old(receipts)))
      ensures capable && !end.Crashed? ==>
        (MaySubmit(provider, task, old(variant).state, PriorOf(old(receipts))) && !Pollable(provider, old(receipts)) <==>
         |receipts| == |old(receipts)| + 1)
      ensures SettledLast(old(receipts)) ==>
        receipts == old(receipts) && statusReads == old(statusReads) && World().posts == old(World()).posts
      ensures !provider.idempotentSubmit && StatusReadsAreHarmless(provider) ==>
        |LiveRows(World())| <= 1 + |World().resolvedRuns|
    {
      hide Book, After, Legal, LegalWalk, End, PriorOf, Agrees, EndMatches, Awaits, PolledOnce, MaySubmit, SettledLast, LiveRows,
        StatusReadsAreHarmless;
      life := calls;
      Begin(id, task);
      end := RunApiPublish(id, task, script, now, capable);
      Finish(id, end.Crashed?);
      if !provider.idempotentSubmit && StatusReadsAreHarmless(provider) {
        AtMostOncePublication(provider, log);
      }
    }

    /** The variant is run: it is there, in a state and with a key to be published through a provider, and nothing is missing. */
    predicate Reaches(s: PublishState, found: bool, sameKey: bool, apiMode: bool, routed: bool, issues: bool, mediaUnavailable: bool) {
      found && sameKey && Admitted(s) && apiMode && routed && (s == Publishing || !issues) && !mediaUnavailable
    }

    /** The task handler: only four states reach the engine. */
    method Handle(ghost id: nat, task: Task, script: Script, now: int, calls: nat, found: bool, sameKey: bool, apiMode: bool,
                  routed: bool, capable: bool, issues: bool, mediaUnavailable: bool) returns (end: RunEnd)
      requires Quiet() && id !in World().started && task.attempts >= 1 && Honest(task, script, now)
      modifies this`life, this`receipts, this`log, this`variant, this`walk, this`statusReads, this`uncounted, this`crashes
      ensures end.Crashed? ==> life == 0
      ensures Quiet()
      ensures !found || !sameKey || !Admitted(old(variant).state) ==> end == Skipped && variant == old(variant) && receipts == old(receipts)
      ensures SettledLast(old(receipts)) ==> receipts == old(receipts) && statusReads == old(statusReads)
      ensures old(variant).state == PublishState.Published ==> variant == old(variant)
      ensures Reaches(old(variant).state, found, sameKey, apiMode, routed, issues, mediaUnavailable) && !end.Crashed? ==>
        if capable then Lands(task, old(receipts), now, end)
        else variant.state == PublishState.Failed && end == Raised(UnsupportedCapability, false)
      ensures !Reaches(old(variant).state, found, sameKey, apiMode, routed, issues, mediaUnavailable) ==> receipts == old(receipts)
      ensures found && sameKey && Admitted(old(variant).state) && !apiMode ==> end == Raised(Validation, false) && variant == old(variant)
      ensures found && sameKey && Admitted(old(variant).state) && apiMode && !routed && !end.Crashed? ==>
        end == Raised(UnsupportedCapability, false) &&
        if old(variant).state == Publishing then variant == old(variant) else variant.state == PublishState.Failed
      ensures found && sameKey && Admitted(old(variant).state) && apiMode && routed && !end.Crashed? ==>
        (old(variant).state != Publishing && issues ==> end == Raised(Validation, true) && variant.state == PublishState.Failed) &&
        ((old(variant).state == Publishing || !issues) && mediaUnavailable ==>
           end == Raised(UnsupportedCapability, false) && variant == old(variant))
    {
      hide Book, After, Legal, LegalWalk, End, Lands, SettledLast;
      life := calls;
      if !found || !sameKey || !Admitted(variant.state) {
        return Skipped;
      }
      if !apiMode {
        return Raised(Validation, false);
      }
      var failed := if variant.state == PublishState.Failed then None else Some(PublishState.Failed);
      var s;
      if !routed {
        if variant.state != Publishing {
          ToFailed(variant.state);
          s := UpdateVariant(failed, ERROR);
          :- s;
        }
        return Raised(UnsupportedCapability, false);
      }
      if variant.state != Publishing && issues {
        ToFailed(variant.state);
        s := UpdateVariant(failed, ERROR);
        :- s;
        return Raised(Validation, true);
      }
      if mediaUnavailable {
        return Raised(UnsupportedCapability, false);
      }
      end := Execute(id, task, script, now, capable, life);
    }

    constructor (provider: Provider, state: PublishState)
      ensures Quiet() && this.provider == provider && variant.state == state && receipts == [] && crashes == 0
    {
      this.provider := provider;
      variant := Variant(state, 0, None, None, false);
      receipts, life := [], 0;
      log, origin, walk, statusReads, uncounted, crashes := [], state, [], [], {}, 0;
    }

    /** Runs that are not cut short read the status of a receipt at most MAX_POLLS times, over all runs together. */
    lemma StatusReadsAreBounded(row: nat)
      requires Quiet() && row < |receipts|
      ensures row < |statusReads| && statusReads[row] <= MAX_POLLS + crashes
    {
    }
  }

  lemma ToFailed(s: PublishState)
    requires Admitted(s)
    ensures s != PublishState.Failed ==> LegalMove(s, PublishState.Failed)
  {
  }
}
