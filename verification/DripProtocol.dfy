/**
 * One enrollment in a drip sequence under any number of processors, each working from the row it read and each of
 * which may stop between any two calls.
 */
module DripProtocol {
  import opened Options

  /** A step of a sequence. A message carries its trimmed text, a wait its delay, 0 when none is set. */
  datatype Step = Message(text: string) | Wait(minutes: nat)

  const MAX_TEXT := 4096
  const MINUTE := 60 * 1000
  const PAUSE_MS := 5 * MINUTE
  const TRANSIENT_RETRY_MS := 30000
  const CHECK_BASE_MS := 5000
  const CHECK_MAX_MS := 5 * MINUTE

  predicate Sendable(s: Step) {
    s.Message? && 1 <= |s.text| <= MAX_TEXT
  }

  datatype Status = Active | Completed | Failed | Cancelled

  datatype Row = Row(status: Status, step: nat, op: Option<nat>, checks: nat, nextAt: Option<int>)

  datatype OpStatus = Pending | Running | Succeeded | OpFailed(retryable: bool) | Unknown

  /** A gateway operation; `key` is the step in its idempotency key. */
  datatype Op = Op(key: nat, status: OpStatus)

  /** The columns a processor keeps from the row it read. */
  datatype Snap = Snap(step: nat, op: Option<nat>, checks: nat)

  /** What a processor does next. `inCatch`: an error now leaves the inner try block. */
  datatype Pc =
    | Post(s: Snap)
    | Get(s: Snap, op: nat)
    | Persist(s: Snap, op: nat, status: OpStatus)
    | Retry(s: Snap, op: nat)
    | Check(s: Snap, maybe: Option<nat>, fixed: bool, inCatch: bool)
    | Fail(s: Snap, maybe: Option<nat>, inCatch: bool)
    | Advance(s: Snap)
    | Complete(s: Snap)
    | Pause(s: Snap)
    | Cancel(s: Snap)
    | Catch(s: Snap)
    | Over

  datatype Config = Config(steps: seq<Step>, pausable: bool)

  /** `due` is when the current step may be left, `early` records that one was left before, `sent` lists deliveries. */
  datatype World = World(now: int, row: Row, due: int, early: bool, ops: seq<Op>, sent: seq<nat>, agents: map<nat, Pc>)

  datatype SequenceState = Live | Paused | Gone

  datatype Reply = Answers | Throws(retryable: bool, applied: bool)

  datatype Event =
    | Tick(ms: nat)
    | Fetch(a: nat, sequence: SequenceState)
    | Call(a: nat, reply: Reply)
    | NoGateway(a: nat)
    | NoConversation(a: nat)
    | Write(a: nat, ok: bool)
    | Move(op: nat, status: OpStatus)
    | Stop(a: nat)

  function Delay(c: Config, i: nat): (d: nat) {
    if i < |c.steps| && c.steps[i].Wait? then c.steps[i].minutes * MINUTE else 0
  }

  /** The wait before the next look at an operation that is still under way. */
  function CheckDelay(checks: nat): int
    requires checks >= 1
  {
    Min(CHECK_BASE_MS * Pow2(Min(checks - 1, 6)), CHECK_MAX_MS)
  }

  /** Looks come between 5 s and 5 min apart, further and further. */
  lemma CheckDelayBounds(checks: nat, more: nat)
    requires 1 <= checks <= more
    ensures CHECK_BASE_MS <= CheckDelay(checks) <= CheckDelay(more) <= CHECK_MAX_MS
    ensures CheckDelay(checks) == Min(CHECK_BASE_MS * Pow2(checks - 1), CHECK_MAX_MS)
  {
    Pow2Grows(Min(checks - 1, 6), checks - 1);
    Pow2Grows(Min(checks - 1, 6), Min(more - 1, 6));
    Pow2Grows(0, Min(checks - 1, 6));
  }

  /** What the fetched row makes a processor do first. */
  function Plan(c: Config, s: Snap, sequence: SequenceState): Pc {
    if sequence.Gone? then Cancel(s)
    else if sequence.Paused? then Pause(s)
    else if s.step >= |c.steps| then Complete(s)
    else if c.steps[s.step].Wait? then Advance(s)
    else if !Sendable(c.steps[s.step]) then Fail(s, s.op, true)
    else if s.op.Some? then Get(s, s.op.value)
    else Post(s)
  }

  /** What the status of the operation makes it do next. */
  function React(s: Snap, op: nat, status: OpStatus): Pc {
    match status
    case Succeeded => Advance(s)
    case Pending | Running => Check(s, Some(op), false, false)
    case OpFailed(retryable) => if retryable then Retry(s, op) else Fail(s, Some(op), false)
    case Unknown => Fail(s, Some(op), false)
  }

  function Thrown(s: Snap, op: Option<nat>, retryable: bool): Pc {
    if retryable then Check(s, op, true, true) else Fail(s, op, true)
  }

  /** Where a failed database write leads. */
  function Refused(pc: Pc): Pc {
    match pc
    case Persist(s, op, _) => Fail(s, Some(op), true)
    case Check(s, op, _, inCatch) => if inCatch then Catch(s) else Fail(s, op, true)
    case Fail(s, op, inCatch) => if inCatch then Catch(s) else Fail(s, op, true)
    case Advance(s) => Catch(s)
    case Complete(s) => Catch(s)
    case _ => Over
  }

  /** Where a write that went through leads. */
  function Accepted(pc: Pc): Pc {
    if pc.Persist? then React(pc.s, pc.op, pc.status) else Over
  }

  predicate Writes(pc: Pc) {
    !pc.Post? && !pc.Get? && !pc.Retry? && !pc.Over?
  }

  predicate Guarded(w: World, s: Snap) {
    w.row.status.Active? && w.row.step == s.step
  }

  /** The row after the write, guarded by status and step, except that pausing and cancelling look at the status only. */
  function Written(c: Config, w: World, pc: Pc): World
    requires Writes(pc)
  {
    match pc
    case Pause(s) => if w.row.status.Active? then w.(row := w.row.(nextAt := Some(w.now + PAUSE_MS))) else w
    case Cancel(s) =>
      if w.row.status.Active? then w.(row := w.row.(status := Cancelled, nextAt := None, op := None, checks := 0)) else w
    case Persist(s, op, _) => if Guarded(w, s) then w.(row := w.row.(op := Some(op), checks := 0)) else w
    case Check(s, op, fixed, _) =>
      if Guarded(w, s) then
        var delay := if fixed then TRANSIENT_RETRY_MS else CheckDelay(s.checks + 1);
        w.(row := w.row.(op := op, checks := s.checks + 1, nextAt := Some(w.now + delay)))
      else w
    case Fail(s, op, _) => if Guarded(w, s) then w.(row := w.row.(status := Failed, op := op, nextAt := None)) else w
    case Complete(s) =>
      if Guarded(w, s) then w.(row := w.row.(status := Completed, op := None, checks := 0, nextAt := None)) else w
    case Catch(s) => if Guarded(w, s) then w.(row := w.row.(nextAt := Some(w.now + TRANSIENT_RETRY_MS))) else w
    case Advance(s) => if Guarded(w, s) then Advanced(c, w) else w
  }

  function Advanced(c: Config, w: World): World {
    var n := w.row.step + 1;
    var row := if n >= |c.steps| then Row(Completed, n, None, 0, None)
               else Row(Active, n, None, 0, Some(w.now + Delay(c, n)));
    w.(row := row, due := w.now + Delay(c, n), early := w.early || w.now < w.due)
  }

  // ---------------------------------------------------------------------------
  // The gateway
  // ---------------------------------------------------------------------------

  /** The operation of a key, or |ops| if there is none. */
  function Find(ops: seq<Op>, key: nat): (i: nat)
    ensures i <= |ops| && (i < |ops| ==> ops[i].key == key)
    ensures i == |ops| ==> forall j :: 0 <= j < |ops| ==> ops[j].key != key
  {
    if ops == [] then 0
    else if Find(ops[..|ops| - 1], key) < |ops| - 1 then Find(ops[..|ops| - 1], key)
    else if ops[|ops| - 1].key == key then |ops| - 1 else |ops|
  }

  /** A reply with an idempotency key: the key's operation, made if it is new. */
  function Posted(ops: seq<Op>, key: nat): seq<Op> {
    if Find(ops, key) < |ops| then ops else ops + [Op(key, Pending)]
  }

  function Retried(ops: seq<Op>, op: nat): seq<Op>
    requires op < |ops|
  {
    if ops[op].status.OpFailed? then ops[op := ops[op].(status := Pending)] else ops
  }

  function Goto(w: World, a: nat, pc: Pc): World {
    w.(agents := w.agents[a := pc])
  }

  predicate Enabled(c: Config, w: World, e: Event) {
    match e
    case Tick(_) => true
    case Fetch(a, sequence) =>
      && a !in w.agents && w.row.status.Active? && w.row.nextAt.Some? && w.row.nextAt.value <= w.now
      && (sequence.Paused? ==> c.pausable)
    case Call(a, _) =>
      && a in w.agents
      && (w.agents[a].Post? || ((w.agents[a].Get? || w.agents[a].Retry?) && w.agents[a].op < |w.ops|))
    case NoGateway(a) => a in w.agents && (w.agents[a].Post? || w.agents[a].Get?)
    case NoConversation(a) => a in w.agents && w.agents[a].Post?
    case Write(a, _) => a in w.agents && Writes(w.agents[a])
    case Move(op, _) => op < |w.ops| && !w.ops[op].status.Succeeded?
    case Stop(a) => a in w.agents
  }

  function Apply(c: Config, w: World, e: Event): World
    requires Enabled(c, w, e)
  {
    match e
    case Tick(ms) => w.(now := w.now + ms)
    case Fetch(a, sequence) => Goto(w, a, Plan(c, Snap(w.row.step, w.row.op, w.row.checks), sequence))
    case Call(a, reply) => Called(w, a, reply)
    case NoGateway(a) => Goto(w, a, Catch(w.agents[a].s))
    case NoConversation(a) => Goto(w, a, Fail(w.agents[a].s, None, false))
    case Write(a, ok) =>
      if ok then Goto(Written(c, w, w.agents[a]), a, Accepted(w.agents[a])) else Goto(w, a, Refused(w.agents[a]))
    case Move(op, status) =>
      w.(ops := w.ops[op := w.ops[op].(status := status)], sent := if status.Succeeded? then w.sent + [w.ops[op].key] else w.sent)
    case Stop(a) => w.(agents := w.agents - {a})
  }

  /** A gateway call: it answers, or throws before or after it took effect. */
  function Called(w: World, a: nat, reply: Reply): World
    requires Enabled(Config([], true), w, Call(a, reply))
  {
    match w.agents[a]
    case Post(s) =>
      var ops := if reply.Throws? && !reply.applied then w.ops else Posted(w.ops, s.step);
      var op := Find(ops, s.step);
      var pc := if reply.Throws? || op == |ops| then Thrown(s, None, reply.Throws? && reply.retryable)
                else Persist(s, op, ops[op].status);
      Goto(w.(ops := ops), a, pc)
    case Get(s, op) =>
      Goto(w, a, if reply.Answers? then React(s, op, w.ops[op].status) else Thrown(s, Some(op), reply.retryable))
    case Retry(s, op) =>
      var ops := if reply.Throws? && !reply.applied then w.ops else Retried(w.ops, op);
      Goto(w.(ops := ops), a,
           if reply.Answers? then Check(s, Some(op), false, false) else Thrown(s, Some(op), reply.retryable))
    case _ => w
  }

  /** The row executeEnrollSequence inserts. */
  predicate Enrolled(c: Config, w: World) {
    && c.steps != [] && w.row == Row(Active, 0, None, 0, Some(w.now + Delay(c, 0))) && w.due == w.now + Delay(c, 0)
    && !w.early && w.ops == [] && w.sent == [] && w.agents == map[]
  }

  function After(c: Config, start: World, es: seq<Event>): Option<World> {
    if es == [] then Some(start)
    else
      var before := After(c, start, es[..|es| - 1]);
      if before.Some? && Enabled(c, before.value, es[|es| - 1]) then Some(Apply(c, before.value, es[|es| - 1])) else None
  }

  // ---------------------------------------------------------------------------
  // The invariant
  // ---------------------------------------------------------------------------

  /** The message steps before step n, in order. */
  function Messages(steps: seq<Step>, n: nat): seq<nat>
    requires n <= |steps|
  {
    if n == 0 then [] else Messages(steps, n - 1) + if steps[n - 1].Message? then [n - 1] else []
  }

  ghost predicate Delivered(ops: seq<Op>, key: nat) {
    exists i :: 0 <= i < |ops| && ops[i].key == key && ops[i].status.Succeeded?
  }

  ghost predicate RowOk(c: Config, row: Row) {
    && row.step <= |c.steps| && (row.status.Completed? <==> row.step == |c.steps|)
    && (row.status.Active? ==> row.nextAt.Some?)
  }

  ghost predicate OpsOk(c: Config, step: nat, ops: seq<Op>) {
    && (forall i, j :: 0 <= i < j < |ops| ==> ops[i].key != ops[j].key)
    && (forall i :: 0 <= i < |ops| ==>
          ops[i].key < |c.steps| && ops[i].key <= step && (ops[i].key < step ==> ops[i].status.Succeeded?))
    && (forall i :: 0 <= i < |ops| ==> Sendable(c.steps[ops[i].key]))
  }

  /** Whatever lies behind the current step has been delivered. */
  ghost predicate PassedOk(c: Config, step: nat, ops: seq<Op>) {
    forall k :: 0 <= k < step && k < |c.steps| && c.steps[k].Message? ==> Delivered(ops, k)
  }

  ghost predicate SentOk(c: Config, step: nat, ops: seq<Op>, sent: seq<nat>) {
    step <= |c.steps| && sent == Messages(c.steps, step) + if Delivered(ops, step) then [step] else []
  }

  /** The operation, if any, belongs to this step. */
  predicate Belongs(ops: seq<Op>, op: Option<nat>, step: nat) {
    op.Some? ==> op.value < |ops| && ops[op.value].key == step
  }

  ghost predicate AgentOk(c: Config, step: nat, ops: seq<Op>, pc: Pc) {
    pc.Over? ||
    (&& pc.s.step <= step && pc.s.step < |c.steps| && Belongs(ops, pc.s.op, pc.s.step)
     && match pc
        case Post(s) => Sendable(c.steps[s.step])
        case Get(s, op) => Belongs(ops, Some(op), s.step)
        case Persist(s, op, status) => Belongs(ops, Some(op), s.step) && (status.Succeeded? ==> Delivered(ops, s.step))
        case Retry(s, op) => Belongs(ops, Some(op), s.step)
        case Check(s, op, _, _) => Belongs(ops, op, s.step)
        case Fail(s, op, _) => Belongs(ops, op, s.step)
        case Advance(s) => c.steps[s.step].Message? ==> Delivered(ops, s.step)
        case Complete(s) => false
        case _ => true)
  }

  ghost predicate AgentsOk(c: Config, w: World) {
    forall a :: a in w.agents ==> AgentOk(c, w.row.step, w.ops, w.agents[a])
  }

  ghost predicate Inv(c: Config, w: World) {
    && RowOk(c, w.row) && OpsOk(c, w.row.step, w.ops) && PassedOk(c, w.row.step, w.ops) && SentOk(c, w.row.step, w.ops, w.sent)
    && Belongs(w.ops, w.row.op, w.row.step) && AgentsOk(c, w)
  }

  // ---------------------------------------------------------------------------
  // Every event keeps the invariant
  // ---------------------------------------------------------------------------

  /** Operations keep their keys, and a success is final. */
  ghost predicate Extends(ops: seq<Op>, more: seq<Op>) {
    |ops| <= |more| && forall i :: 0 <= i < |ops| ==>
      more[i].key == ops[i].key && (ops[i].status.Succeeded? ==> more[i].status.Succeeded?)
  }

  lemma AgentKept(c: Config, step: nat, ops: seq<Op>, pc: Pc, later: nat, more: seq<Op>)
    requires AgentOk(c, step, ops, pc) && step <= later && Extends(ops, more)
    ensures AgentOk(c, later, more, pc)
  {
    if !pc.Over? && Delivered(ops, pc.s.step) {
      StaysDelivered(ops, more, pc.s.step);
    }
  }

  lemma StaysDelivered(ops: seq<Op>, more: seq<Op>, key: nat)
    requires Delivered(ops, key) && Extends(ops, more)
    ensures Delivered(more, key)
  {
    var i :| 0 <= i < |ops| && ops[i].key == key && ops[i].status.Succeeded?;
    assert more[i].status.Succeeded?;
  }

  lemma StaysPassed(c: Config, step: nat, ops: seq<Op>, more: seq<Op>)
    requires PassedOk(c, step, ops) && Extends(ops, more)
    ensures PassedOk(c, step, more)
  {
    forall k | 0 <= k < step && k < |c.steps| && c.steps[k].Message?
      ensures Delivered(more, k)
    {
      StaysDelivered(ops, more, k);
    }
  }

  lemma OthersKept(c: Config, w: World, x: World, a: nat)
    requires AgentsOk(c, w) && w.row.step <= x.row.step && Extends(w.ops, x.ops)
    requires forall b :: b in x.agents && b != a ==> b in w.agents && x.agents[b] == w.agents[b]
    requires a in x.agents ==> AgentOk(c, x.row.step, x.ops, x.agents[a])
    ensures AgentsOk(c, x)
  {
    hide AgentOk;
    forall b | b in x.agents && b != a
      ensures AgentOk(c, x.row.step, x.ops, x.agents[b])
    {
      AgentKept(c, w.row.step, w.ops, w.agents[b], x.row.step, x.ops);
    }
  }

  lemma ReactOk(c: Config, step: nat, ops: seq<Op>, s: Snap, op: nat, status: OpStatus)
    requires s.step <= step && s.step < |c.steps| && Belongs(ops, s.op, s.step) && Belongs(ops, Some(op), s.step)
    requires status.Succeeded? ==> Delivered(ops, s.step)
    ensures AgentOk(c, step, ops, React(s, op, status))
  {
  }

  lemma FetchKeeps(c: Config, w: World, a: nat, sequence: SequenceState)
    requires Inv(c, w) && Enabled(c, w, Fetch(a, sequence))
    ensures Inv(c, Apply(c, w, Fetch(a, sequence)))
  {
    OthersKept(c, w, Apply(c, w, Fetch(a, sequence)), a);
  }

  lemma TickKeeps(c: Config, w: World, ms: nat)
    requires Inv(c, w)
    ensures Inv(c, Apply(c, w, Tick(ms)))
  {
  }

  lemma StopKeeps(c: Config, w: World, a: nat)
    requires Inv(c, w) && Enabled(c, w, Stop(a))
    ensures Inv(c, Apply(c, w, Stop(a)))
  {
  }

  /** Only the processor's own place changes. */
  lemma GotoKeeps(c: Config, w: World, a: nat, pc: Pc)
    requires Inv(c, w) && AgentOk(c, w.row.step, w.ops, pc)
    ensures Inv(c, Goto(w, a, pc))
  {
    OthersKept(c, w, Goto(w, a, pc), a);
  }

  lemma OpsChange(c: Config, w: World, a: nat, pc: Pc, ops: seq<Op>)
    requires Inv(c, w) && Extends(w.ops, ops) && OpsOk(c, w.row.step, ops)
    requires Delivered(ops, w.row.step) ==> Delivered(w.ops, w.row.step)
    requires AgentOk(c, w.row.step, ops, pc)
    ensures Inv(c, Goto(w.(ops := ops), a, pc))
  {
    hide OpsOk, AgentOk;
    if Delivered(w.ops, w.row.step) {
      StaysDelivered(w.ops, ops, w.row.step);
    }
    StaysPassed(c, w.row.step, w.ops, ops);
    OthersKept(c, w, Goto(w.(ops := ops), a, pc), a);
  }

  lemma PostedOk(c: Config, step: nat, ops: seq<Op>, key: nat)
    requires OpsOk(c, step, ops) && PassedOk(c, step, ops) && key <= step && key < |c.steps| && Sendable(c.steps[key])
    ensures var more := Posted(ops, key);
      && OpsOk(c, step, more) && Extends(ops, more) && Find(more, key) < |more| && (Delivered(more, step) ==> Delivered(ops, step))
  {
    hide Find, Sendable, OpsOk, Extends, Delivered, PassedOk;
    PostedIsFound(ops, key);
    if Find(ops, key) == |ops| {
      PassedHasOp(c, step, ops, key);
      AddedOp(c, step, ops);
    } else {
      ExtendsItself(ops);
    }
  }

  lemma ExtendsItself(ops: seq<Op>)
    ensures Extends(ops, ops)
  {
  }

  /** A message step without an operation has not been passed. */
  lemma PassedHasOp(c: Config, step: nat, ops: seq<Op>, key: nat)
    requires PassedOk(c, step, ops) && key <= step && key < |c.steps| && Sendable(c.steps[key])
    requires forall j :: 0 <= j < |ops| ==> ops[j].key != key
    ensures key == step
  {
    assert key < step ==> Delivered(ops, key);
  }

  lemma AddedOp(c: Config, step: nat, ops: seq<Op>)
    requires OpsOk(c, step, ops) && step < |c.steps| && Sendable(c.steps[step])
    requires forall j :: 0 <= j < |ops| ==> ops[j].key != step
    ensures var more := ops + [Op(step, Pending)];
      OpsOk(c, step, more) && Extends(ops, more) && (Delivered(more, step) ==> Delivered(ops, step))
  {
    hide Sendable;
  }

  lemma PostKeeps(c: Config, w: World, a: nat, reply: Reply)
    requires Inv(c, w) && Enabled(c, w, Call(a, reply)) && w.agents[a].Post?
    ensures Inv(c, Apply(c, w, Call(a, reply)))
  {
    hide OpsOk, PassedOk, SentOk, RowOk, Posted;
    var s := w.agents[a].s;
    assert AgentOk(c, w.row.step, w.ops, w.agents[a]);
    PostedOk(c, w.row.step, w.ops, s.step);
    var x := Apply(c, w, Call(a, reply));
    OpsChange(c, w, a, x.agents[a], x.ops);
  }

  lemma GetKeeps(c: Config, w: World, a: nat, reply: Reply)
    requires Inv(c, w) && Enabled(c, w, Call(a, reply)) && w.agents[a].Get?
    ensures Inv(c, Apply(c, w, Call(a, reply)))
  {
    var pc := w.agents[a];
    assert AgentOk(c, w.row.step, w.ops, pc);
    GotoKeeps(c, w, a, Apply(c, w, Call(a, reply)).agents[a]);
  }

  lemma RetriedOk(c: Config, step: nat, ops: seq<Op>, op: nat)
    requires OpsOk(c, step, ops) && op < |ops|
    ensures OpsOk(c, step, Retried(ops, op)) && Extends(ops, Retried(ops, op))
    ensures Delivered(Retried(ops, op), step) ==> Delivered(ops, step)
  {
  }

  lemma RetryKeeps(c: Config, w: World, a: nat, reply: Reply)
    requires Inv(c, w) && Enabled(c, w, Call(a, reply)) && w.agents[a].Retry?
    ensures Inv(c, Apply(c, w, Call(a, reply)))
  {
    hide OpsOk, PassedOk, SentOk, RowOk, Retried;
    assert AgentOk(c, w.row.step, w.ops, w.agents[a]);
    RetriedOk(c, w.row.step, w.ops, w.agents[a].op);
    var x := Apply(c, w, Call(a, reply));
    OpsChange(c, w, a, x.agents[a], x.ops);
  }

  lemma AskKeeps(c: Config, w: World, e: Event)
    requires Inv(c, w) && Enabled(c, w, e) && (e.NoGateway? || e.NoConversation?)
    ensures Inv(c, Apply(c, w, e))
  {
    assert AgentOk(c, w.row.step, w.ops, w.agents[e.a]);
    GotoKeeps(c, w, e.a, Apply(c, w, e).agents[e.a]);
  }

  /** The gateway works on: a success is a delivery, and it can only be one of the current step. */
  lemma MoveKeeps(c: Config, w: World, op: nat, status: OpStatus)
    requires Inv(c, w) && Enabled(c, w, Move(op, status))
    ensures Inv(c, Apply(c, w, Move(op, status)))
  {
    hide AgentOk;
    var x := Apply(c, w, Move(op, status));
    var key := w.ops[op].key;
    StaysPassed(c, w.row.step, w.ops, x.ops);
    MovedAgents(c, w, x);
    if status.Succeeded? {
      assert key == w.row.step;
      assert x.ops[op].status.Succeeded?;
      assert Delivered(x.ops, w.row.step) && !Delivered(w.ops, w.row.step);
    } else {
      if Delivered(w.ops, w.row.step) {
        StaysDelivered(w.ops, x.ops, w.row.step);
      }
      assert forall i :: 0 <= i < |x.ops| && x.ops[i].status.Succeeded? ==> w.ops[i] == x.ops[i];
    }
  }

  lemma MovedAgents(c: Config, w: World, x: World)
    requires AgentsOk(c, w) && x.row == w.row && x.agents == w.agents && Extends(w.ops, x.ops)
    ensures AgentsOk(c, x)
  {
    hide AgentOk;
    forall b | b in x.agents
      ensures AgentOk(c, x.row.step, x.ops, x.agents[b])
    {
      AgentKept(c, w.row.step, w.ops, w.agents[b], x.row.step, x.ops);
    }
  }

  lemma RefusedKeeps(c: Config, w: World, a: nat)
    requires Inv(c, w) && Enabled(c, w, Write(a, false))
    ensures Inv(c, Apply(c, w, Write(a, false)))
  {
    assert AgentOk(c, w.row.step, w.ops, w.agents[a]);
    GotoKeeps(c, w, a, Refused(w.agents[a]));
  }

  /** A write that leaves the step where it is. */
  lemma RowChange(c: Config, w: World, a: nat, row: Row, pc: Pc)
    requires Inv(c, w) && row.step == w.row.step && RowOk(c, row) && Belongs(w.ops, row.op, row.step)
    requires AgentOk(c, w.row.step, w.ops, pc)
    ensures Inv(c, Goto(w.(row := row), a, pc))
  {
    hide OpsOk, AgentOk, SentOk, PassedOk;
    OthersKept(c, w, Goto(w.(row := row), a, pc), a);
  }

  lemma WriteKeeps(c: Config, w: World, a: nat)
    requires Inv(c, w) && Enabled(c, w, Write(a, true)) && !w.agents[a].Advance?
    ensures Inv(c, Apply(c, w, Write(a, true)))
  {
    var pc := w.agents[a];
    assert AgentOk(c, w.row.step, w.ops, pc);
    var x := Apply(c, w, Write(a, true));
    if pc.Persist? {
      ReactOk(c, w.row.step, w.ops, pc.s, pc.op, pc.status);
    }
    RowChange(c, w, a, x.row, Accepted(pc));
  }

  lemma AdvanceKeeps(c: Config, w: World, a: nat)
    requires Inv(c, w) && Enabled(c, w, Write(a, true)) && w.agents[a].Advance?
    ensures Inv(c, Apply(c, w, Write(a, true)))
  {
    var pc := w.agents[a];
    assert AgentOk(c, w.row.step, w.ops, pc);
    if Guarded(w, pc.s) {
      AdvancedKeeps(c, w, a);
    } else {
      GotoKeeps(c, w, a, Over);
    }
  }

  lemma AdvancedKeeps(c: Config, w: World, a: nat)
    requires Inv(c, w) && w.row.status.Active?
    requires c.steps[w.row.step].Message? ==> Delivered(w.ops, w.row.step)
    ensures Inv(c, Goto(Advanced(c, w), a, Over))
  {
    hide AgentOk;
    var x := Goto(Advanced(c, w), a, Over);
    if Delivered(w.ops, w.row.step) {
      var i :| 0 <= i < |w.ops| && w.ops[i].key == w.row.step && w.ops[i].status.Succeeded?;
    }
    assert !Delivered(w.ops, x.row.step);
    NowOver(c, x);
    OthersKept(c, w, x, a);
  }

  lemma NowOver(c: Config, x: World)
    ensures AgentOk(c, x.row.step, x.ops, Over)
  {
  }

  lemma StepKeeps(c: Config, w: World, e: Event)
    requires Inv(c, w) && Enabled(c, w, e)
    ensures Inv(c, Apply(c, w, e))
  {
    hide Inv, Apply;
    match e
    case Tick(ms) => TickKeeps(c, w, ms);
    case Fetch(a, sequence) => FetchKeeps(c, w, a, sequence);
    case Call(a, reply) =>
      if w.agents[a].Post? {
        PostKeeps(c, w, a, reply);
      } else if w.agents[a].Get? {
        GetKeeps(c, w, a, reply);
      } else {
        RetryKeeps(c, w, a, reply);
      }
    case NoGateway(_) => AskKeeps(c, w, e);
    case NoConversation(_) => AskKeeps(c, w, e);
    case Write(a, ok) =>
      if !ok {
        RefusedKeeps(c, w, a);
      } else if w.agents[a].Advance? {
        AdvanceKeeps(c, w, a);
      } else {
        WriteKeeps(c, w, a);
      }
    case Move(op, status) => MoveKeeps(c, w, op, status);
    case Stop(a) => StopKeeps(c, w, a);
  }

  lemma {:induction false} HistoryKeeps(c: Config, start: World, es: seq<Event>)
    requires Inv(c, start) && After(c, start, es).Some?
    ensures Inv(c, After(c, start, es).value)
  {
    hide Inv, Apply, Enabled;
    if es != [] {
      HistoryKeeps(c, start, es[..|es| - 1]);
      StepKeeps(c, After(c, start, es[..|es| - 1]).value, es[|es| - 1]);
    }
  }

  lemma EnrolledKeeps(c: Config, start: World)
    requires Enrolled(c, start)
    ensures Inv(c, start)
  {
    assert !Delivered(start.ops, 0);
  }

  // ---------------------------------------------------------------------------
  // Exactly once, in order
  // ---------------------------------------------------------------------------

  lemma {:induction false} MessagesAre(steps: seq<Step>, n: nat)
    requires n <= |steps|
    ensures var m := Messages(steps, n);
      && (forall k :: k in m <==> 0 <= k < n && steps[k].Message?)
      && (forall i, j :: 0 <= i < j < |m| ==> m[i] < m[j])
  {
    if n > 0 {
      MessagesAre(steps, n - 1);
      var before := Messages(steps, n - 1);
      assert forall i :: 0 <= i < |before| ==> before[i] in before;
    }
  }

  lemma {:induction false} MessagesGrow(steps: seq<Step>, m: nat, n: nat)
    requires m <= n <= |steps|
    ensures Messages(steps, m) <= Messages(steps, n)
  {
    if m < n {
      MessagesGrow(steps, m, n - 1);
    }
  }

  /**
   * Whatever the processors do, the deliveries are the message steps from the first on, in order and each once; a
   * completed enrollment has delivered all of them; and there is at most one operation per step.
   */
  lemma DeliversInOrder(c: Config, start: World, es: seq<Event>)
    requires Enrolled(c, start) && After(c, start, es).Some?
    ensures var w := After(c, start, es).value;
      && w.sent <= Messages(c.steps, |c.steps|)
      && (w.row.status.Completed? ==> w.sent == Messages(c.steps, |c.steps|))
      && (forall i, j :: 0 <= i < j < |w.ops| ==> w.ops[i].key != w.ops[j].key)
      && (forall k :: k in w.sent <==> Delivered(w.ops, k))
  {
    hide Apply, Enabled, AgentsOk;
    EnrolledKeeps(c, start);
    HistoryKeeps(c, start, es);
    SentIsPrefix(c, After(c, start, es).value);
  }

  lemma SentIsPrefix(c: Config, w: World)
    requires RowOk(c, w.row) && OpsOk(c, w.row.step, w.ops) && PassedOk(c, w.row.step, w.ops)
    requires SentOk(c, w.row.step, w.ops, w.sent)
    ensures w.sent <= Messages(c.steps, |c.steps|)
    ensures w.row.status.Completed? ==> w.sent == Messages(c.steps, |c.steps|)
    ensures forall k :: k in w.sent <==> Delivered(w.ops, k)
  {
    MessagesGrow(c.steps, w.row.step, |c.steps|);
    if Delivered(w.ops, w.row.step) {
      assert Messages(c.steps, w.row.step + 1) == w.sent;
      MessagesGrow(c.steps, w.row.step + 1, |c.steps|);
    }
    MessagesAre(c.steps, w.row.step);
    assert forall k :: k in w.sent <==> k in Messages(c.steps, w.row.step) || (k == w.row.step && Delivered(w.ops, k));
  }

  /** The stored operation is one of the current step. */
  lemma OperationBelongs(c: Config, start: World, es: seq<Event>)
    requires Enrolled(c, start) && After(c, start, es).Some?
    ensures var w := After(c, start, es).value;
      w.row.op.Some? ==> w.row.op.value < |w.ops| && w.ops[w.row.op.value].key == w.row.step
  {
    EnrolledKeeps(c, start);
    HistoryKeeps(c, start, es);
  }

  /** No enrollment is forgotten: while it is active some moment is set at which it is fetched again. */
  lemma ActiveIsScheduled(c: Config, start: World, es: seq<Event>, a: nat)
    requires Enrolled(c, start) && After(c, start, es).Some?
    requires var w := After(c, start, es).value; w.row.status.Active? && a !in w.agents
    ensures exists ms: nat :: var x := Apply(c, After(c, start, es).value, Tick(ms)); Enabled(c, x, Fetch(a, Live))
  {
    EnrolledKeeps(c, start);
    HistoryKeeps(c, start, es);
    var w := After(c, start, es).value;
    var ms: nat := Max(0, w.row.nextAt.value - w.now);
    assert Enabled(c, Apply(c, w, Tick(ms)), Fetch(a, Live));
  }

  // ---------------------------------------------------------------------------
  // What an enrollment is written off for
  // ---------------------------------------------------------------------------

  predicate ByMe(e: Event, me: nat) {
    !e.Tick? && !e.Move? && e.a == me
  }

  /** The gateway has given the operation up, or does not know what became of it. */
  predicate Lost(status: OpStatus) {
    status == OpFailed(false) || status == Unknown
  }

  /**
   * A reason to give up: the row stands at a message that cannot be sent, the conversation is missing, the gateway throws
   * for good or answers with a lost operation, or a write is refused.
   */
  ghost predicate Grave(c: Config, w: World, e: Event)
    requires Enabled(c, w, e)
  {
    match e
    case Fetch(_, sequence) =>
      sequence.Live? && w.row.step < |c.steps| && c.steps[w.row.step].Message? && !(1 <= |c.steps[w.row.step].text| <= MAX_TEXT)
    case NoConversation(_) => true
    case Call(_, Throws(retryable, _)) => !retryable
    case Call(a, Answers) =>
      (match w.agents[a]
       case Get(_, op) => Lost(w.ops[op].status)
       case Post(s) => exists i :: 0 <= i < |w.ops| && w.ops[i].key == s.step && Lost(w.ops[i].status)
       case _ => false)
    case Write(_, ok) => !ok
    case _ => false
  }

  /** Processor `a` has met a reason to give up since it last read the row. */
  ghost predicate Blamed(c: Config, start: World, es: seq<Event>, a: nat)
    requires After(c, start, es).Some?
  {
    es != [] &&
    (var n := |es| - 1;
     var grave := ByMe(es[n], a) && Grave(c, After(c, start, es[..n]).value, es[n]);
     grave || (!(ByMe(es[n], a) && es[n].Fetch?) && Blamed(c, start, es[..n], a)))
  }

  /** Nothing but giving up lies ahead. */
  predicate Doomed(pc: Pc) {
    pc.Fail? || (pc.Persist? && Lost(pc.status))
  }

  lemma WritesKeepAgents(c: Config, w: World)
    ensures forall pc :: Writes(pc) ==> Written(c, w, pc).agents == w.agents
  {
  }

  lemma DoomedByWrite(c: Config, w: World, e: Event, a: nat)
    requires e.Write? && Enabled(c, w, e) && a in Apply(c, w, e).agents && Doomed(Apply(c, w, e).agents[a])
    ensures (ByMe(e, a) && Grave(c, w, e)) || (a in w.agents && Doomed(w.agents[a]))
  {
    hide CheckDelay, Delay, Written, Find;
    WritesKeepAgents(c, w);
  }

  lemma DoomedByCall(c: Config, w: World, e: Event, a: nat)
    requires e.Call? && Enabled(c, w, e) && a in Apply(c, w, e).agents && Doomed(Apply(c, w, e).agents[a])
    ensures (ByMe(e, a) && Grave(c, w, e)) || (a in w.agents && Doomed(w.agents[a]))
  {
    hide CheckDelay, Retried, Delay, Written, Sendable;
  }

  lemma DoomedByRest(c: Config, w: World, e: Event, a: nat)
    requires !e.Write? && !e.Call? && Enabled(c, w, e) && a in Apply(c, w, e).agents && Doomed(Apply(c, w, e).agents[a])
    ensures (ByMe(e, a) && Grave(c, w, e)) || (!(ByMe(e, a) && e.Fetch?) && a in w.agents && Doomed(w.agents[a]))
  {
    hide CheckDelay, Retried, Delay, Written, Called, Find;
  }

  lemma DoomedFor(c: Config, w: World, e: Event, a: nat)
    requires Enabled(c, w, e) && a in Apply(c, w, e).agents && Doomed(Apply(c, w, e).agents[a])
    ensures (ByMe(e, a) && Grave(c, w, e)) || (!(ByMe(e, a) && e.Fetch?) && a in w.agents && Doomed(w.agents[a]))
  {
    hide Apply, Enabled, Grave;
    if e.Write? {
      DoomedByWrite(c, w, e, a);
    } else if e.Call? {
      DoomedByCall(c, w, e, a);
    } else {
      DoomedByRest(c, w, e, a);
    }
  }

  lemma {:induction false} DoomedIsBlamed(c: Config, start: World, es: seq<Event>, a: nat)
    requires Enrolled(c, start) && After(c, start, es).Some?
    requires var w := After(c, start, es).value; a in w.agents && Doomed(w.agents[a])
    ensures Blamed(c, start, es, a)
  {
    hide Apply, Enabled, Grave;
    if es != [] {
      var n := |es| - 1;
      DoomedFor(c, After(c, start, es[..n]).value, es[n], a);
      if !(ByMe(es[n], a) && Grave(c, After(c, start, es[..n]).value, es[n])) {
        DoomedIsBlamed(c, start, es[..n], a);
      }
    }
  }

  /** An enrollment is written off only by a processor that has met a reason to give up since it read the row. */
  lemma FailsForCause(c: Config, start: World, es: seq<Event>, e: Event)
    requires Enrolled(c, start) && After(c, start, es).Some? && Enabled(c, After(c, start, es).value, e)
    requires !After(c, start, es).value.row.status.Failed? && Apply(c, After(c, start, es).value, e).row.status.Failed?
    ensures e.Write? && e.ok && Blamed(c, start, es, e.a)
  {
    hide Blamed, CheckDelay, Delay, Posted, Find;
    var w := After(c, start, es).value;
    assert e.Write? && w.agents[e.a].Fail?;
    DoomedIsBlamed(c, start, es, e.a);
  }

  // ---------------------------------------------------------------------------
  // When a delay is kept
  // ---------------------------------------------------------------------------

  /**
   * A pause can come in while a delay longer than five minutes runs. The pausing write does not look at the step, so a
   * processor that read the row one step earlier moves the wake-up time of the delay to five minutes from now.
   */
  ghost predicate Shortcut(c: Config) {
    c.pausable && exists i :: LongDelayAt(c, i)
  }

  ghost predicate LongDelayAt(c: Config, i: nat) {
    1 <= i < |c.steps| && Delay(c, i) > PAUSE_MS && forall k :: 0 <= k < i && c.steps[k].Message? ==> Sendable(c.steps[k])
  }

  ghost predicate Punctual(c: Config, w: World) {
    && !w.early && w.due <= w.now + Delay(c, w.row.step)
    && (w.row.status.Active? ==> w.due <= w.now || w.due <= w.row.nextAt.Or(w.now))
    && (forall a :: a in w.agents ==> PunctualAt(c, w.row.step, w.due <= w.now, w.agents[a]))
  }

  predicate PunctualAt(c: Config, step: nat, dueYet: bool, pc: Pc) {
    && (!pc.Over? && pc.s.step == step ==> dueYet)
    && (pc.Pause? ==> c.pausable)
  }

  lemma ReachedIsSendable(c: Config, w: World)
    requires Inv(c, w)
    ensures forall k :: 0 <= k < w.row.step && c.steps[k].Message? ==> Sendable(c.steps[k])
  {
    hide AgentsOk, SentOk, Sendable;
  }

  lemma RestPunctual(c: Config, w: World, e: Event)
    requires Inv(c, w) && Punctual(c, w) && Enabled(c, w, e) && !e.Write?
    ensures Punctual(c, Apply(c, w, e))
  {
    hide Sendable, SentOk, OpsOk, PassedOk, Posted, Retried, Find, AgentOk;
  }

  lemma WritePunctual(c: Config, w: World, a: nat, ok: bool)
    requires Inv(c, w) && Punctual(c, w) && Enabled(c, w, Write(a, ok))
    requires w.row.status.Active? && w.row.step > 0 && c.pausable ==> Delay(c, w.row.step) <= PAUSE_MS
    ensures Punctual(c, Apply(c, w, Write(a, ok)))
  {
    hide Sendable, SentOk, OpsOk, PassedOk;
    assert AgentOk(c, w.row.step, w.ops, w.agents[a]);
  }

  lemma StepPunctual(c: Config, w: World, e: Event)
    requires Inv(c, w) && Punctual(c, w) && Enabled(c, w, e) && !Shortcut(c)
    ensures Punctual(c, Apply(c, w, e))
  {
    hide Punctual, Apply, AgentsOk, Sendable;
    ReachedIsSendable(c, w);
    if c.pausable && w.row.status.Active? && w.row.step > 0 {
      assert !LongDelayAt(c, w.row.step);
    }
    if e.Write? {
      WritePunctual(c, w, e.a, e.ok);
    } else {
      RestPunctual(c, w, e);
    }
  }

  ghost predicate Reaches(c: Config, w: World, x: World) {
    exists es :: After(c, w, es) == Some(x)
  }

  lemma Stays(c: Config, w: World)
    ensures Reaches(c, w, w)
  {
    assert After(c, w, []) == Some(w);
  }

  lemma Go(c: Config, w: World, x: World, e: Event) returns (y: World)
    requires Reaches(c, w, x) && Enabled(c, x, e)
    ensures y == Apply(c, x, e) && Reaches(c, w, y)
  {
    hide Enabled, Apply;
    var es :| After(c, w, es) == Some(x);
    assert (es + [e])[..|es + [e]| - 1] == es;
    y := Apply(c, x, e);
    assert After(c, w, es + [e]) == Some(y);
  }

  lemma {:induction false} PunctualThroughout(c: Config, start: World, es: seq<Event>)
    requires Enrolled(c, start) && After(c, start, es).Some? && !Shortcut(c)
    ensures Inv(c, After(c, start, es).value) && Punctual(c, After(c, start, es).value)
  {
    hide Inv, Punctual, Apply, Enabled, Shortcut;
    if es == [] {
      EnrolledKeeps(c, start);
      EnrolledPunctual(c, start);
    } else {
      PunctualThroughout(c, start, es[..|es| - 1]);
      var w := After(c, start, es[..|es| - 1]).value;
      StepKeeps(c, w, es[|es| - 1]);
      StepPunctual(c, w, es[|es| - 1]);
    }
  }

  lemma EnrolledPunctual(c: Config, start: World)
    requires Enrolled(c, start)
    ensures Punctual(c, start)
  {
  }

  /** An enrollment at the start of step k with processor 0 idle. */
  ghost predicate AtStep(c: Config, w: World, k: nat) {
    k < |c.steps| && w.row.status.Active? && w.row.step == k && w.row.op.None? && w.row.nextAt.Some? && 0 !in w.agents
  }

  /** The message of step k reaches the gateway and is delivered, and the processor is cut off before it hears of it. */
  lemma DeliverStep(c: Config, w: World, x: World, k: nat) returns (y: World)
    requires Reaches(c, w, x) && AtStep(c, x, k) && x.row.nextAt.value <= x.now && c.steps[k].Message? && Sendable(c.steps[k])
    ensures Reaches(c, w, y) && y == x.(ops := y.ops, sent := y.sent)
    ensures Find(y.ops, k) < |y.ops| && y.ops[Find(y.ops, k)].status.Succeeded?
  {
    hide Reaches, Sendable, Find;
    y := Go(c, w, x, Fetch(0, Live));
    y := Go(c, w, y, Call(0, Throws(true, true)));
    var ops := y.ops;
    assert ops == Posted(x.ops, k);
    PostedIsFound(x.ops, k);
    y := Go(c, w, y, Stop(0));
    assert y.agents == x.agents;
    var op := Find(ops, k);
    if !ops[op].status.Succeeded? {
      y := Go(c, w, y, Move(op, Succeeded));
      SameKeys(ops, y.ops, k);
    }
  }

  lemma PostedIsFound(ops: seq<Op>, key: nat)
    ensures Find(Posted(ops, key), key) < |Posted(ops, key)| && Posted(Posted(ops, key), key) == Posted(ops, key)
  {
    hide Find;
    if Find(ops, key) == |ops| {
      assert Posted(ops, key)[|ops|].key == key;
    }
  }

  lemma {:induction false} SameKeys(ops: seq<Op>, more: seq<Op>, key: nat)
    requires |ops| == |more| && forall i :: 0 <= i < |ops| ==> ops[i].key == more[i].key
    ensures Find(ops, key) == Find(more, key)
  {
    if ops != [] {
      SameKeys(ops[..|ops| - 1], more[..|more| - 1], key);
    }
  }

  /** A processor about to leave step k does so and is gone. */
  lemma LeaveStep(c: Config, w: World, x: World, k: nat) returns (y: World)
    requires Reaches(c, w, x) && 0 in x.agents && x.agents[0].Advance? && x.agents[0].s.step == k
    requires x.row.status.Active? && x.row.step == k && k + 1 < |c.steps|
    ensures Reaches(c, w, y) && AtStep(c, y, k + 1) && y.row.nextAt == Some(y.due) && y.due == y.now + Delay(c, k + 1)
    ensures y.agents == x.agents - {0} && y.now == x.now
  {
    hide Reaches, Delay;
    y := Go(c, w, x, Write(0, true));
    y := Go(c, w, y, Stop(0));
  }

  /** Processor 0 takes one step to its end: the wait passes, the message is delivered. */
  lemma PassStep(c: Config, w: World, x: World, k: nat) returns (y: World)
    requires Reaches(c, w, x) && AtStep(c, x, k) && x.row.nextAt.value <= x.now && k + 1 < |c.steps|
    requires c.steps[k].Message? ==> Sendable(c.steps[k])
    ensures Reaches(c, w, y) && AtStep(c, y, k + 1) && y.row.nextAt == Some(y.due) && y.due == y.now + Delay(c, k + 1)
    ensures y.agents == x.agents && y.now == x.now
  {
    hide Reaches, Sendable, Delay, Find;
    y := x;
    if c.steps[k].Message? {
      y := DeliverStep(c, w, x, k);
      y := Go(c, w, y, Fetch(0, Live));
      y := Go(c, w, y, Call(0, Answers));
      y := Go(c, w, y, Write(0, true));
    } else {
      y := Go(c, w, y, Fetch(0, Live));
    }
    assert y.agents - {0} == x.agents;
    y := LeaveStep(c, w, y, k);
  }

  lemma {:induction false} ReachStep(c: Config, start: World, i: nat) returns (y: World)
    requires Enrolled(c, start) && i < |c.steps|
    requires forall k :: 0 <= k < i && c.steps[k].Message? ==> Sendable(c.steps[k])
    ensures Reaches(c, start, y) && AtStep(c, y, i) && y.agents == map[] && y.row.nextAt.value <= y.now
  {
    hide Reaches, Sendable;
    if i == 0 {
      Stays(c, start);
      y := Go(c, start, start, Tick(Delay(c, 0)));
    } else {
      y := ReachStep(c, start, i - 1);
      y := PassStep(c, start, y, i - 1);
      y := Go(c, start, y, Tick(Delay(c, i)));
    }
  }

  lemma ShortcutHappens(c: Config, start: World, i: nat) returns (y: World)
    requires Enrolled(c, start) && c.pausable && LongDelayAt(c, i)
    ensures Reaches(c, start, y) && y.early
  {
    hide Reaches, Sendable;
    y := ReachStep(c, start, i - 1);
    y := Go(c, start, y, Fetch(1, Paused));
    y := PassStep(c, start, y, i - 1);
    y := Go(c, start, y, Write(1, true));
    y := Go(c, start, y, Tick(PAUSE_MS));
    y := Go(c, start, y, Fetch(0, Live));
    y := Go(c, start, y, Write(0, true));
  }

  /** No step is ever left before its delay has passed, exactly when no pause can come in during a long delay. */
  lemma DelaysAreKeptExactly(c: Config, start: World)
    requires Enrolled(c, start)
    ensures (forall x :: Reaches(c, start, x) ==> !x.early) <==> !Shortcut(c)
  {
    hide Enrolled, Inv, Apply, Enabled, LongDelayAt;
    if Shortcut(c) {
      var i :| LongDelayAt(c, i);
      var y := ShortcutHappens(c, start, i);
    } else {
      forall x | Reaches(c, start, x)
        ensures !x.early
      {
        var es :| After(c, start, es) == Some(x);
        PunctualThroughout(c, start, es);
      }
    }
  }
}
