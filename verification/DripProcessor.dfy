/** The drip processor as it runs: reading due enrollments and taking each one step further, call by call. */
module DripProcessor {
  import opened Options
  import opened DripProtocol

  /** Around one call of ours: what others do first, whether we live to make it, and how it goes. */
  datatype Turn = Turn(events: seq<Event>, alive: bool, ok: bool, reply: Reply)

  datatype Result = Moved | Waiting | GaveUp | Dropped

  /** How one part of the work ended: with a value, with an exception, or not at all. */
  datatype End<+T> = Returned(value: T) | Threw | Cut

  predicate Settled(row: Row, step: nat) {
    !row.status.Active? || step < row.step
  }

  /** The row is active at the step that was read. */
  predicate At(row: Row, s: Snap) {
    row.status.Active? && row.step == s.step
  }

  /** A row that still waits at this step is not due. */
  predicate Parked(row: Row, now: int, step: nat) {
    row.status.Active? && row.step == step ==> row.nextAt.Some? && now < row.nextAt.value
  }

  /** What an answer of the message step says about the row. */
  predicate HoldsOf(result: Result, row: Row, now: int, step: nat) {
    match result
    case GaveUp => Settled(row, step)
    case Waiting => Parked(row, now, step)
    case _ => false
  }

  /** Steps only go up, and a settled enrollment stays as it is. */
  predicate Onward(row: Row, later: Row) {
    row.step <= later.step && (!row.status.Active? ==> later.status == row.status && later.step == row.step)
  }

  lemma StepOnward(c: Config, w: World, e: Event)
    requires Enabled(c, w, e)
    ensures Onward(w.row, Apply(c, w, e).row)
  {
    hide Find, Posted, Retried, CheckDelay, Delay, Sendable;
  }

  lemma Logged(c: Config, start: World, log: seq<Event>, w: World, e: Event)
    requires After(c, start, log) == Some(w) && Enabled(c, w, e)
    ensures After(c, start, log + [e]) == Some(Apply(c, w, e)) && Onward(w.row, Apply(c, w, e).row)
  {
    hide Enabled, Apply, Onward;
    assert (log + [e])[..|log + [e]| - 1] == log;
    StepOnward(c, w, e);
  }

  lemma NotMine(c: Config, w: World, e: Event, me: nat)
    requires Enabled(c, w, e) && me in w.agents && !ByMe(e, me)
    ensures var x := Apply(c, w, e); me in x.agents && x.agents[me] == w.agents[me]
  {
    hide Find, Posted, Retried, CheckDelay, Delay, Sendable, Written;
    if e.Write? {
      assert forall pc :: Writes(pc) ==> Written(c, w, pc).agents == w.agents by {
        WritesKeepAgents(c, w);
      }
    }
  }

  /** What a reply under this key is answered with: the operation the gateway knows, or a new one. */
  function StatusFor(ops: seq<Op>, key: nat): OpStatus {
    if Find(ops, key) < |ops| then ops[Find(ops, key)].status else Pending
  }

  /** We live, our writes go through and the gateway answers us; the others may do what they like. */
  predicate Smooth(script: seq<Turn>) {
    forall t :: t in script ==> t.alive && t.ok && t.reply.Answers?
  }

  lemma NothingIsSmooth()
    ensures Smooth([])
  {
  }

  /** One enrollment row, the gateway operations made for it, and everybody at work on it. */
  class Enrollment {
    const config: Config
    const sequence: SequenceState
    ghost const start: World
    var now: int
    var row: Row
    var due: int
    var early: bool
    var ops: seq<Op>
    var sent: seq<nat>
    var agents: map<nat, Pc>
    ghost var log: seq<Event>
    var script: seq<Turn>

    /** Everything but the script. */
    function View(): World
      reads `now, `row, `due, `early, `ops, `sent, `agents
    {
      World(now, row, due, early, ops, sent, agents)
    }

    ghost predicate Valid()
      reads `now, `row, `due, `early, `ops, `sent, `agents, `log
    {
      Enrolled(config, start) && After(config, start, log) == Some(View()) && (sequence.Paused? ==> config.pausable)
    }

    ghost predicate Ready(me: nat, pc: Pc)
      reads `now, `row, `due, `early, `ops, `sent, `agents, `log
    {
      Valid() && me in agents && agents[me] == pc
    }

    constructor (c: Config, sequence: SequenceState, at: int, script: seq<Turn>)
      requires c.steps != [] && (sequence.Paused? ==> c.pausable)
      ensures Valid() && config == c && log == [] && agents == map[]
    {
      config, this.sequence, this.script := c, sequence, script;
      now, row, due, early := at, Row(Active, 0, None, 0, Some(at + Delay(c, 0))), at + Delay(c, 0), false;
      ops, sent, agents, log := [], [], map[], [];
      start := World(at, Row(Active, 0, None, 0, Some(at + Delay(c, 0))), at + Delay(c, 0), false, [], [], map[]);
    }

    method Take(e: Event)
      requires Valid() && Enabled(config, View(), e)
      modifies `now, `row, `due, `early, `ops, `sent, `agents, `log
      ensures Valid() && log == old(log) + [e]
      ensures View() == Apply(config, old(View()), e) && Onward(old(row), row)
    {
      hide Enrolled, After, Enabled, Apply, Onward;
      Logged(config, start, log, View(), e);
      var next := Apply(config, View(), e);
      now, row, due, early, ops, sent, agents := next.now, next.row, next.due, next.early, next.ops, next.sent, next.agents;
      log := log + [e];
    }

    /** The processor reads a due row. */
    method Read(me: nat) returns (s: Snap)
      requires Valid() && me !in agents && IsDue(row, now)
      modifies `agents, `log
      ensures Ready(me, Plan(config, s, sequence)) && s == SnapOf(row) && log == old(log) + [Fetch(me, sequence)]
    {
      hide Enrolled, After, Plan;
      Logged(config, start, log, View(), Fetch(me, sequence));
      s := SnapOf(row);
      agents := agents[me := Plan(config, s, sequence)];
      log := log + [Fetch(me, sequence)];
    }

    /** The other processors, the clock and the gateway move; our place stays. */
    method Others(me: nat, ghost pc: Pc, events: seq<Event>)
      requires Ready(me, pc)
      modifies `now, `row, `due, `early, `ops, `sent, `agents, `log
      ensures Ready(me, pc) && old(log) <= log && Onward(old(row), row) && (events == [] ==> View() == old(View()))
    {
      hide Apply, Enabled, Enrolled, After;
      for i := 0 to |events|
        invariant Ready(me, pc) && old(log) <= log && Onward(old(row), row) && (i == 0 ==> View() == old(View()))
      {
        if Enabled(config, View(), events[i]) && !ByMe(events[i], me) {
          NotMine(config, View(), events[i], me);
          Take(events[i]);
        }
      }
    }

    /** They move before our next call; or we are cut off. */
    method Elsewhere(me: nat, ghost pc: Pc) returns (turn: Turn)
      requires Ready(me, pc)
      modifies `now, `row, `due, `early, `ops, `sent, `agents, `log, `script
      ensures Valid() && old(log) <= log && Onward(old(row), row)
      ensures if turn.alive then Ready(me, pc) else me !in agents
      ensures Smooth(old(script)) ==> turn.alive && turn.ok && turn.reply.Answers? && Smooth(script)
      ensures old(script) == [] ==> turn == Turn([], true, true, Answers) && script == [] && View() == old(View())
    {
      hide Apply, Enabled, Enrolled, After;
      turn := if script == [] then Turn([], true, true, Answers) else script[0];
      script := if script == [] then [] else script[1..];
      assert forall t :: t in script ==> t in old(script);
      Others(me, pc, turn.events);
      if !turn.alive {
        Halt(me);
      }
    }

    method Halt(me: nat)
      requires Valid() && me in agents
      modifies `now, `row, `due, `early, `ops, `sent, `agents, `log
      ensures Valid() && log == old(log) + [Stop(me)] && me !in agents && row == old(row)
    {
      hide Enrolled, After;
      assert Enabled(config, View(), Stop(me));
      Take(Stop(me));
    }

    /** A write that fails: nothing is stored. */
    method Refuse(me: nat, pc: Pc)
      requires Ready(me, pc) && Writes(pc)
      modifies `agents, `log
      ensures Ready(me, Refused(pc)) && log == old(log) + [Write(me, false)]
    {
      hide Enrolled, After;
      Logged(config, start, log, View(), Write(me, false));
      agents := agents[me := Refused(pc)];
      log := log + [Write(me, false)];
    }

    /** `scheduleOperationCheck` */
    method ScheduleCheck(me: nat, s: Snap, op: Option<nat>, fixed: bool, inCatch: bool) returns (end: End<()>)
      requires Ready(me, Check(s, op, fixed, inCatch))
      modifies `now, `row, `due, `early, `ops, `sent, `agents, `log, `script
      ensures Valid() && old(log) <= log && Onward(old(row), row)
      ensures end.Returned? ==> Ready(me, Over)
      ensures end.Threw? ==> Ready(me, Refused(Check(s, op, fixed, inCatch)))
      ensures end.Cut? ==> me !in agents
      ensures end.Returned? ==> Parked(row, now, s.step)
      ensures end.Returned? && row.status.Active? && row.step == s.step ==>
        row.op == op && row.nextAt == Some(now + if fixed then TRANSIENT_RETRY_MS else CheckDelay(s.checks + 1))
      ensures Smooth(old(script)) ==> end.Returned?
      ensures old(script) == [] ==> end.Returned? && row.status == old(row).status && row.step == old(row).step
    {
      hide Enrolled, After, Enabled, CheckDelay, Smooth;
      var turn := Elsewhere(me, Check(s, op, fixed, inCatch));
      if !turn.alive { return Cut; }
      if !turn.ok {
        Refuse(me, Check(s, op, fixed, inCatch));
        return Threw;
      }
      StoreCheck(me, s, op, fixed, inCatch);
      return Returned(());
    }

    method StoreCheck(me: nat, s: Snap, op: Option<nat>, fixed: bool, inCatch: bool)
      requires Ready(me, Check(s, op, fixed, inCatch))
      modifies `row, `agents, `log
      ensures Ready(me, Over) && log == old(log) + [Write(me, true)] && Onward(old(row), row)
      ensures row.status.Active? && row.step == s.step ==>
        row.op == op && row.nextAt == Some(now + if fixed then TRANSIENT_RETRY_MS else CheckDelay(s.checks + 1))
      ensures Parked(row, now, s.step) && row.status == old(row).status && row.step == old(row).step
    {
      hide Enrolled, After, CheckDelay;
      CheckDelayBounds(s.checks + 1, s.checks + 1);
      Logged(config, start, log, View(), Write(me, true));
      if row.status.Active? && row.step == s.step {
        var delay := if fixed then TRANSIENT_RETRY_MS else CheckDelay(s.checks + 1);
        row := row.(op := op, checks := s.checks + 1, nextAt := Some(now + delay));
      }
      agents := agents[me := Over];
      log := log + [Write(me, true)];
    }

    /** A processor never works from a row newer than the one stored. */
    lemma Behind(me: nat)
      requires Valid() && me in agents && !agents[me].Over?
      ensures agents[me].s.step <= row.step
    {
      hide Enrolled, RowOk, OpsOk, SentOk, PassedOk, Sendable;
      EnrolledKeeps(config, start);
      HistoryKeeps(config, start, log);
      assert AgentOk(config, row.step, ops, agents[me]);
    }

    /** `failEnrollment` */
    method FailEnrollment(me: nat, s: Snap, op: Option<nat>, inCatch: bool) returns (end: End<()>)
      requires Ready(me, Fail(s, op, inCatch))
      modifies `now, `row, `due, `early, `ops, `sent, `agents, `log, `script
      ensures Valid() && old(log) <= log && Onward(old(row), row)
      ensures end.Returned? ==> Ready(me, Over) && Settled(row, s.step)
      ensures end.Threw? ==> Ready(me, Refused(Fail(s, op, inCatch)))
      ensures end.Cut? ==> me !in agents
      ensures Smooth(old(script)) ==> end.Returned?
      ensures old(script) == [] ==> end.Returned? && (At(old(row), s) ==> row.step == s.step && row.status.Failed?)
    {
      hide Enrolled, After, Enabled, Smooth;
      var turn := Elsewhere(me, Fail(s, op, inCatch));
      if !turn.alive { return Cut; }
      if !turn.ok {
        Refuse(me, Fail(s, op, inCatch));
        return Threw;
      }
      StoreFailure(me, s, op, inCatch);
      return Returned(());
    }

    method StoreFailure(me: nat, s: Snap, op: Option<nat>, inCatch: bool)
      requires Ready(me, Fail(s, op, inCatch))
      modifies `row, `agents, `log
      ensures Ready(me, Over) && log == old(log) + [Write(me, true)] && Onward(old(row), row) && Settled(row, s.step)
      ensures row == if At(old(row), s) then old(row).(status := Failed, op := op, nextAt := None) else old(row)
    {
      hide Enrolled, After;
      Logged(config, start, log, View(), Write(me, true));
      Behind(me);
      if row.status.Active? && row.step == s.step {
        row := row.(status := Failed, op := op, nextAt := None);
      }
      agents := agents[me := Over];
      log := log + [Write(me, true)];
    }

    /** `completeEnrollment` */
    method CompleteEnrollment(me: nat, s: Snap) returns (end: End<()>)
      requires Ready(me, Complete(s))
      modifies `now, `row, `due, `early, `ops, `sent, `agents, `log, `script
      ensures Valid() && old(log) <= log && Onward(old(row), row)
      ensures end.Returned? ==> Ready(me, Over) && Settled(row, s.step)
      ensures end.Threw? ==> Ready(me, Catch(s))
      ensures end.Cut? ==> me !in agents
      ensures Smooth(old(script)) ==> end.Returned?
      ensures old(script) == [] ==> end.Returned? && (At(old(row), s) ==> row.status.Completed?)
    {
      hide Enrolled, After, Enabled, Smooth;
      var turn := Elsewhere(me, Complete(s));
      if !turn.alive { return Cut; }
      if !turn.ok {
        Refuse(me, Complete(s));
        return Threw;
      }
      StoreCompletion(me, s);
      return Returned(());
    }

    method StoreCompletion(me: nat, s: Snap)
      requires Ready(me, Complete(s))
      modifies `row, `agents, `log
      ensures Ready(me, Over) && log == old(log) + [Write(me, true)] && Onward(old(row), row) && Settled(row, s.step)
      ensures row == if At(old(row), s) then old(row).(status := Completed, op := None, checks := 0, nextAt := None) else old(row)
    {
      hide Enrolled, After;
      Logged(config, start, log, View(), Write(me, true));
      Behind(me);
      if row.status.Active? && row.step == s.step {
        row := row.(status := Completed, op := None, checks := 0, nextAt := None);
      }
      agents := agents[me := Over];
      log := log + [Write(me, true)];
    }

    /** `advanceEnrollment` */
    method AdvanceEnrollment(me: nat, s: Snap) returns (end: End<()>)
      requires Ready(me, Advance(s))
      modifies `now, `row, `due, `early, `ops, `sent, `agents, `log, `script
      ensures Valid() && old(log) <= log && Onward(old(row), row)
      ensures end.Returned? ==> Ready(me, Over) && Settled(row, s.step)
      ensures end.Threw? ==> Ready(me, Catch(s))
      ensures end.Cut? ==> me !in agents
      ensures Smooth(old(script)) ==> end.Returned?
      ensures old(script) == [] ==> end.Returned? && (At(old(row), s) ==> row.step == s.step + 1 && !row.status.Failed?)
    {
      hide Enrolled, After, Enabled, Smooth;
      var turn := Elsewhere(me, Advance(s));
      if !turn.alive { return Cut; }
      if !turn.ok {
        Refuse(me, Advance(s));
        return Threw;
      }
      StoreAdvance(me, s);
      return Returned(());
    }

    method StoreAdvance(me: nat, s: Snap)
      requires Ready(me, Advance(s))
      modifies `row, `due, `early, `agents, `log
      ensures Ready(me, Over) && log == old(log) + [Write(me, true)] && Onward(old(row), row) && Settled(row, s.step)
      ensures !At(old(row), s) ==> row == old(row)
      ensures At(old(row), s) ==> row.step == s.step + 1 && row.op.None? && row.checks == 0
      ensures At(old(row), s) ==> (row.status == if s.step + 1 < |config.steps| then Active else Completed)
      ensures At(old(row), s) && s.step + 1 < |config.steps| ==> var next := config.steps[s.step + 1];
        row.nextAt == Some(if next.Wait? then now + next.minutes * 60000 else now)
    {
      hide Enrolled, After;
      Logged(config, start, log, View(), Write(me, true));
      Behind(me);
      if row.status.Active? && row.step == s.step {
        early := early || now < due;
        var next := s.step + 1;
        if next >= |config.steps| {
          row := Row(Completed, next, None, 0, None);
          due := now;
        } else {
          var step := config.steps[next];
          var nextAt := if step.Wait? && step.minutes != 0 then now + step.minutes * 60 * 1000 else now;
          row := Row(Active, next, None, 0, Some(nextAt));
          due := nextAt;
        }
      }
      agents := agents[me := Over];
      log := log + [Write(me, true)];
    }

    /** The writes of a sequence that is gone or paused, and of the outer catch; their errors are not looked at. */
    method StoreRest(me: nat, pc: Pc)
      requires Ready(me, pc) && (pc.Cancel? || pc.Pause? || pc.Catch?)
      modifies `row, `agents, `log
      ensures Ready(me, Over) && log == old(log) + [Write(me, true)] && Onward(old(row), row)
      ensures pc.Cancel? ==> !row.status.Active?
      ensures pc.Pause? && row.status.Active? ==> row.nextAt == Some(now + PAUSE_MS)
      ensures pc.Catch? ==> row == if At(old(row), pc.s) then old(row).(nextAt := Some(now + TRANSIENT_RETRY_MS)) else old(row)
    {
      hide Enrolled, After;
      Logged(config, start, log, View(), Write(me, true));
      if pc.Cancel? && row.status.Active? {
        row := row.(status := Cancelled, nextAt := None, op := None, checks := 0);
      } else if pc.Pause? && row.status.Active? {
        row := row.(nextAt := Some(now + PAUSE_MS));
      } else if pc.Catch? && row.status.Active? && row.step == pc.s.step {
        row := row.(nextAt := Some(now + TRANSIENT_RETRY_MS));
      }
      agents := agents[me := Over];
      log := log + [Write(me, true)];
    }

    method StoreOperation(me: nat, s: Snap, op: nat, status: OpStatus)
      requires Ready(me, Persist(s, op, status))
      modifies `row, `agents, `log
      ensures Ready(me, React(s, op, status)) && log == old(log) + [Write(me, true)] && Onward(old(row), row)
      ensures row == if At(old(row), s) then old(row).(op := Some(op), checks := 0) else old(row)
    {
      hide Enrolled, After;
      Logged(config, start, log, View(), Write(me, true));
      if row.status.Active? && row.step == s.step {
        row := row.(op := Some(op), checks := 0);
      }
      agents := agents[me := React(s, op, status)];
      log := log + [Write(me, true)];
    }

    /** `replyToConversation` with the key of this enrollment and step */
    method PostReply(me: nat, s: Snap, reply: Reply) returns (op: Option<(nat, OpStatus)>)
      requires Ready(me, Post(s))
      modifies `ops, `agents, `log
      ensures log == old(log) + [Call(me, reply)]
      ensures op.Some? <==> reply.Answers?
      ensures op.Some? ==> op.value.0 < |ops| && ops[op.value.0] == Op(s.step, op.value.1)
      ensures op.Some? ==> op.value.1 == StatusFor(old(ops), s.step)
      ensures reply.Answers? ==> if Find(old(ops), s.step) < |old(ops)| then ops == old(ops) else ops == old(ops) + [Op(s.step, Pending)]
      ensures Ready(me, if op.Some? then Persist(s, op.value.0, op.value.1) else Thrown(s, None, reply.retryable))
    {
      hide Enrolled, After, Find;
      Logged(config, start, log, View(), Call(me, reply));
      PostedIsFound(ops, s.step);
      if reply.Answers? || reply.applied {
        ops := Posted(ops, s.step);
      }
      if reply.Answers? {
        op := Some((Find(ops, s.step), ops[Find(ops, s.step)].status));
        agents := agents[me := Persist(s, op.value.0, op.value.1)];
      } else {
        op := None;
        agents := agents[me := Thrown(s, None, reply.retryable)];
      }
      log := log + [Call(me, reply)];
    }

    /** `getOperation` */
    method GetOperation(me: nat, s: Snap, op: nat, reply: Reply) returns (status: Option<OpStatus>)
      requires Ready(me, Get(s, op))
      modifies `agents, `log
      ensures log == old(log) + [Call(me, reply)]
      ensures status.Some? <==> reply.Answers?
      ensures op < |ops| && (status.Some? ==> status.value == ops[op].status)
      ensures Ready(me, if status.Some? then React(s, op, status.value) else Thrown(s, Some(op), reply.retryable))
    {
      hide Enrolled, After;
      KnownOp(me);
      Logged(config, start, log, View(), Call(me, reply));
      status := if reply.Answers? then Some(ops[op].status) else None;
      agents := agents[me := if status.Some? then React(s, op, status.value) else Thrown(s, Some(op), reply.retryable)];
      log := log + [Call(me, reply)];
    }

    /** `retryOperation` keeps the operation */
    method RetryOperation(me: nat, s: Snap, op: nat, reply: Reply) returns (retried: bool)
      requires Ready(me, DripProtocol.Retry(s, op))
      modifies `ops, `agents, `log
      ensures log == old(log) + [Call(me, reply)]
      ensures retried <==> reply.Answers?
      ensures |ops| == |old(ops)| && op < |ops| && (retried && old(ops)[op].status.OpFailed? ==> ops[op].status.Pending?)
      ensures Ready(me, if retried then Check(s, Some(op), false, false) else Thrown(s, Some(op), reply.retryable))
    {
      hide Enrolled, After;
      KnownOp(me);
      Logged(config, start, log, View(), Call(me, reply));
      if reply.Answers? || reply.applied {
        ops := Retried(ops, op);
      }
      retried := reply.Answers?;
      agents := agents[me := if retried then Check(s, Some(op), false, false) else Thrown(s, Some(op), reply.retryable)];
      log := log + [Call(me, reply)];
    }

    /** The operation a processor holds is one the gateway has. */
    lemma KnownOp(me: nat)
      requires Valid() && me in agents && (agents[me].Get? || agents[me].Retry?)
      ensures agents[me].op < |ops|
    {
      hide Enrolled, RowOk, OpsOk, SentOk, PassedOk, Sendable;
      EnrolledKeeps(config, start);
      HistoryKeeps(config, start, log);
      assert AgentOk(config, row.step, ops, agents[me]);
    }

    /** The catch block: look again later if the gateway says so, give up otherwise. */
    method Recover(me: nat, s: Snap, op: Option<nat>, retryable: bool) returns (end: End<Result>)
      requires Ready(me, Thrown(s, op, retryable))
      modifies `now, `row, `due, `early, `ops, `sent, `agents, `log, `script
      ensures Valid() && old(log) <= log && Onward(old(row), row)
      ensures end.Returned? ==> Ready(me, Over) && HoldsOf(end.value, row, now, s.step)
      ensures end.Threw? ==> Ready(me, Catch(s))
      ensures end.Cut? ==> me !in agents
      ensures end.Returned? ==> end.value == if retryable then Waiting else GaveUp
      ensures Smooth(old(script)) ==> end.Returned?
      ensures old(script) == [] && At(old(row), s) ==> end.Returned? && row.step == s.step && row.status.Failed? == !retryable
    {
      hide Enrolled, After, Enabled, Smooth;
      var part: End<()>;
      if retryable {
        part := ScheduleCheck(me, s, op, true, true);
        end := if part.Returned? then Returned(Waiting) else if part.Threw? then Threw else Cut;
      } else {
        part := FailEnrollment(me, s, op, true);
        end := if part.Returned? then Returned(GaveUp) else if part.Threw? then Threw else Cut;
      }
    }

    /** `scheduleOperationCheck` inside the try block */
    method CheckLater(me: nat, s: Snap, op: nat) returns (end: End<Result>)
      requires Ready(me, Check(s, Some(op), false, false))
      modifies `now, `row, `due, `early, `ops, `sent, `agents, `log, `script
      ensures Valid() && old(log) <= log && Onward(old(row), row)
      ensures end.Returned? ==> Ready(me, Over) && HoldsOf(end.value, row, now, s.step)
      ensures end.Threw? ==> Ready(me, Catch(s))
      ensures end.Cut? ==> me !in agents
      ensures Smooth(old(script)) ==> end == Returned(Waiting)
      ensures old(script) == [] ==> end == Returned(Waiting) && row.status == old(row).status && row.step == old(row).step
    {
      hide Enrolled, After, Enabled, Smooth;
      var part := ScheduleCheck(me, s, Some(op), false, false);
      if part.Threw? {
        end := Recover(me, s, Some(op), false);
      } else {
        end := if part.Returned? then Returned(Waiting) else Cut;
      }
    }

    /** `failEnrollment` inside the try block */
    method GiveUp(me: nat, s: Snap, op: Option<nat>) returns (end: End<Result>)
      requires Ready(me, Fail(s, op, false))
      modifies `now, `row, `due, `early, `ops, `sent, `agents, `log, `script
      ensures Valid() && old(log) <= log && Onward(old(row), row)
      ensures end.Returned? ==> Ready(me, Over) && HoldsOf(end.value, row, now, s.step)
      ensures end.Threw? ==> Ready(me, Catch(s))
      ensures end.Cut? ==> me !in agents
      ensures Smooth(old(script)) ==> end == Returned(GaveUp)
      ensures old(script) == [] ==> end == Returned(GaveUp) && (At(old(row), s) ==> row.step == s.step && row.status.Failed?)
    {
      hide Enrolled, After, Enabled, Smooth;
      var part := FailEnrollment(me, s, op, false);
      if part.Threw? {
        end := Recover(me, s, op, false);
      } else {
        end := if part.Returned? then Returned(GaveUp) else Cut;
      }
    }

    method TryAgain(me: nat, s: Snap, op: nat) returns (end: End<Result>)
      requires Ready(me, DripProtocol.Retry(s, op))
      modifies `now, `row, `due, `early, `ops, `sent, `agents, `log, `script
      ensures Valid() && old(log) <= log && Onward(old(row), row)
      ensures end.Returned? ==> Ready(me, Over) && HoldsOf(end.value, row, now, s.step)
      ensures end.Threw? ==> Ready(me, Catch(s))
      ensures end.Cut? ==> me !in agents
      ensures Smooth(old(script)) ==> end == Returned(Waiting)
      ensures old(script) == [] ==> end == Returned(Waiting) && row.status == old(row).status && row.step == old(row).step
    {
      hide Enrolled, After, Enabled, Smooth;
      var turn := Elsewhere(me, DripProtocol.Retry(s, op));
      if !turn.alive { return Cut; }
      var retried := RetryOperation(me, s, op, turn.reply);
      if retried {
        end := CheckLater(me, s, op);
      } else {
        end := Recover(me, s, Some(op), turn.reply.retryable);
      }
    }

    /** The end of the try block: nothing to return when the message has been delivered. */
    method Conclude(me: nat, s: Snap, op: nat, status: OpStatus) returns (end: End<Option<Result>>)
      requires Ready(me, React(s, op, status))
      modifies `now, `row, `due, `early, `ops, `sent, `agents, `log, `script
      ensures Valid() && old(log) <= log && Onward(old(row), row) && Concluded(me, s, end)
      ensures end.Returned? && end.value.None? ==> status.Succeeded?
      ensures Smooth(old(script)) ==>
        && (status.Succeeded? <==> end == Returned(None))
        && (status.Pending? || status.Running? || status == OpFailed(true) <==> end == Returned(Some(Waiting)))
        && (status == OpFailed(false) || status.Unknown? <==> end == Returned(Some(GaveUp)))
      ensures old(script) == [] && At(old(row), s) ==> Kept(s, end)
      ensures old(script) == [] ==> Follows(status, end)
      ensures end == Returned(None) ==> script == old(script) && View() == old(View())
    {
      hide Enrolled, After, Enabled, Smooth;
      var result: End<Result>;
      match status {
        case Succeeded =>
          return Returned(None);
        case Pending | Running =>
          result := CheckLater(me, s, op);
        case OpFailed(true) =>
          result := TryAgain(me, s, op);
        case OpFailed(false) | Unknown =>
          result := GiveUp(me, s, Some(op));
      }
      end := Wrapped(result);
    }

    function Wrapped(result: End<Result>): End<Option<Result>> {
      match result
      case Returned(value) => Returned(Some(value))
      case Threw => Threw
      case Cut => Cut
    }

    /** How a message step ends that the gateway answers and nobody disturbs. */
    predicate Follows(status: OpStatus, end: End<Option<Result>>) {
      end == Returned(if status.Succeeded? then None else Some(if Lost(status) then GaveUp else Waiting))
    }

    /** The row still stands at the step, and is written off exactly when the answer says so. */
    predicate Kept(s: Snap, end: End<Option<Result>>)
      reads `row
    {
      row.step == s.step && if end == Returned(Some(GaveUp)) then row.status.Failed? else row.status.Active?
    }

    /** The row has moved on, is written off or stands where it stood, as the answer says. */
    predicate Placed(s: Snap, end: End<Result>)
      reads `row
    {
      if end == Returned(Moved) then row.step == s.step + 1 && !row.status.Failed?
      else row.step == s.step && if end == Returned(GaveUp) then row.status.Failed? else row.status.Active?
    }

    /** How settling a message step may end. */
    ghost predicate Concluded(me: nat, s: Snap, end: End<Option<Result>>)
      reads `now, `row, `due, `early, `ops, `sent, `agents, `log
    {
      match end
      case Returned(None) => Ready(me, Advance(s))
      case Returned(Some(result)) => Ready(me, Over) && HoldsOf(result, row, now, s.step)
      case Threw => Ready(me, Catch(s))
      case Cut => Valid() && me !in agents
    }

    /** `settleMessageStep` from a row without an operation; the conversation may be missing. */
    method SettleNew(me: nat, s: Snap, configured: bool, projected: bool) returns (end: End<Option<Result>>)
      requires Ready(me, Post(s))
      modifies `now, `row, `due, `early, `ops, `sent, `agents, `log, `script
      ensures Valid() && old(log) <= log && Onward(old(row), row) && Concluded(me, s, end)
      ensures Smooth(old(script)) && !configured ==> end == Threw
      ensures Smooth(old(script)) && configured && !projected ==> end == Returned(Some(GaveUp))
      ensures Smooth(old(script)) && configured ==> end.Returned?
      ensures old(script) == [] && configured && projected ==> Follows(StatusFor(old(ops), s.step), end)
      ensures old(script) == [] && At(old(row), s) ==> Kept(s, end)
      ensures old(script) == [] && end == Returned(None) ==> script == []
      ensures Smooth(old(script)) && end == Returned(None) ==> Smooth(script)
    {
      hide Enrolled, After, Enabled, Smooth, Follows, StatusFor;
      var turn := Elsewhere(me, Post(s));
      if !turn.alive { return Cut; }
      if !configured {
        Leave(me, NoGateway(me), Catch(s));
        return Threw;
      }
      var result: End<Result>;
      if !projected {
        Leave(me, NoConversation(me), Fail(s, None, false));
        result := GiveUp(me, s, None);
        return Wrapped(result);
      }
      end := PostAndConclude(me, s, turn.reply);
    }

    method PostAndConclude(me: nat, s: Snap, reply: Reply) returns (end: End<Option<Result>>)
      requires Ready(me, Post(s))
      modifies `now, `row, `due, `early, `ops, `sent, `agents, `log, `script
      ensures Valid() && old(log) <= log && Onward(old(row), row) && Concluded(me, s, end)
      ensures reply.Throws? && end.Returned? ==> end.value == Some(if reply.retryable then Waiting else GaveUp)
      ensures reply.Answers? && Smooth(old(script)) ==> end.Returned?
      ensures reply.Answers? && old(script) == [] ==> Follows(StatusFor(old(ops), s.step), end)
      ensures reply.Answers? && old(script) == [] && At(old(row), s) ==> Kept(s, end)
      ensures old(script) == [] && end == Returned(None) ==> script == []
      ensures Smooth(old(script)) && end == Returned(None) ==> Smooth(script)
    {
      hide Enrolled, After, Enabled, Smooth, Follows, StatusFor;
      var answer := PostReply(me, s, reply);
      if answer.None? {
        var result := Recover(me, s, None, reply.retryable);
        return Wrapped(result);
      }
      end := PersistAndConclude(me, s, answer.value.0, answer.value.1);
    }

    method Leave(me: nat, e: Event, pc: Pc)
      requires Valid() && me in agents && (e == NoGateway(me) || e == NoConversation(me))
      requires agents[me].Post? || (e.NoGateway? && agents[me].Get?)
      requires pc == if e.NoGateway? then Catch(agents[me].s) else Fail(agents[me].s, None, false)
      modifies `agents, `log
      ensures Ready(me, pc) && log == old(log) + [e]
    {
      hide Enrolled, After;
      Logged(config, start, log, View(), e);
      agents := agents[me := pc];
      log := log + [e];
    }

    method PersistAndConclude(me: nat, s: Snap, op: nat, status: OpStatus) returns (end: End<Option<Result>>)
      requires Ready(me, Persist(s, op, status))
      modifies `now, `row, `due, `early, `ops, `sent, `agents, `log, `script
      ensures Valid() && old(log) <= log && Onward(old(row), row) && Concluded(me, s, end)
      ensures Smooth(old(script)) ==> end.Returned?
      ensures old(script) == [] ==> Follows(status, end)
      ensures old(script) == [] && At(old(row), s) ==> Kept(s, end)
      ensures old(script) == [] && end == Returned(None) ==> script == []
      ensures Smooth(old(script)) && end == Returned(None) ==> Smooth(script)
    {
      hide Enrolled, After, Enabled, Smooth, Follows;
      var turn := Elsewhere(me, Persist(s, op, status));
      if !turn.alive { return Cut; }
      if !turn.ok {
        Refuse(me, Persist(s, op, status));
        var result := Recover(me, s, Some(op), false);
        return Wrapped(result);
      }
      StoreOperation(me, s, op, status);
      end := Conclude(me, s, op, status);
    }

    /** `settleMessageStep` from a row that has its operation */
    method SettleKnown(me: nat, s: Snap, op: nat, configured: bool) returns (end: End<Option<Result>>)
      requires Ready(me, Get(s, op))
      modifies `now, `row, `due, `early, `ops, `sent, `agents, `log, `script
      ensures Valid() && old(log) <= log && Onward(old(row), row) && Concluded(me, s, end)
      ensures Smooth(old(script)) ==> if configured then end.Returned? else end == Threw
      ensures old(script) == [] && configured ==> op < |old(ops)| && Follows(old(ops)[op].status, end)
      ensures old(script) == [] && At(old(row), s) ==> Kept(s, end)
      ensures old(script) == [] && end == Returned(None) ==> script == []
      ensures Smooth(old(script)) && end == Returned(None) ==> Smooth(script)
    {
      hide Enrolled, After, Enabled, Smooth, Follows;
      var turn := Elsewhere(me, Get(s, op));
      if !turn.alive { return Cut; }
      if !configured {
        Leave(me, NoGateway(me), Catch(s));
        return Threw;
      }
      var status := GetOperation(me, s, op, turn.reply);
      if status.None? {
        var result := Recover(me, s, Some(op), turn.reply.retryable);
        return Wrapped(result);
      }
      end := Conclude(me, s, op, status.value);
    }

    /**
     * `processEnrollment`: when it answers "advanced" or "failed", the row no longer stands at the step it was read at;
     * when it answers "waiting" for a live sequence, the row is not due.
     */
    method Process(me: nat, s: Snap, configured: bool, projected: bool) returns (end: End<Result>)
      requires Ready(me, Plan(config, s, sequence))
      modifies `now, `row, `due, `early, `ops, `sent, `agents, `log, `script
      ensures Valid() && old(log) <= log && Onward(old(row), row)
      ensures end.Returned? ==> Ready(me, Over) && (end.value.Moved? || end.value.GaveUp? ==> Settled(row, s.step))
      ensures end.Returned? && end.value.Waiting? && sequence.Live? ==> Parked(row, now, s.step)
      ensures end.Returned? ==> (end.value.Dropped? <==> sequence.Gone?)
      ensures end.Threw? ==> Ready(me, Catch(s))
      ensures end.Cut? ==> me !in agents
      ensures Smooth(old(script)) ==> end.Returned? || (end.Threw? && !configured)
      ensures Smooth(old(script)) && sequence.Gone? ==> !row.status.Active?
      ensures Smooth(old(script)) && sequence.Paused? && row.status.Active? ==> row.nextAt == Some(now + PAUSE_MS)
      ensures Smooth(old(script)) && sequence.Live? && !(s.step < |config.steps| && config.steps[s.step].Message?) ==>
        end == Returned(Moved)
      ensures old(script) == [] && sequence.Live? && s.step < |config.steps| && config.steps[s.step].Message? ==>
        Told(s, old(ops), configured, projected, end)
      ensures old(script) == [] && sequence.Live? && At(old(row), s) && s.step < |config.steps| ==> Placed(s, end)
    {
      hide Enrolled, After, Enabled, Smooth, StatusFor;
      if !sequence.Live? {
        end := Dismiss(me, s);
        return;
      }
      var part: End<()>;
      if s.step >= |config.steps| {
        part := CompleteEnrollment(me, s);
        return if part.Returned? then Returned(Moved) else if part.Threw? then Threw else Cut;
      }
      if config.steps[s.step].Message? {
        end := ProcessMessage(me, s, configured, projected);
        return;
      }
      part := AdvanceEnrollment(me, s);
      return if part.Returned? then Returned(Moved) else if part.Threw? then Threw else Cut;
    }

    /** How processing ends for each answer of the gateway, when nobody disturbs it. */
    predicate Answered(status: OpStatus, end: End<Result>) {
      && (status.Succeeded? <==> end == Returned(Moved))
      && (status.Pending? || status.Running? || status == OpFailed(true) <==> end == Returned(Waiting))
      && (status == OpFailed(false) || status.Unknown? <==> end == Returned(GaveUp))
    }

    /** How a message step ends that nobody disturbs. */
    predicate Told(s: Snap, ops: seq<Op>, configured: bool, projected: bool, end: End<Result>)
      requires s.step < |config.steps|
    {
      if !Sendable(config.steps[s.step]) || (configured && s.op.None? && !projected) then end == Returned(GaveUp)
      else if !configured then end.Threw?
      else Answered(if s.op.Some? && s.op.value < |ops| then ops[s.op.value].status else StatusFor(ops, s.step), end)
    }

    /** A message step: what the gateway says decides whether the enrollment moves on, waits or is given up. */
    method ProcessMessage(me: nat, s: Snap, configured: bool, projected: bool) returns (end: End<Result>)
      requires Ready(me, Plan(config, s, sequence)) && sequence.Live? && s.step < |config.steps| && config.steps[s.step].Message?
      modifies `now, `row, `due, `early, `ops, `sent, `agents, `log, `script
      ensures Valid() && old(log) <= log && Onward(old(row), row)
      ensures end.Returned? ==> Ready(me, Over) && (end.value.Moved? || end.value.GaveUp? ==> Settled(row, s.step))
      ensures end.Returned? && end.value.Waiting? ==> Parked(row, now, s.step)
      ensures end.Returned? ==> !end.value.Dropped?
      ensures end.Threw? ==> Ready(me, Catch(s))
      ensures end.Cut? ==> me !in agents
      ensures Smooth(old(script)) ==> end.Returned? || (end.Threw? && !configured)
      ensures Smooth(old(script)) && !(1 <= |config.steps[s.step].text| <= MAX_TEXT) ==> end == Returned(GaveUp)
      ensures Smooth(old(script)) && Sendable(config.steps[s.step]) && configured && s.op.None? && !projected ==> end == Returned(GaveUp)
      ensures old(script) == [] ==> Told(s, old(ops), configured, projected, end)
      ensures old(script) == [] && At(old(row), s) ==> Placed(s, end)
    {
      hide Enrolled, After, Enabled, Smooth, StatusFor;
      NothingIsSmooth();
      var part: End<()>;
      if !Sendable(config.steps[s.step]) {
        part := FailEnrollment(me, s, s.op, true);
        return if part.Returned? then Returned(GaveUp) else if part.Threw? then Threw else Cut;
      }
      var outcome: End<Option<Result>>;
      if s.op.Some? {
        outcome := SettleKnown(me, s, s.op.value, configured);
      } else {
        outcome := SettleNew(me, s, configured, projected);
      }
      if outcome != Returned(None) {
        return if outcome.Returned? then Returned(outcome.value.value) else if outcome.Threw? then Threw else Cut;
      }
      part := AdvanceEnrollment(me, s);
      return if part.Returned? then Returned(Moved) else if part.Threw? then Threw else Cut;
    }

    /** The outer catch: the wake-up time moves, if the row still stands at the step, and nothing else. */
    method CatchError(me: nat, s: Snap) returns (alive: bool)
      requires Ready(me, Catch(s))
      modifies `now, `row, `due, `early, `ops, `sent, `agents, `log, `script
      ensures Valid() && old(log) <= log && Onward(old(row), row)
      ensures if alive then Ready(me, Over) else me !in agents
      ensures Smooth(old(script)) ==> alive && (At(row, s) ==> row.nextAt == Some(now + TRANSIENT_RETRY_MS))
      ensures old(script) == [] ==> row == if At(old(row), s) then old(row).(nextAt := Some(now + TRANSIENT_RETRY_MS)) else old(row)
    {
      hide Enrolled, After, Enabled;
      var turn := Elsewhere(me, Catch(s));
      alive := turn.alive;
      if alive && turn.ok {
        StoreRest(me, Catch(s));
      } else if alive {
        Refuse(me, Catch(s));
      }
    }

    /** The sequence is gone or paused. */
    method Dismiss(me: nat, s: Snap) returns (end: End<Result>)
      requires !sequence.Live? && Ready(me, Plan(config, s, sequence))
      modifies `now, `row, `due, `early, `ops, `sent, `agents, `log, `script
      ensures Valid() && old(log) <= log && Onward(old(row), row)
      ensures end.Returned? ==> Ready(me, Over) && (end.value.Moved? || end.value.GaveUp? ==> Settled(row, s.step))
      ensures end.Returned? || end.Cut?
      ensures end.Returned? ==> end.value == if sequence.Gone? then Dropped else Waiting
      ensures end.Cut? ==> me !in agents
      ensures Smooth(old(script)) ==> end.Returned?
      ensures Smooth(old(script)) && sequence.Gone? ==> !row.status.Active?
      ensures Smooth(old(script)) && sequence.Paused? && row.status.Active? ==> row.nextAt == Some(now + PAUSE_MS)
    {
      hide Enrolled, After, Enabled, Smooth;
      var pc := if sequence.Gone? then Cancel(s) else Pause(s);
      var turn := Elsewhere(me, pc);
      if !turn.alive { return Cut; }
      if turn.ok {
        StoreRest(me, pc);
      } else {
        Refuse(me, pc);
      }
      return Returned(if sequence.Gone? then Dropped else Waiting);
    }
  }

  const BATCH := 50

  function SnapOf(row: Row): Snap {
    Snap(row.step, row.op, row.checks)
  }

  ghost predicate Distinct(all: seq<Enrollment>) {
    forall i, j :: 0 <= i < j < |all| ==> all[i] != all[j]
  }

  ghost predicate AllValid(all: seq<Enrollment>)
    reads all
  {
    forall i :: 0 <= i < |all| ==> all[i].Valid()
  }

  /** Processor `me` has read these rows and not worked on them yet. */
  ghost predicate Fetched(me: nat, due: seq<Enrollment>, snaps: seq<Snap>, from: nat)
    reads due
  {
    |snaps| == |due| && forall i :: from <= i < |due| ==> due[i].Ready(me, Plan(due[i].config, snaps[i], due[i].sequence))
  }

  predicate IsDue(row: Row, now: int) {
    row.status.Active? && row.nextAt.Some? && row.nextAt.value <= now
  }

  /** The query for due rows: at most fifty of them, each active and past its wake-up time. */
  method FetchDue(all: seq<Enrollment>, me: nat) returns (due: seq<Enrollment>, snaps: seq<Snap>)
    requires Distinct(all) && AllValid(all) && forall i :: 0 <= i < |all| ==> me !in all[i].agents
    modifies all
    ensures AllValid(all) && Distinct(due) && (forall e :: e in due ==> e in all)
    ensures |due| <= BATCH && Fetched(me, due, snaps, 0)
    ensures forall i :: 0 <= i < |all| ==> all[i].row == old(all[i].row)
    ensures forall i :: 0 <= i < |due| ==> snaps[i] == SnapOf(due[i].row) && IsDue(due[i].row, due[i].now)
    ensures |due| < BATCH ==> forall i :: 0 <= i < |all| && IsDue(all[i].row, all[i].now) ==> all[i] in due
  {
    hide Enrolled, After, Plan, Enabled, Apply, Onward, IsDue;
    due, snaps := [], [];
    for n := 0 to |all|
      invariant AllValid(all) && Distinct(due) && (forall e :: e in due ==> e in all[..n])
      invariant |due| <= BATCH && Fetched(me, due, snaps, 0)
      invariant forall i :: 0 <= i < |all| ==> all[i].row == old(all[i].row) && (n <= i ==> me !in all[i].agents)
      invariant forall i :: 0 <= i < |due| ==> snaps[i] == SnapOf(due[i].row) && IsDue(due[i].row, due[i].now)
      invariant |due| < BATCH ==> forall i :: 0 <= i < n && IsDue(all[i].row, all[i].now) ==> all[i] in due
    {
      var e := all[n];
      assert e !in all[..n];
      if |due| < BATCH && IsDue(e.row, e.now) {
        var s := e.Read(me);
        due, snaps := due + [e], snaps + [s];
      }
    }
  }

  /** How many rows moved on or were dropped, wait, and were given up or threw. */
  datatype Tally = Tally(processed: nat, waiting: nat, failed: nat)

  function TallyOf(ends: seq<End<Result>>): Tally {
    if ends == [] then Tally(0, 0, 0)
    else
      var t := TallyOf(ends[..|ends| - 1]);
      match ends[|ends| - 1]
      case Returned(Waiting) => t.(waiting := t.waiting + 1)
      case Returned(Moved) | Returned(Dropped) => t.(processed := t.processed + 1)
      case Returned(GaveUp) | Threw => t.(failed := t.failed + 1)
      case Cut => t
  }

  lemma OneMore(ends: seq<End<Result>>, end: End<Result>)
    ensures var t, u := TallyOf(ends), TallyOf(ends + [end]);
      && u.waiting == t.waiting + (if end == Returned(Waiting) then 1 else 0)
      && u.failed == t.failed + (if end == Returned(GaveUp) || end.Threw? then 1 else 0)
      && u.processed == t.processed + (if end == Returned(Moved) || end == Returned(Dropped) then 1 else 0)
  {
    assert (ends + [end])[..|ends|] == ends;
  }

  lemma NoEnds()
    ensures TallyOf([]) == Tally(0, 0, 0)
  {
  }

  /** `processSequenceSteps`: every fetched row is counted once, by the way it ended. */
  method ProcessDue(all: seq<Enrollment>, me: nat, configured: bool, projected: bool)
    returns (processed: nat, waiting: nat, failed: nat, total: nat, cut: bool, ghost ends: seq<End<Result>>)
    requires Distinct(all) && AllValid(all) && forall i :: 0 <= i < |all| ==> me !in all[i].agents
    modifies all
    ensures AllValid(all) && total <= BATCH
    ensures !cut ==> |ends| == total == processed + waiting + failed
    ensures Tally(processed, waiting, failed) == TallyOf(ends)
  {
    hide Enrolled, After, Plan, Enabled, TallyOf, Onward, Settled;
    NoEnds();
    var due, snaps := FetchDue(all, me);
    processed, waiting, failed, total, cut, ends := 0, 0, 0, |due|, false, [];
    for n := 0 to |due|
      invariant AllValid(all) && Fetched(me, due, snaps, n) && |ends| == processed + waiting + failed == n
      invariant Tally(processed, waiting, failed) == TallyOf(ends)
    {
      assert due[n] in due;
      var end := ProcessOne(due[n], me, snaps[n], configured, projected);
      if end.Cut? {
        return processed, waiting, failed, total, true, ends;
      }
      OneMore(ends, end);
      ends := ends + [end];
      match end {
        case Returned(Waiting) => waiting := waiting + 1;
        case Returned(GaveUp) => failed := failed + 1;
        case Returned(_) => processed := processed + 1;
        case Threw => failed := failed + 1;
      }
    }
  }

  /** One row with the outer catch around it: an error there moves the wake-up time and nothing else. */
  method ProcessOne(e: Enrollment, me: nat, s: Snap, configured: bool, projected: bool) returns (end: End<Result>)
    requires e.Ready(me, Plan(e.config, s, e.sequence))
    modifies e
    ensures e.Valid() && Onward(old(e.row), e.row) && (end.Cut? || e.Ready(me, Over))
    ensures end.Returned? && (end.value.Moved? || end.value.GaveUp?) ==> Settled(e.row, s.step)
  {
    hide Enrolled, After, Plan, Enabled;
    end := e.Process(me, s, configured, projected);
    if end.Threw? {
      var alive := e.CatchError(me, s);
      if !alive {
        return Cut;
      }
    }
  }
}
