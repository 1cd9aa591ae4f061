/** The broadcast worker as it runs: one recipient's message, its settlement, and the look whether that was the last. */
module BroadcastWorker {
  import opened Options
  import opened BroadcastProtocol

  /** Around one call of ours: what others do first, whether we live to make it, and whether it works. */
  datatype Turn = Turn(events: seq<Event>, alive: bool, ok: bool)

  /** `Parked`: the operation is still under way, look again later. */
  datatype End = Done | Parked | Threw | Cut

  /** Others neither stop nor fail to count or complete, and our calls work. */
  predicate Smooth(script: seq<Turn>) {
    forall t :: t in script ==> t.alive && t.ok && forall e :: e in t.events ==> !MayLapse(e)
  }

  predicate MayLapse(e: Event) {
    e.Stop? || ((e.Counted? || e.Finished?) && !e.ok)
  }

  lemma OnlyThoseLapse(w: World, e: Event)
    requires Enabled(w, e)
    ensures !MayLapse(e) ==> Apply(w, e).lapse == w.lapse
  {
  }

  /** The status once the first job has started. */
  function Begun(status: Status): Status {
    if status.Scheduled? then Sending else status
  }

  /** The status once the look is over whether anybody is left. */
  function Looked(status: Status, recipients: seq<Recipient>): Status {
    if status.Sending? && AllSettled(recipients) then Completed else status
  }

  lemma Logged(start: World, log: seq<Event>, w: World, e: Event)
    requires After(start, log) == Some(w) && Enabled(w, e)
    ensures After(start, log + [e]) == Some(Apply(w, e)) && Forward(w, Apply(w, e))
  {
    hide Enabled, Apply, Forward;
    assert (log + [e])[..|log + [e]| - 1] == log;
    StepForward(w, e);
  }

  predicate ByMe(e: Event, me: nat) {
    !e.Move? && e.a == me
  }

  lemma NotMine(w: World, e: Event, me: nat)
    requires Enabled(w, e) && me in w.agents && !ByMe(e, me)
    ensures var x := Apply(w, e); me in x.agents && x.agents[me] == w.agents[me]
  {
  }

  class Broadcast {
    ghost const start: World
    var status: Status
    var recipients: seq<Recipient>
    var counts: Tallies
    var missed: Tallies
    var ops: map<nat, OpStatus>
    var agents: map<nat, Pc>
    var lapse: bool
    ghost var log: seq<Event>
    var script: seq<Turn>

    function View(): World
      reads `status, `recipients, `counts, `missed, `ops, `agents, `lapse
    {
      World(status, recipients, counts, missed, ops, agents, lapse)
    }

    ghost predicate Valid()
      reads `status, `recipients, `counts, `missed, `ops, `agents, `lapse, `log
    {
      Queued(start) && After(start, log) == Some(View())
    }

    ghost predicate Ready(me: nat, pc: Pc)
      reads `status, `recipients, `counts, `missed, `ops, `agents, `lapse, `log
    {
      Valid() && me in agents && agents[me] == pc
    }

    constructor (n: nat, status: Status, script: seq<Turn>)
      requires !status.Completed?
      ensures Valid() && |recipients| == n && this.status == status && agents == map[] && log == []
    {
      this.status, this.script := status, script;
      recipients, counts, missed := seq(n, _ => Waiting), Tallies(0, 0), Tallies(0, 0);
      ops, agents, lapse, log := map[], map[], false, [];
      start := World(status, seq(n, _ => Waiting), Tallies(0, 0), Tallies(0, 0), map[], map[], false);
    }

    method Take(e: Event)
      requires Valid() && Enabled(View(), e)
      modifies `status, `recipients, `counts, `missed, `ops, `agents, `lapse, `log
      ensures Valid() && log == old(log) + [e] && View() == Apply(old(View()), e) && Forward(old(View()), View())
    {
      hide Queued, After, Enabled, Apply, Forward;
      Logged(start, log, View(), e);
      var x := Apply(View(), e);
      status, recipients, counts, missed := x.status, x.recipients, x.counts, x.missed;
      ops, agents, lapse := x.ops, x.agents, x.lapse;
      log := log + [e];
    }

    method Halt(me: nat)
      requires Valid() && me in agents
      modifies `status, `recipients, `counts, `missed, `ops, `agents, `lapse, `log
      ensures Valid() && me !in agents && log == old(log) + [Stop(me)] && Forward(old(View()), View())
      ensures recipients == old(recipients) && status == old(status) && counts == old(counts) && ops == old(ops)
      ensures !AfterSettling(old(agents)[me]) ==> lapse == old(lapse)
    {
      hide Queued, After, Forward;
      Take(Stop(me));
    }

    /** What the others do, without touching our place. */
    method Others(me: nat, ghost pc: Pc, events: seq<Event>)
      requires Ready(me, pc)
      modifies `status, `recipients, `counts, `missed, `ops, `agents, `lapse, `log
      ensures Ready(me, pc) && old(log) <= log && Forward(old(View()), View())
      ensures events == [] ==> View() == old(View())
      ensures (forall e :: e in events ==> !MayLapse(e)) ==> lapse == old(lapse)
    {
      hide Queued, After, Enabled, Apply, MayLapse;
      for i := 0 to |events|
        invariant Ready(me, pc) && old(log) <= log && Forward(old(View()), View())
        invariant i == 0 ==> View() == old(View())
        invariant (forall e :: e in events ==> !MayLapse(e)) ==> lapse == old(lapse)
      {
        if Enabled(View(), events[i]) && !ByMe(events[i], me) {
          NotMine(View(), events[i], me);
          OnlyThoseLapse(View(), events[i]);
          Take(events[i]);
        }
      }
    }

    method Elsewhere(me: nat, ghost pc: Pc) returns (turn: Turn)
      requires Ready(me, pc)
      modifies `status, `recipients, `counts, `missed, `ops, `agents, `lapse, `log, `script
      ensures Valid() && old(log) <= log && Forward(old(View()), View())
      ensures if turn.alive then Ready(me, pc) else me !in agents
      ensures old(script) == [] ==> turn.alive && turn.ok && script == [] && View() == old(View())
      ensures Smooth(old(script)) ==> turn.alive && turn.ok && Smooth(script) && lapse == old(lapse)
    {
      hide Queued, After, Enabled, Apply, MayLapse;
      turn := if script == [] then Turn([], true, true) else script[0];
      script := if script == [] then [] else script[1..];
      assert forall t :: t in script ==> t in old(script);
      Others(me, pc, turn.events);
      if !turn.alive {
        Halt(me);
      }
    }

    /** update broadcast_recipients, only while the recipient is pending or sending */
    method SettleRow(me: nat, r: nat, sent: bool) returns (settled: bool)
      requires Ready(me, Settle(r, sent)) && r < |recipients|
      modifies `recipients, `agents, `log
      ensures Ready(me, if settled then Bump(sent) else Count) && log == old(log) + [Settled(me)]
      ensures Forward(old(View()), View()) && !Open(recipients[r])
      ensures recipients == if settled then old(recipients)[r := if sent then Sent else Failed] else old(recipients)
      ensures settled <==> Open(old(recipients)[r])
    {
      hide Queued, After;
      Logged(start, log, View(), Settled(me));
      settled := Open(recipients[r]);
      if settled {
        recipients := recipients[r := Outcome(sent)];
      }
      agents := agents[me := if settled then Bump(sent) else Count];
      log := log + [Settled(me)];
    }

    /** rpc increment_broadcast_sent or increment_broadcast_failed; its error is not looked at */
    method Increment(me: nat, sent: bool, ok: bool)
      requires Ready(me, Bump(sent))
      modifies `counts, `missed, `agents, `log
      ensures Ready(me, Count) && log == old(log) + [Bumped(me, ok)]
      ensures ok ==> counts == Tallies(old(counts).sent + if sent then 1 else 0, old(counts).failed + if sent then 0 else 1)
      ensures ok ==> missed == old(missed)
    {
      hide Queued, After;
      Logged(start, log, View(), Bumped(me, ok));
      if ok {
        counts := if sent then counts.(sent := counts.sent + 1) else counts.(failed := counts.failed + 1);
      } else {
        missed := Add(missed, sent);
      }
      agents := agents[me := Count];
      log := log + [Bumped(me, ok)];
    }

    /** count of the recipients still pending or sending */
    method CountOpen(me: nat, ok: bool) returns (none: bool)
      requires Ready(me, Count)
      modifies `agents, `lapse, `log
      ensures Ready(me, if none then Finish else Over) && log == old(log) + [Counted(me, ok)]
      ensures none <==> ok && AllSettled(recipients)
      ensures lapse == (old(lapse) || !ok)
    {
      hide Queued, After;
      Logged(start, log, View(), Counted(me, ok));
      var open := 0;
      for r := 0 to |recipients|
        invariant open == 0 <==> forall q :: 0 <= q < r ==> !Open(recipients[q])
        invariant 0 <= open
      {
        if Open(recipients[r]) {
          open := open + 1;
        }
      }
      none := ok && open == 0;
      lapse := lapse || !ok;
      agents := agents[me := if none then Finish else Over];
      log := log + [Counted(me, ok)];
    }

    method MarkCompleted(me: nat, ok: bool)
      requires Ready(me, Finish)
      modifies `status, `agents, `lapse, `log
      ensures Ready(me, Over) && log == old(log) + [Finished(me, ok)] && Forward(old(View()), View())
      ensures ok ==> status == (if old(status).Sending? then Completed else old(status))
      ensures lapse == (old(lapse) || !ok)
    {
      hide Queued, After;
      Logged(start, log, View(), Finished(me, ok));
      if ok && status.Sending? {
        status := Completed;
      }
      lapse := lapse || !ok;
      agents := agents[me := Over];
      log := log + [Finished(me, ok)];
    }

    /** `settleBroadcastIfDone`: once nobody is left, a broadcast in `sending` is completed. */
    method SettleBroadcastIfDone(me: nat) returns (end: End)
      requires Ready(me, Count)
      modifies `status, `recipients, `counts, `missed, `ops, `agents, `lapse, `log, `script
      ensures Valid() && old(log) <= log && me !in agents && Forward(old(View()), View())
      ensures end.Done? || end.Cut?
      ensures Smooth(old(script)) ==> end.Done? && lapse == old(lapse)
      ensures old(script) == [] ==> end.Done? && recipients == old(recipients) && counts == old(counts) && ops == old(ops)
      ensures old(script) == [] && old(status).Sending? && AllSettled(old(recipients)) ==> status.Completed?
      ensures old(script) == [] && !(old(status).Sending? && AllSettled(old(recipients))) ==> status == old(status)
    {
      hide Queued, After, Enabled, Apply, AllSettled, Smooth;
      var turn := Elsewhere(me, Count);
      if !turn.alive { return Cut; }
      var none := CountOpen(me, turn.ok);
      if none {
        turn := Elsewhere(me, Finish);
        if !turn.alive { return Cut; }
        MarkCompleted(me, turn.ok);
      }
      Halt(me);
      return Done;
    }

    /** The end shared by both paths: settle the recipient, count it if it was still open, and look at the broadcast. */
    method SettleAndCount(me: nat, r: nat, sent: bool) returns (end: End)
      requires Ready(me, Settle(r, sent)) && r < |recipients|
      modifies `status, `recipients, `counts, `missed, `ops, `agents, `lapse, `log, `script
      ensures Valid() && old(log) <= log && me !in agents && Forward(old(View()), View())
      ensures end.Done? ==> r < |recipients| && !Open(recipients[r])
      ensures !end.Parked?
      ensures Smooth(old(script)) ==> end.Done? && lapse == old(lapse)
      ensures old(script) == [] ==> end.Done? && ops == old(ops) && status == Looked(old(status), recipients)
      ensures old(script) == [] && !Open(old(recipients)[r]) ==> recipients == old(recipients) && counts == old(counts)
      ensures old(script) == [] && Open(old(recipients)[r]) ==> recipients == old(recipients)[r := if sent then Sent else Failed]
      ensures old(script) == [] && Open(old(recipients)[r]) ==>
        counts == Tallies(old(counts).sent + if sent then 1 else 0, old(counts).failed + if sent then 0 else 1)
    {
      hide Queued, After, Enabled, Apply, AllSettled, Smooth;
      var turn := Elsewhere(me, Settle(r, sent));
      if !turn.alive { return Cut; }
      if !turn.ok {
        Halt(me);
        return Threw;
      }
      var settled := SettleRow(me, r, sent);
      if settled {
        end := CountAndLook(me, sent);
      } else {
        end := SettleBroadcastIfDone(me);
      }
    }

    /** The counter of a recipient just settled, and then the look at the broadcast. */
    method CountAndLook(me: nat, sent: bool) returns (end: End)
      requires Ready(me, Bump(sent))
      modifies `status, `recipients, `counts, `missed, `ops, `agents, `lapse, `log, `script
      ensures Valid() && old(log) <= log && me !in agents && Forward(old(View()), View())
      ensures end.Done? || end.Cut?
      ensures Smooth(old(script)) ==> end.Done? && lapse == old(lapse)
      ensures old(script) == [] ==> end.Done? && ops == old(ops) && recipients == old(recipients)
      ensures old(script) == [] ==> status == Looked(old(status), recipients)
      ensures old(script) == [] ==>
        counts == Tallies(old(counts).sent + if sent then 1 else 0, old(counts).failed + if sent then 0 else 1)
    {
      hide Queued, After, Enabled, Apply, AllSettled, Smooth;
      var turn := Elsewhere(me, Bump(sent));
      if !turn.alive { return Cut; }
      Increment(me, sent, turn.ok);
      end := SettleBroadcastIfDone(me);
    }

    /** `settleBroadcastRecipientAsFailed`, when the retries are used up */
    method SettleRecipientAsFailed(me: nat, r: nat) returns (end: End)
      requires Valid() && me !in agents && r < |recipients|
      modifies `status, `recipients, `counts, `missed, `ops, `agents, `lapse, `log, `script
      ensures Valid() && old(log) <= log && me !in agents && Forward(old(View()), View())
      ensures end.Done? ==> r < |recipients| && !Open(recipients[r])
      ensures Smooth(old(script)) ==> end.Done? && lapse == old(lapse)
      ensures old(script) == [] ==> end.Done? && status == Looked(old(status), recipients)
      ensures old(script) == [] && Open(old(recipients)[r]) ==> recipients == old(recipients)[r := Failed]
      ensures old(script) == [] && Open(old(recipients)[r]) ==> counts == old(counts).(failed := old(counts).failed + 1)
      ensures old(script) == [] && !Open(old(recipients)[r]) ==> recipients == old(recipients) && counts == old(counts)
    {
      hide Queued, After, AllSettled;
      Take(Spawn(me, Settle(r, false)));
      end := SettleAndCount(me, r, false);
    }

    method LoadRecipient(me: nat, r: nat) returns (open: bool)
      requires Valid() && me !in agents && r < |recipients|
      modifies `status, `recipients, `counts, `missed, `ops, `agents, `lapse, `log
      ensures Ready(me, if open then Promote(r) else Over) && old(log) <= log && Forward(old(View()), View())
      ensures open == Open(recipients[r]) && recipients == old(recipients) && lapse == old(lapse)
      ensures counts == old(counts) && status == old(status) && ops == old(ops)
    {
      hide Queued, After, AllSettled;
      Take(Spawn(me, Load(r)));
      open := recipients[r].Waiting? || recipients[r].InFlight?;
      Take(Read(me));
    }

    /** A broadcast that was dated into the future starts with its first job. */
    method PromoteScheduled(me: nat, r: nat)
      requires Ready(me, Promote(r))
      modifies `status, `agents, `log
      ensures Ready(me, Send(r)) && log == old(log) + [Promoted(me)] && Forward(old(View()), View())
      ensures status == if old(status).Scheduled? then Sending else old(status)
    {
      hide Queued, After;
      Logged(start, log, View(), Promoted(me));
      if status.Scheduled? {
        status := Sending;
      }
      agents := agents[me := Send(r)];
      log := log + [Promoted(me)];
    }

    /** The gateway operation of the recipient's key, new or known. */
    method CallGateway(me: nat, r: nat) returns (op: OpStatus)
      requires Ready(me, Send(r))
      modifies `ops, `agents, `log
      ensures Ready(me, if op.Pending? || op.Running? then MarkSending(r) else Settle(r, op.Succeeded?))
      ensures log == old(log) + [Called(me)]
      ensures r in ops && ops[r] == op && (r in old(ops) ==> ops == old(ops)) && (r !in old(ops) ==> op.Pending?)
    {
      hide Queued, After;
      Logged(start, log, View(), Called(me));
      if r !in ops {
        ops := ops[r := Pending];
      }
      op := ops[r];
      agents := agents[me := if op.Pending? || op.Running? then MarkSending(r) else Settle(r, op.Succeeded?)];
      log := log + [Called(me)];
    }

    method MarkInFlight(me: nat, r: nat)
      requires Ready(me, MarkSending(r)) && r < |recipients|
      modifies `recipients, `agents, `log
      ensures Ready(me, Over) && log == old(log) + [Marked(me)] && Forward(old(View()), View())
      ensures recipients == if Open(old(recipients)[r]) then old(recipients)[r := InFlight] else old(recipients)
    {
      hide Queued, After;
      Logged(start, log, View(), Marked(me));
      if Open(recipients[r]) {
        recipients := recipients[r := InFlight];
      }
      agents := agents[me := Over];
      log := log + [Marked(me)];
    }

    /** The gateway's answer for a recipient; an operation it does not know yet starts as pending. */
    function AnswerFor(r: nat): OpStatus
      reads `ops
    {
      if r in ops then ops[r] else Pending
    }

    /**
     * `processBroadcast`: when it returns without parking or throwing, its recipient is settled for good. Nothing is left
     * undone that should have been done: with nobody else at work it ends by the recipient and the gateway's answer.
     */
    method ProcessBroadcast(me: nat, r: nat, hasText: bool, projected: bool) returns (end: End)
      requires Valid() && me !in agents && r < |recipients|
      modifies `status, `recipients, `counts, `missed, `ops, `agents, `lapse, `log, `script
      ensures Valid() && old(log) <= log && me !in agents && Forward(old(View()), View())
      ensures end.Done? ==> r < |recipients| && !Open(recipients[r])
      ensures Smooth(old(script)) ==> !end.Cut? && lapse == old(lapse)
      ensures Smooth(old(script)) && end.Threw? ==> Open(old(recipients)[r]) && !(hasText && projected)
      ensures old(script) == [] && !Open(old(recipients)[r]) ==> end.Done? && recipients == old(recipients) && status == old(status)
      ensures old(script) == [] && Open(old(recipients)[r]) ==> (end.Threw? <==> !(hasText && projected))
      ensures old(script) == [] && end.Threw? ==> recipients == old(recipients) && counts == old(counts)
      ensures old(script) == [] && end.Parked? ==>
        recipients == old(recipients)[r := InFlight] && counts == old(counts) && status == Begun(old(status))
      ensures old(script) == [] && Open(old(recipients)[r]) && hasText && projected ==>
        (end.Parked? <==> old(AnswerFor(r)).Pending? || old(AnswerFor(r)).Running?)
      ensures old(script) == [] && Open(old(recipients)[r]) && end.Done? ==>
        recipients == old(recipients)[r := if old(AnswerFor(r)).Succeeded? then Sent else Failed]
      ensures old(script) == [] && Open(old(recipients)[r]) && end.Done? ==> status == Looked(Begun(old(status)), recipients)
    {
      hide Queued, After, AllSettled, Enabled, Apply, Smooth, Looked;
      var open := LoadRecipient(me, r);
      if !open || !hasText {
        Halt(me);
        return if open then Threw else Done;
      }
      var turn := Elsewhere(me, Promote(r));
      if !turn.alive { return Cut; }
      PromoteScheduled(me, r);
      end := SendMessage(me, r, projected);
    }

    method SendMessage(me: nat, r: nat, projected: bool) returns (end: End)
      requires Ready(me, Send(r)) && r < |recipients|
      modifies `status, `recipients, `counts, `missed, `ops, `agents, `lapse, `log, `script
      ensures Valid() && old(log) <= log && me !in agents && Forward(old(View()), View())
      ensures end.Done? ==> r < |recipients| && !Open(recipients[r])
      ensures Smooth(old(script)) ==> !end.Cut? && lapse == old(lapse) && (end.Threw? <==> !projected)
      ensures old(script) == [] ==> !end.Cut? && (end.Threw? <==> !projected)
      ensures old(script) == [] && !projected ==> recipients == old(recipients) && counts == old(counts)
      ensures old(script) == [] && end.Parked? ==> counts == old(counts) && status == old(status)
      ensures old(script) == [] && end.Parked? && Open(old(recipients)[r]) ==> recipients == old(recipients)[r := InFlight]
      ensures old(script) == [] && projected ==> (end.Parked? <==> old(AnswerFor(r)).Pending? || old(AnswerFor(r)).Running?)
      ensures old(script) == [] && end.Done? && Open(old(recipients)[r]) ==>
        recipients == old(recipients)[r := if old(AnswerFor(r)).Succeeded? then Sent else Failed]
      ensures old(script) == [] && end.Done? ==> status == Looked(old(status), recipients)
    {
      hide Queued, After, AllSettled, Enabled, Apply, Smooth, Looked;
      var turn := Elsewhere(me, Send(r));
      if !turn.alive { return Cut; }
      if !projected || !turn.ok {
        Halt(me);
        return Threw;
      }
      var op := CallGateway(me, r);
      if op.Pending? || op.Running? {
        end := Park(me, r);
      } else {
        end := SettleAndCount(me, r, op.Succeeded?);
      }
    }

    method Park(me: nat, r: nat) returns (end: End)
      requires Ready(me, MarkSending(r)) && r < |recipients|
      modifies `status, `recipients, `counts, `missed, `ops, `agents, `lapse, `log, `script
      ensures Valid() && old(log) <= log && me !in agents && Forward(old(View()), View()) && !end.Done?
      ensures Smooth(old(script)) ==> end.Parked? && lapse == old(lapse)
      ensures old(script) == [] ==> end.Parked? && counts == old(counts) && status == old(status)
      ensures old(script) == [] && Open(old(recipients)[r]) ==> recipients == old(recipients)[r := InFlight]
    {
      hide Queued, After, AllSettled, Enabled, Apply, Smooth;
      var turn := Elsewhere(me, MarkSending(r));
      if !turn.alive { return Cut; }
      if turn.ok {
        MarkInFlight(me, r);
      }
      Halt(me);
      return if turn.ok then Parked else Threw;
    }
  }
}
