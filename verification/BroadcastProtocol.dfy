/**
 * One broadcast under any number of workers, duplicated or racing, each of which may stop or throw between any two
 * calls, together with the path that writes a recipient off when its retries are used up.
 */
module BroadcastProtocol {
  import opened Options

  datatype Status = Scheduled | Sending | Completed

  datatype Recipient = Waiting | InFlight | Sent | Failed

  datatype OpStatus = Pending | Running | Succeeded | OpFailed | Unknown

  /** What a worker does next. */
  datatype Pc =
    | Load(r: nat)
    | Promote(r: nat)
    | Send(r: nat)
    | MarkSending(r: nat)
    | Settle(r: nat, sent: bool)
    | Bump(sent: bool)
    | Count
    | Finish
    | Over

  /** What was settled but never counted, by kind. */
  datatype Tallies = Tallies(sent: nat, failed: nat)

  /** `lapse` records that a worker stopped, or ignored an error, after settling a recipient and before it was done. */
  datatype World = World(
    status: Status, recipients: seq<Recipient>, counts: Tallies, missed: Tallies, ops: map<nat, OpStatus>,
    agents: map<nat, Pc>, lapse: bool)

  datatype Event =
    | Spawn(a: nat, pc: Pc)
    | Read(a: nat)
    | Promoted(a: nat)
    | Called(a: nat)
    | Marked(a: nat)
    | Settled(a: nat)
    | Bumped(a: nat, ok: bool)
    | Counted(a: nat, ok: bool)
    | Finished(a: nat, ok: bool)
    | Move(r: nat, status: OpStatus)
    | Stop(a: nat)

  predicate Open(s: Recipient) {
    s.Waiting? || s.InFlight?
  }

  predicate AllSettled(recipients: seq<Recipient>) {
    forall r :: 0 <= r < |recipients| ==> !Open(recipients[r])
  }

  function Add(t: Tallies, sent: bool): Tallies {
    if sent then t.(sent := t.sent + 1) else t.(failed := t.failed + 1)
  }

  function Of(t: Tallies, sent: bool): nat {
    if sent then t.sent else t.failed
  }

  function Outcome(sent: bool): Recipient {
    if sent then Sent else Failed
  }

  function Goto(w: World, a: nat, pc: Pc): World {
    w.(agents := w.agents[a := pc])
  }

  predicate Enabled(w: World, e: Event) {
    match e
    case Spawn(a, pc) => a !in w.agents && (pc.Load? || (pc.Settle? && !pc.sent)) && pc.r < |w.recipients|
    case Read(a) => a in w.agents && w.agents[a].Load? && w.agents[a].r < |w.recipients|
    case Promoted(a) => a in w.agents && w.agents[a].Promote?
    case Called(a) => a in w.agents && w.agents[a].Send?
    case Marked(a) => a in w.agents && w.agents[a].MarkSending? && w.agents[a].r < |w.recipients|
    case Settled(a) => a in w.agents && w.agents[a].Settle? && w.agents[a].r < |w.recipients|
    case Bumped(a, _) => a in w.agents && w.agents[a].Bump?
    case Counted(a, _) => a in w.agents && w.agents[a].Count?
    case Finished(a, _) => a in w.agents && w.agents[a].Finish?
    case Move(r, _) => r in w.ops && !w.ops[r].Succeeded?
    case Stop(a) => a in w.agents
  }

  /** Settled, and not yet finished with what follows. */
  predicate AfterSettling(pc: Pc) {
    pc.Bump? || pc.Count? || pc.Finish?
  }

  function Apply(w: World, e: Event): World
    requires Enabled(w, e)
  {
    match e
    case Spawn(a, pc) => Goto(w, a, pc)
    case Read(a) => Goto(w, a, if Open(w.recipients[w.agents[a].r]) then Promote(w.agents[a].r) else Over)
    case Promoted(a) =>
      Goto(w.(status := if w.status.Scheduled? then Sending else w.status), a, Send(w.agents[a].r))
    case Called(a) =>
      var r := w.agents[a].r;
      var ops := if r in w.ops then w.ops else w.ops[r := Pending];
      Goto(w.(ops := ops), a, if ops[r].Pending? || ops[r].Running? then MarkSending(r) else Settle(r, ops[r].Succeeded?))
    case Marked(a) =>
      var r := w.agents[a].r;
      Goto(w.(recipients := if Open(w.recipients[r]) then w.recipients[r := InFlight] else w.recipients), a, Over)
    case Settled(a) =>
      var pc := w.agents[a];
      if Open(w.recipients[pc.r])
      then Goto(w.(recipients := w.recipients[pc.r := Outcome(pc.sent)]), a, Bump(pc.sent))
      else Goto(w, a, Count)
    case Bumped(a, ok) =>
      var sent := w.agents[a].sent;
      Goto(if ok then w.(counts := Add(w.counts, sent)) else w.(missed := Add(w.missed, sent)), a, Count)
    case Counted(a, ok) =>
      Goto(w.(lapse := w.lapse || !ok), a, if ok && AllSettled(w.recipients) then Finish else Over)
    case Finished(a, ok) =>
      Goto(w.(status := if ok && w.status.Sending? then Completed else w.status, lapse := w.lapse || !ok), a, Over)
    case Move(r, status) => w.(ops := w.ops[r := status])
    case Stop(a) =>
      w.(agents := w.agents - {a}, lapse := w.lapse || AfterSettling(w.agents[a]),
         missed := if w.agents[a].Bump? then Add(w.missed, w.agents[a].sent) else w.missed)
  }

  /** A broadcast as it is when its first work is queued. */
  predicate Queued(w: World) {
    && (w.status.Scheduled? || w.status.Sending?) && (forall r :: 0 <= r < |w.recipients| ==> w.recipients[r].Waiting?)
    && w.counts == Tallies(0, 0) && w.missed == Tallies(0, 0) && w.ops == map[] && w.agents == map[] && !w.lapse
  }

  ghost predicate Reaches(w: World, x: World) {
    exists es :: After(w, es) == Some(x)
  }

  function After(start: World, es: seq<Event>): Option<World> {
    if es == [] then Some(start)
    else
      var before := After(start, es[..|es| - 1]);
      if before.Some? && Enabled(before.value, es[|es| - 1]) then Some(Apply(before.value, es[|es| - 1])) else None
  }

  // ---------------------------------------------------------------------------
  // The invariant
  // ---------------------------------------------------------------------------

  function HowMany(recipients: seq<Recipient>, s: Recipient): nat {
    if recipients == [] then 0
    else HowMany(recipients[..|recipients| - 1], s) + if recipients[|recipients| - 1] == s then 1 else 0
  }

  predicate Bumps(pc: Pc, sent: bool) {
    pc.Bump? && pc.sent == sent
  }

  /** Workers that have settled a recipient and not counted it yet. */
  function Bumping(agents: map<nat, Pc>, sent: bool): set<nat> {
    set a | a in agents && Bumps(agents[a], sent)
  }

  ghost predicate Conserved(w: World, sent: bool) {
    Of(w.counts, sent) + Of(w.missed, sent) + |Bumping(w.agents, sent)| == HowMany(w.recipients, Outcome(sent))
  }

  ghost predicate Final(w: World) {
    && (w.status.Completed? ==> AllSettled(w.recipients))
    && (forall a :: a in w.agents && w.agents[a].Finish? ==> AllSettled(w.recipients))
  }

  /** "Sent" is never said of a message the gateway did not deliver. */
  ghost predicate Truthful(w: World) {
    && (forall r :: 0 <= r < |w.recipients| && w.recipients[r].Sent? ==> r in w.ops && w.ops[r].Succeeded?)
    && (forall a :: a in w.agents && w.agents[a].Settle? && w.agents[a].sent ==>
          w.agents[a].r in w.ops && w.ops[w.agents[a].r].Succeeded?)
  }

  /** Somebody will still look whether the broadcast is done. */
  ghost predicate Watched(w: World) {
    AllSettled(w.recipients) && w.status.Sending? && !w.lapse ==> exists a :: a in w.agents && AfterSettling(w.agents[a])
  }

  ghost predicate Inv(w: World) {
    Conserved(w, true) && Conserved(w, false) && Final(w) && Truthful(w)
  }

  // ---------------------------------------------------------------------------
  // Every event keeps it
  // ---------------------------------------------------------------------------

  lemma {:induction false} HowManyAfter(recipients: seq<Recipient>, r: nat, s: Recipient, t: Recipient)
    requires r < |recipients| && s != recipients[r]
    ensures HowMany(recipients[r := s], t) ==
      HowMany(recipients, t) + (if s == t then 1 else 0) - (if recipients[r] == t then 1 else 0)
  {
    var n := |recipients| - 1;
    if r == n {
      assert recipients[r := s][..n] == recipients[..n];
    } else {
      assert recipients[r := s][..n] == recipients[..n][r := s];
      HowManyAfter(recipients[..n], r, s, t);
    }
  }

  lemma BumpingMoved(agents: map<nat, Pc>, a: nat, pc: Pc, sent: bool)
    ensures |Bumping(agents[a := pc], sent)| == |Bumping(agents, sent)| + (if Bumps(pc, sent) then 1 else 0)
      - (if a in agents && Bumps(agents[a], sent) then 1 else 0)
  {
    hide Bumps;
    BumpingGone(agents, a, sent);
    var rest := Bumping(agents, sent) - {a};
    var after := Bumping(agents[a := pc], sent);
    assert forall b :: b != a ==> (b in after <==> b in rest);
    assert a in after <==> Bumps(pc, sent);
    assert after == if Bumps(pc, sent) then rest + {a} else rest;
  }

  lemma BumpingGone(agents: map<nat, Pc>, a: nat, sent: bool)
    ensures Bumping(agents - {a}, sent) == Bumping(agents, sent) - {a}
    ensures |Bumping(agents, sent) - {a}| == |Bumping(agents, sent)| - (if a in agents && Bumps(agents[a], sent) then 1 else 0)
  {
    assert Bumping(agents - {a}, sent) == Bumping(agents, sent) - {a};
    if !(a in agents && Bumps(agents[a], sent)) {
      assert Bumping(agents, sent) - {a} == Bumping(agents, sent);
    }
  }

  lemma WorkConserved(w: World, e: Event, sent: bool)
    requires Conserved(w, sent) && Enabled(w, e) && !e.Stop? && !e.Move? && !e.Settled? && !e.Marked?
    ensures Conserved(Apply(w, e), sent)
  {
    hide HowMany, Bumping, AllSettled;
    BumpingMoved(w.agents, e.a, Apply(w, e).agents[e.a], sent);
  }

  lemma SettledConserved(w: World, e: Event, sent: bool)
    requires Conserved(w, sent) && Enabled(w, e) && (e.Settled? || e.Marked?)
    ensures Conserved(Apply(w, e), sent)
  {
    hide HowMany, Bumping, AllSettled;
    var x := Apply(w, e);
    var r := w.agents[e.a].r;
    BumpingMoved(w.agents, e.a, x.agents[e.a], sent);
    if x.recipients[r] != w.recipients[r] {
      HowManyAfter(w.recipients, r, x.recipients[r], Outcome(sent));
    } else {
      assert x.recipients == w.recipients;
    }
  }

  lemma StopConserved(w: World, a: nat, sent: bool)
    requires Conserved(w, sent) && Enabled(w, Stop(a))
    ensures Conserved(Apply(w, Stop(a)), sent)
  {
    hide HowMany, Bumping, AllSettled;
    BumpingGone(w.agents, a, sent);
  }

  lemma ConservedStep(w: World, e: Event, sent: bool)
    requires Conserved(w, sent) && Enabled(w, e)
    ensures Conserved(Apply(w, e), sent)
  {
    if e.Move? {
    } else if e.Stop? {
      StopConserved(w, e.a, sent);
    } else if e.Settled? || e.Marked? {
      SettledConserved(w, e, sent);
    } else {
      WorkConserved(w, e, sent);
    }
  }

  lemma FinalStep(w: World, e: Event)
    requires Final(w) && Enabled(w, e)
    ensures Final(Apply(w, e))
  {
  }

  lemma TruthfulStep(w: World, e: Event)
    requires Truthful(w) && Enabled(w, e)
    ensures Truthful(Apply(w, e))
  {
    hide AllSettled;
  }

  lemma OpenStays(w: World, e: Event)
    requires Enabled(w, e) && !AllSettled(w.recipients) && !e.Settled?
    ensures !AllSettled(Apply(w, e).recipients)
  {
    var r :| 0 <= r < |w.recipients| && Open(w.recipients[r]);
    assert Open(Apply(w, e).recipients[r]);
  }

  lemma WatchedStep(w: World, e: Event)
    requires Watched(w) && !w.status.Scheduled? && Enabled(w, e)
    ensures Watched(Apply(w, e)) && !Apply(w, e).status.Scheduled?
  {
    var x := Apply(w, e);
    if AllSettled(x.recipients) && x.status.Sending? && !x.lapse {
      if e.Settled? {
        assert AfterSettling(x.agents[e.a]);
      } else if AllSettled(w.recipients) {
        var a :| a in w.agents && AfterSettling(w.agents[a]);
        assert a in x.agents && AfterSettling(x.agents[a]);
      } else {
        OpenStays(w, e);
      }
    }
  }

  lemma StepKeeps(w: World, e: Event)
    requires Inv(w) && Enabled(w, e)
    ensures Inv(Apply(w, e))
  {
    hide Conserved, Final, Truthful, Apply, Enabled;
    ConservedStep(w, e, true);
    ConservedStep(w, e, false);
    FinalStep(w, e);
    TruthfulStep(w, e);
  }

  lemma {:induction false} NoneSettled(recipients: seq<Recipient>, s: Recipient)
    requires !Open(s) && forall r :: 0 <= r < |recipients| ==> recipients[r].Waiting?
    ensures HowMany(recipients, s) == 0
  {
    if recipients != [] {
      NoneSettled(recipients[..|recipients| - 1], s);
    }
  }

  lemma QueuedKeeps(start: World)
    requires Queued(start)
    ensures Inv(start)
  {
    NoneSettled(start.recipients, Sent);
    NoneSettled(start.recipients, Failed);
    assert Bumping(start.agents, true) == {} && Bumping(start.agents, false) == {};
  }

  lemma {:induction false} HistoryKeeps(start: World, es: seq<Event>)
    requires Inv(start) && After(start, es).Some?
    ensures Inv(After(start, es).value)
  {
    hide Inv, Apply, Enabled;
    if es != [] {
      HistoryKeeps(start, es[..|es| - 1]);
      StepKeeps(After(start, es[..|es| - 1]).value, es[|es| - 1]);
    }
  }

  lemma {:induction false} WatchedThroughout(start: World, es: seq<Event>)
    requires Queued(start) && start.status.Sending? && start.recipients != [] && After(start, es).Some?
    ensures var w := After(start, es).value; Watched(w) && !w.status.Scheduled?
  {
    hide Apply, Enabled;
    if es == [] {
      assert Open(start.recipients[0]);
    } else {
      WatchedThroughout(start, es[..|es| - 1]);
      WatchedStep(After(start, es[..|es| - 1]).value, es[|es| - 1]);
    }
  }

  // ---------------------------------------------------------------------------
  // What holds of every history of a broadcast
  // ---------------------------------------------------------------------------

  /**
   * Conservation: each counter, what a stopped worker did not count and what working ones have yet to count add up to
   * the recipients settled that way. So each recipient counts at most once, and nothing counts that is not settled.
   */
  lemma CountersAddUp(start: World, es: seq<Event>, sent: bool)
    requires Queued(start) && After(start, es).Some?
    ensures var w := After(start, es).value;
      Of(w.counts, sent) + Of(w.missed, sent) + |Bumping(w.agents, sent)| == HowMany(w.recipients, Outcome(sent))
  {
    QueuedKeeps(start);
    HistoryKeeps(start, es);
  }

  /** What was delivered is all that is ever marked as sent. */
  lemma SentIsDelivered(start: World, es: seq<Event>)
    requires Queued(start) && After(start, es).Some?
    ensures var w := After(start, es).value;
      forall r :: 0 <= r < |w.recipients| && w.recipients[r].Sent? ==> r in w.ops && w.ops[r].Succeeded?
  {
    QueuedKeeps(start);
    HistoryKeeps(start, es);
  }

  /** A settled recipient keeps its outcome, and a completed broadcast stays completed. */
  ghost predicate Forward(w: World, x: World) {
    && |x.recipients| == |w.recipients|
    && (forall r :: 0 <= r < |w.recipients| && !Open(w.recipients[r]) ==> x.recipients[r] == w.recipients[r])
    && (w.status.Completed? ==> x.status.Completed?)
  }

  lemma {:induction false} SettledForGood(w: World, es: seq<Event>)
    requires After(w, es).Some?
    ensures Forward(w, After(w, es).value)
  {
    hide Apply, Enabled;
    if es != [] {
      SettledForGood(w, es[..|es| - 1]);
      StepForward(After(w, es[..|es| - 1]).value, es[|es| - 1]);
    }
  }

  lemma StepForward(w: World, e: Event)
    requires Enabled(w, e)
    ensures Forward(w, Apply(w, e))
  {
  }

  /** A completed broadcast has nobody waiting or in flight, then and ever after. */
  lemma CompletedMeansSettled(start: World, es: seq<Event>, more: seq<Event>)
    requires Queued(start) && After(start, es).Some? && After(start, es).value.status.Completed?
    requires After(After(start, es).value, more).Some?
    ensures AllSettled(After(start, es).value.recipients)
    ensures AllSettled(After(After(start, es).value, more).value.recipients)
  {
    QueuedKeeps(start);
    HistoryKeeps(start, es);
    SettledForGood(After(start, es).value, more);
  }

  /** Nobody is at work, nobody lapsed and every recipient is settled. */
  predicate Done(w: World) {
    w.agents == map[] && !w.lapse && AllSettled(w.recipients)
  }

  lemma {:induction false} SettledAreAll(recipients: seq<Recipient>)
    requires AllSettled(recipients)
    ensures HowMany(recipients, Sent) + HowMany(recipients, Failed) == |recipients|
  {
    if recipients != [] {
      SettledAreAll(recipients[..|recipients| - 1]);
    }
  }

  /** When all work is done and every count went through, the counters cover the recipients. */
  lemma CountersCoverAll(start: World, es: seq<Event>)
    requires Queued(start) && After(start, es).Some? && Done(After(start, es).value)
    requires After(start, es).value.missed == Tallies(0, 0)
    ensures var w := After(start, es).value; w.counts.sent + w.counts.failed == |w.recipients|
  {
    CountersAddUp(start, es, true);
    CountersAddUp(start, es, false);
    var w := After(start, es).value;
    assert Bumping(w.agents, true) == {} && Bumping(w.agents, false) == {};
    SettledAreAll(w.recipients);
  }

  // ---------------------------------------------------------------------------
  // When a finished broadcast is marked completed
  // ---------------------------------------------------------------------------

  lemma Stays(w: World)
    ensures Reaches(w, w)
  {
    assert After(w, []) == Some(w);
  }

  lemma Go(w: World, x: World, e: Event) returns (y: World)
    requires Reaches(w, x) && Enabled(x, e)
    ensures y == Apply(x, e) && Reaches(w, y)
  {
    hide Enabled, Apply;
    var es :| After(w, es) == Some(x);
    assert (es + [e])[..|es + [e]| - 1] == es;
    y := Apply(x, e);
    assert After(w, es + [e]) == Some(y);
  }

  /** Worker 0 writes recipient r off, looks whether that was the last one, and finds the broadcast still scheduled. */
  lemma WriteOff(start: World, x: World, r: nat) returns (y: World)
    requires Reaches(start, x) && x.status.Scheduled? && r < |x.recipients| && Open(x.recipients[r]) && 0 !in x.agents && !x.lapse
    ensures Reaches(start, y) && y.status.Scheduled? && y.agents == x.agents && !y.lapse
    ensures y.recipients == x.recipients[r := Failed] && y.ops == x.ops
  {
    hide Reaches, AllSettled;
    y := Go(start, x, Spawn(0, Settle(r, false)));
    y := Go(start, y, Settled(0));
    y := Go(start, y, Bumped(0, true));
    assert y.agents - {0} == x.agents;
    y := LookAround(start, y);
  }

  /** Worker 0 counts the open recipients of a scheduled broadcast, which changes nothing, and is gone. */
  lemma LookAround(start: World, x: World) returns (y: World)
    requires Reaches(start, x) && x.status.Scheduled? && 0 in x.agents && x.agents[0].Count? && !x.lapse
    ensures Reaches(start, y) && y == x.(agents := x.agents - {0})
  {
    hide Reaches, AllSettled;
    y := Go(start, x, Counted(0, true));
    if y.agents[0].Finish? {
      y := Go(start, y, Finished(0, true));
    }
    y := Go(start, y, Stop(0));
    assert y.agents == x.agents - {0};
  }

  lemma {:induction false} WriteAllOff(start: World, x: World, n: nat) returns (y: World)
    requires Reaches(start, x) && x.status.Scheduled? && n <= |x.recipients| && 0 !in x.agents && !x.lapse
    requires forall r :: 0 <= r < |x.recipients| ==> Open(x.recipients[r])
    ensures Reaches(start, y) && y.status.Scheduled? && y.agents == x.agents && !y.lapse && |y.recipients| == |x.recipients|
    ensures y.ops == x.ops
    ensures forall r :: 0 <= r < |x.recipients| ==> if r < n then y.recipients[r].Failed? else Open(y.recipients[r])
  {
    hide Reaches;
    y := x;
    if n > 0 {
      y := WriteAllOff(start, x, n - 1);
      y := WriteOff(start, y, n - 1);
    }
  }

  /**
   * A worker reads its recipient while the broadcast is scheduled, all recipients are written off meanwhile, and only
   * then does it promote the broadcast; its operation is still pending, so it leaves without looking again.
   */
  lemma PromotedTooLate(start: World) returns (y: World)
    requires Queued(start) && start.status.Scheduled?
    ensures Reaches(start, y) && Done(y) && !y.status.Completed?
  {
    hide Reaches;
    Stays(start);
    y := start;
    if start.recipients != [] {
      y := Go(start, y, Spawn(1, Load(0)));
      y := Go(start, y, Read(1));
      y := WriteAllOff(start, y, |start.recipients|);
      y := Go(start, y, Promoted(1));
      y := Go(start, y, Called(1));
      y := Go(start, y, Marked(1));
      y := Go(start, y, Stop(1));
      assert y.agents == map[];
    }
  }

  /** Finished work always ends in a completed broadcast exactly when it was queued as `sending` and has recipients. */
  lemma CompletesExactly(start: World)
    requires Queued(start)
    ensures (forall x :: Reaches(start, x) && Done(x) ==> x.status.Completed?) <==> start.status.Sending? && start.recipients != []
  {
    hide Apply, Enabled;
    if start.status.Sending? && start.recipients != [] {
      forall x | Reaches(start, x) && Done(x)
        ensures x.status.Completed?
      {
        var es :| After(start, es) == Some(x);
        WatchedThroughout(start, es);
      }
    } else {
      NeverCompletes(start);
    }
  }

  lemma NeverCompletes(start: World)
    requires Queued(start) && (start.status.Scheduled? || start.recipients == [])
    ensures exists x :: Reaches(start, x) && Done(x) && !x.status.Completed?
  {
    if start.status.Scheduled? {
      var y := PromotedTooLate(start);
    } else {
      Stays(start);
      assert Done(start);
    }
  }
}
