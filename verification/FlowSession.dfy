/** A flow session as the engine drives it, and the simulator's loop. */
module FlowSession {
  import opened Options
  import opened FlowRuns

  datatype Status = Active | Settled | Cancelled

  /** The row of flow_sessions, with the nodes its analytics events list. */
  class Session {
    const flow: Flow
    const oracle: Oracle
    var status: Status
    var current: Option<nat>
    var waitingForInput: bool
    var waitingUntil: bool
    var visited: seq<nat>

    constructor (flow: Flow, oracle: Oracle)
      ensures this.flow == flow && this.oracle == oracle && Fresh()
    {
      this.flow, this.oracle := flow, oracle;
      status, current, waitingForInput, waitingUntil, visited := Active, None, false, false, [];
    }

    predicate Fresh()
      reads this
    {
      status.Active? && current.None? && !waitingForInput && !waitingUntil && visited == []
    }

    /** The row says where the walk rests. */
    ghost predicate Shows(w: Walk)
      reads this
    {
      && visited == w.visited
      && (w.rest.AtInput? || w.rest.AtFlow? || w.rest.TakenOver? ==> visited != [] && current == Some(visited[|visited| - 1]))
      && match w.rest
         case AtDelay(at) => status.Active? && current == Some(at) && waitingUntil && !waitingForInput
         case AtInput => status.Active? && waitingForInput && !waitingUntil
         case TakenOver => status.Settled? && !waitingUntil
         case AtFlow => status.Active? && !waitingForInput && !waitingUntil
         case Completed => status.Settled? && !waitingUntil
    }

    /** Only an active session completes. */
    method CompleteSession()
      modifies this
      ensures status == (if old(status).Active? then Settled else old(status))
      ensures visited == old(visited) && waitingUntil == old(waitingUntil)
    {
      if status.Active? {
        status := Settled;
      }
    }

    /** `executeNode`, as far as it moves the session: parked, or the handle to follow. */
    method ExecuteNode(node: Node) returns (pause: bool, handle: Option<string>)
      requires status.Active? && current == Some(node.id) && visited != [] && visited[|visited| - 1] == node.id
      requires !waitingForInput && !waitingUntil
      modifies this
      ensures visited == old(visited)
      ensures pause <==> Parked(node.kind, node.id).Some?
      ensures !pause ==> status.Active? && !waitingForInput && !waitingUntil && handle == HandleAt(node.kind, oracle, visited)
      ensures pause ==> Shows(Walk(visited, Parked(node.kind, node.id).value))
    {
      pause, handle := true, None;
      match node.kind {
        case Delay => waitingUntil := true;
        case SmartDelay => waitingForInput := true;
        case HumanTakeover => status := Settled;
        case GoToFlow =>
        case Branch => pause, handle := false, Some(oracle(visited));
        case Plain | Trigger => pause := false;
      }
    }

    /** `traverseNodes` */
    method TraverseNodes(node: Node, depth: nat)
      requires status.Active? && !waitingForInput && !waitingUntil
      modifies this
      ensures Shows(Traverse(flow, oracle, old(visited), node, depth))
      decreases MAX_DEPTH - depth
    {
      if depth >= MAX_DEPTH {
        CompleteSession();
        return;
      }
      current := Some(node.id);
      visited := visited + [node.id];
      var pause, handle := ExecuteNode(node);
      if pause {
        return;
      }
      var nextEdge := if handle.Some? then FindEdge(flow.edges, node.id, Exactly(handle.value))
                      else FindEdge(flow.edges, node.id, Any);
      if nextEdge.None? {
        CompleteSession();
        return;
      }
      var next := FindNode(flow.nodes, nextEdge.value.target);
      if next.None? {
        CompleteSession();
        return;
      }
      TraverseNodes(next.value, depth + 1);
    }

    /** `executeFlow` from the trigger; a flow without a way in leaves the session as it is. */
    method ExecuteFlow() returns (started: bool)
      requires Fresh()
      modifies this
      ensures started <==> First(flow).Some?
      ensures started ==> Shows(Engine(flow, oracle, First(flow).value, 0))
      ensures !started ==> Fresh()
    {
      var trigger := FindTrigger(flow.nodes);
      if trigger.None? {
        return false;
      }
      var firstEdge := FindEdge(flow.edges, trigger.value.id, Any);
      if firstEdge.None? {
        return false;
      }
      var startNode := FindNode(flow.nodes, firstEdge.value.target);
      if startNode.None? {
        return false;
      }
      TraverseNodes(startNode.value, 0);
      return true;
    }

    /** `resumeSession`, once a delay is over or an answer came in */
    method ResumeSession()
      requires status.Active? && current.Some?
      modifies this
      ensures FindNode(flow.nodes, old(current).value).None? ==> status.Cancelled? && visited == old(visited)
      ensures FindNode(flow.nodes, old(current).value).Some? ==> Shows(Resumed(flow, oracle, old(visited), old(current).value))
    {
      waitingForInput, waitingUntil := false, false;
      var node := FindNode(flow.nodes, current.value);
      if node.None? {
        status := Cancelled;
        return;
      }
      var nextEdge := FindEdge(flow.edges, node.value.id, Any);
      if nextEdge.None? {
        CompleteSession();
        return;
      }
      var next := FindNode(flow.nodes, nextEdge.value.target);
      if next.None? {
        CompleteSession();
        return;
      }
      TraverseNodes(next.value, 0);
    }

    /** From its start on, resumed k times while it is parked at a delay, the session is the engine's walk. */
    method RunWithResumes(k: nat)
      requires Fresh() && First(flow).Some?
      modifies this
      ensures Shows(Engine(flow, oracle, First(flow).value, k))
    {
      hide Engine, Resumed;
      ghost var first := First(flow).value;
      var started := ExecuteFlow();
      var n := 0;
      while n < k && status.Active? && waitingUntil
        invariant n <= k && Shows(Engine(flow, oracle, first, n))
      {
        RestsAtNode(flow, oracle, first, n);
        NextResume(flow, oracle, first, n);
        ResumeSession();
        n := n + 1;
      }
      AtRest(flow, oracle, first, n, k);
    }
  }

  /** The node a flow starts with. */
  function First(f: Flow): Option<Node> {
    var trigger := FindTrigger(f.nodes);
    if trigger.None? then None else Target(f, FindEdge(f.edges, trigger.value.id, Any))
  }

  /** One resumption from a node. */
  function Resumed(f: Flow, oracle: Oracle, visited: seq<nat>, at: nat): Walk {
    var next := Target(f, EngineEdge(f, at, None));
    if next.None? then Walk(visited, Completed) else Traverse(f, oracle, visited, next.value, 0)
  }

  lemma {:induction false} NextResume(f: Flow, oracle: Oracle, first: Node, k: nat)
    ensures var w := Engine(f, oracle, first, k);
      Engine(f, oracle, first, k + 1) == if w.rest.AtDelay? then Resumed(f, oracle, w.visited, w.rest.at) else w
  {
    OneMore(f, oracle, Traverse(f, oracle, [], first, 0), k);
  }

  /** A walk that is not parked at a delay is not moved by resumptions. */
  lemma {:induction false} AtRest(f: Flow, oracle: Oracle, first: Node, n: nat, k: nat)
    requires n <= k && (n < k ==> !Engine(f, oracle, first, n).rest.AtDelay?)
    ensures Engine(f, oracle, first, k) == Engine(f, oracle, first, n)
  {
    hide Engine;
    if n < k {
      AtRest(f, oracle, first, n, k - 1);
      NextResume(f, oracle, first, k - 1);
    }
  }

  /** A delay a session is parked at is a node of the flow. */
  lemma {:induction false} RestsAtNode(f: Flow, oracle: Oracle, first: Node, k: nat)
    requires FindNode(f.nodes, first.id) == Some(first)
    ensures var w := Engine(f, oracle, first, k); w.rest.AtDelay? ==> FindNode(f.nodes, w.rest.at).Some?
  {
    hide FindNode, FindEdge;
    if k == 0 {
      TraverseRestsAtNode(f, oracle, [], first, 0);
    } else {
      RestsAtNode(f, oracle, first, k - 1);
      NextResume(f, oracle, first, k - 1);
      var w := Engine(f, oracle, first, k - 1);
      if w.rest.AtDelay? && Target(f, EngineEdge(f, w.rest.at, None)).Some? {
        TraverseRestsAtNode(f, oracle, w.visited, Target(f, EngineEdge(f, w.rest.at, None)).value, 0);
      }
    }
  }

  lemma {:induction false} TraverseRestsAtNode(f: Flow, oracle: Oracle, visited: seq<nat>, node: Node, depth: nat)
    requires FindNode(f.nodes, node.id) == Some(node)
    ensures var w := Traverse(f, oracle, visited, node, depth); w.rest.AtDelay? ==> FindNode(f.nodes, w.rest.at).Some?
    decreases MAX_DEPTH - depth
  {
    hide FindEdge;
    if depth < MAX_DEPTH {
      var next := NextOf(f, oracle, visited, node);
      if next.Some? {
        TraverseRestsAtNode(f, oracle, visited + [node.id], next.value, depth + 1);
      }
    }
  }

  lemma {:induction false} OneMore(f: Flow, oracle: Oracle, w: Walk, k: nat)
    ensures var x := WithResumes(f, oracle, w, k);
      WithResumes(f, oracle, w, k + 1) == if x.rest.AtDelay? then Resumed(f, oracle, x.visited, x.rest.at) else x
    decreases k
  {
    if k > 0 && w.rest.AtDelay? && Target(f, EngineEdge(f, w.rest.at, None)).Some? {
      OneMore(f, oracle, Resumed(f, oracle, w.visited, w.rest.at), k - 1);
    }
  }

  datatype Report = Report(visited: seq<nat>, stop: Stop, completed: bool)

  /** `simulateFlow` past its trigger */
  method Simulate(f: Flow, oracle: Oracle, first: nat) returns (r: Report)
    ensures Preview(r.visited, r.stop) == Simulated(f, oracle, [], first, MAX_STEPS)
    ensures r.completed <==> r.stop.Ended? || |r.visited| + (if r.stop.Missing? then 1 else 0) < MAX_STEPS
  {
    var id, steps, visited := first, 0, [];
    while steps < MAX_STEPS
      invariant 0 <= steps <= MAX_STEPS && steps == |visited|
      invariant Simulated(f, oracle, visited, id, MAX_STEPS - steps) == Simulated(f, oracle, [], first, MAX_STEPS)
    {
      steps := steps + 1;
      var node := FindNode(f.nodes, id);
      if node.None? {
        return Report(visited, Missing, steps < MAX_STEPS);
      }
      visited := visited + [id];
      if SimulatorPauses(node.value.kind) {
        return Report(visited, Paused, steps < MAX_STEPS);
      }
      var nextHandle := HandleAt(node.value.kind, oracle, visited);
      var nextEdge: Option<Edge> := None;
      if nextHandle.Some? && nextHandle.value != "" {
        nextEdge := FindEdge(f.edges, id, Exactly(nextHandle.value));
      }
      if nextEdge.None? {
        nextEdge := FindEdge(f.edges, id, Unhandled);
      }
      if nextEdge.None? {
        nextEdge := FindEdge(f.edges, id, Any);
      }
      if nextEdge.None? {
        return Report(visited, Ended, true);
      }
      id := nextEdge.value.target;
    }
    return Report(visited, Limit, false);
  }
}
