/**
 * The flow engine, which walks a flow recursively and parks at delays, and the simulator, which previews the walk in
 * one loop.
 */
module FlowRuns {
  import opened Options

  /** Nodes by what they do to the walk; a branch node asks for a handle, everything else is a plain step. */
  datatype Kind = Plain | Branch | Delay | SmartDelay | HumanTakeover | GoToFlow | Trigger

  datatype Node = Node(id: nat, kind: Kind)

  datatype Edge = Edge(source: nat, handle: Option<string>, target: nat)

  datatype Flow = Flow(nodes: seq<Node>, edges: seq<Edge>)

  /** Which handle a branch takes, given the nodes visited so far. */
  type Oracle = seq<nat> -> string

  const MAX_DEPTH := 50
  const MAX_STEPS := 50

  function FindNode(nodes: seq<Node>, id: nat): (n: Option<Node>)
    ensures n.Some? ==> n.value.id == id
    decreases |nodes|
  {
    if nodes == [] then None
    else if nodes[0].id == id then Some(nodes[0])
    else FindNode(nodes[1..], id)
  }

  function FindTrigger(nodes: seq<Node>): Option<Node>
    decreases |nodes|
  {
    if nodes == [] then None
    else if nodes[0].kind.Trigger? then Some(nodes[0])
    else FindTrigger(nodes[1..])
  }

  /** The edges `find` looks for: from a source, with a certain handle, without one, or any. */
  datatype Want = Exactly(handle: string) | Unhandled | Any

  predicate Wanted(e: Edge, source: nat, want: Want) {
    e.source == source &&
    match want
    case Exactly(handle) => e.handle == Some(handle)
    case Unhandled => e.handle.Or("") == ""
    case Any => true
  }

  function FindEdge(edges: seq<Edge>, source: nat, want: Want): (e: Option<Edge>)
    ensures e.Some? ==> Wanted(e.value, source, want) && e.value in edges
    ensures e.None? ==> forall i :: 0 <= i < |edges| ==> !Wanted(edges[i], source, want)
    decreases |edges|
  {
    if edges == [] then None
    else if Wanted(edges[0], source, want) then Some(edges[0])
    else FindEdge(edges[1..], source, want)
  }

  /** The engine follows the handle it was given and no other edge. */
  function EngineEdge(f: Flow, id: nat, handle: Option<string>): Option<Edge> {
    FindEdge(f.edges, id, if handle.Some? then Exactly(handle.value) else Any)
  }

  /** The simulator falls back to an edge without a handle, and then to any. */
  function SimulatorEdge(f: Flow, id: nat, handle: Option<string>): Option<Edge> {
    var exact := if handle.Or("") != "" then FindEdge(f.edges, id, Exactly(handle.value)) else None;
    var unhandled := if exact.Some? then exact else FindEdge(f.edges, id, Unhandled);
    if unhandled.Some? then unhandled else FindEdge(f.edges, id, Any)
  }

  function HandleAt(kind: Kind, oracle: Oracle, visited: seq<nat>): Option<string> {
    if kind.Branch? then Some(oracle(visited)) else None
  }

  // ---------------------------------------------------------------------------
  // The engine
  // ---------------------------------------------------------------------------

  /** How a walk of the engine stops. */
  datatype Rest = AtDelay(at: nat) | AtInput | TakenOver | AtFlow | Completed

  datatype Walk = Walk(visited: seq<nat>, rest: Rest)

  function Parked(kind: Kind, id: nat): Option<Rest> {
    match kind
    case Delay => Some(AtDelay(id))
    case SmartDelay => Some(AtInput)
    case HumanTakeover => Some(TakenOver)
    case GoToFlow => Some(AtFlow)
    case _ => None
  }

  function Traverse(f: Flow, oracle: Oracle, visited: seq<nat>, node: Node, depth: nat): (w: Walk)
    ensures visited <= w.visited
    decreases MAX_DEPTH - depth
  {
    if depth >= MAX_DEPTH then Walk(visited, Completed)
    else
      var more := visited + [node.id];
      var parked := Parked(node.kind, node.id);
      if parked.Some? then Walk(more, parked.value)
      else
        var next := Target(f, EngineEdge(f, node.id, HandleAt(node.kind, oracle, more)));
        if next.None? then Walk(more, Completed) else Traverse(f, oracle, more, next.value, depth + 1)
  }

  function Target(f: Flow, e: Option<Edge>): Option<Node> {
    if e.None? then None else FindNode(f.nodes, e.value.target)
  }

  /** A walk and then up to k resumptions, each from the delay the session is parked at. */
  function WithResumes(f: Flow, oracle: Oracle, w: Walk, k: nat): (x: Walk)
    ensures w.visited <= x.visited
    decreases k
  {
    if k == 0 || !w.rest.AtDelay? then w
    else
      var next := Target(f, EngineEdge(f, w.rest.at, None));
      if next.None? then Walk(w.visited, Completed)
      else WithResumes(f, oracle, Traverse(f, oracle, w.visited, next.value, 0), k - 1)
  }

  /** The engine from the first node, with its k-th resumption behind it. */
  function Engine(f: Flow, oracle: Oracle, first: Node, k: nat): Walk {
    WithResumes(f, oracle, Traverse(f, oracle, [], first, 0), k)
  }

  // ---------------------------------------------------------------------------
  // The simulator
  // ---------------------------------------------------------------------------

  datatype Stop = Limit | Missing | Paused | Ended

  datatype Preview = Preview(visited: seq<nat>, stop: Stop)

  predicate SimulatorPauses(kind: Kind) {
    kind.SmartDelay? || kind.HumanTakeover? || kind.GoToFlow?
  }

  function Simulated(f: Flow, oracle: Oracle, visited: seq<nat>, id: nat, left: nat): (p: Preview)
    ensures visited <= p.visited && |p.visited| <= |visited| + left
    decreases left
  {
    if left == 0 then Preview(visited, Limit)
    else
      var node := FindNode(f.nodes, id);
      if node.None? then Preview(visited, Missing)
      else
        var more := visited + [id];
        if SimulatorPauses(node.value.kind) then Preview(more, Paused)
        else
          var e := SimulatorEdge(f, id, HandleAt(node.value.kind, oracle, more));
          if e.None? then Preview(more, Ended) else Simulated(f, oracle, more, e.value.target, left - 1)
  }

  // ---------------------------------------------------------------------------
  // Where they choose the same edge
  // ---------------------------------------------------------------------------

  /** The first edge out is one without a handle, or all have one. */
  predicate PlainExit(f: Flow, id: nat) {
    var first := FindEdge(f.edges, id, Any);
    first.None? || first.value.handle.Or("") == "" || FindEdge(f.edges, id, Unhandled).None?
  }

  /** The handle has its edge, or the node has no edge at all. An empty handle name is no handle to the simulator. */
  predicate HandledExit(f: Flow, id: nat, handle: string) {
    || FindEdge(f.edges, id, Any).None?
    || (if handle != "" then FindEdge(f.edges, id, Exactly(handle)).Some?
        else FindEdge(f.edges, id, Unhandled).Some? && FindEdge(f.edges, id, Unhandled).value.handle == Some(""))
  }

  predicate SameExit(f: Flow, id: nat, handle: Option<string>) {
    match handle
    case None => PlainExit(f, id)
    case Some(h) => HandledExit(f, id, h)
  }

  lemma {:induction false} FirstUnhandled(edges: seq<Edge>, id: nat)
    ensures FindEdge(edges, id, Any).Some? && FindEdge(edges, id, Any).value.handle.Or("") == "" ==>
      FindEdge(edges, id, Unhandled) == FindEdge(edges, id, Any)
    ensures FindEdge(edges, id, Unhandled).Some? && FindEdge(edges, id, Unhandled).value.handle == Some("") ==>
      FindEdge(edges, id, Exactly("")) == FindEdge(edges, id, Unhandled)
    decreases |edges|
  {
    if edges != [] {
      FirstUnhandled(edges[1..], id);
    }
  }

  lemma NothingOut(edges: seq<Edge>, id: nat, want: Want)
    requires FindEdge(edges, id, Any).None?
    ensures FindEdge(edges, id, want).None?
  {
    assert forall e :: Wanted(e, id, want) ==> Wanted(e, id, Any);
  }

  /** The simulator chooses the engine's edge exactly where the flow leaves no room for its fallbacks. */
  lemma SameEdgeExactly(f: Flow, id: nat, handle: Option<string>)
    ensures EngineEdge(f, id, handle) == SimulatorEdge(f, id, handle) <==> SameExit(f, id, handle)
  {
    FirstUnhandled(f.edges, id);
    if FindEdge(f.edges, id, Any).None? {
      NothingOut(f.edges, id, Unhandled);
      NothingOut(f.edges, id, Exactly(handle.Or("")));
    }
  }

  // ---------------------------------------------------------------------------
  // The preview against the walk
  // ---------------------------------------------------------------------------

  /** Where the engine goes from a node, with it among the nodes visited. */
  function NextOf(f: Flow, oracle: Oracle, visited: seq<nat>, node: Node): (next: Option<Node>)
    ensures next.Some? ==> FindNode(f.nodes, next.value.id) == next
  {
    Target(f, EngineEdge(f, node.id, HandleAt(node.kind, oracle, visited + [node.id])))
  }

  /** Where the simulator goes. */
  function PreviewOf(f: Flow, oracle: Oracle, visited: seq<nat>, node: Node): (next: Option<Node>)
    ensures next.Some? ==> FindNode(f.nodes, next.value.id) == next
  {
    Target(f, SimulatorEdge(f, node.id, HandleAt(node.kind, oracle, visited + [node.id])))
  }

  /** At every node that the walk leaves within so many steps, engine and simulator go to the same place. */
  predicate Agrees(f: Flow, oracle: Oracle, visited: seq<nat>, node: Node, left: nat)
    decreases left
  {
    left <= 1 || SimulatorPauses(node.kind) ||
    (var next := NextOf(f, oracle, visited, node);
     next == PreviewOf(f, oracle, visited, node) &&
     (next.Some? ==> Agrees(f, oracle, visited + [node.id], next.value, left - 1)))
  }

  /** The two stop for the same reason. */
  predicate SameEnd(stop: Stop, rest: Rest) {
    match stop
    case Limit => true
    case Paused => rest.AtInput? || rest.TakenOver? || rest.AtFlow?
    case Missing | Ended => rest.Completed?
  }

  /** What the preview has to do with a walk resumed k times. */
  predicate Previews(p: Preview, w: Walk, enough: bool) {
    && (p.visited <= w.visited || w.visited <= p.visited)
    && (enough ==> p.visited <= w.visited)
    && (enough && !p.stop.Limit? ==> p.visited == w.visited && SameEnd(p.stop, w.rest))
  }

  /** The next node is one for both: the preview and the walk go on from it. */
  lemma OverStep(f: Flow, oracle: Oracle, visited: seq<nat>, node: Node, depth: nat, left: nat, next: Node)
    requires FindNode(f.nodes, node.id) == Some(node) && left > 0 && depth < MAX_DEPTH && Parked(node.kind, node.id).None?
    requires NextOf(f, oracle, visited, node) == PreviewOf(f, oracle, visited, node) == Some(next)
    ensures Simulated(f, oracle, visited, node.id, left) == Simulated(f, oracle, visited + [node.id], next.id, left - 1)
    ensures Traverse(f, oracle, visited, node, depth) == Traverse(f, oracle, visited + [node.id], next, depth + 1)
  {
    hide FindNode, EngineEdge, SimulatorEdge;
  }

  lemma OverDelay(f: Flow, oracle: Oracle, visited: seq<nat>, node: Node, depth: nat, left: nat, k: nat, next: Node)
    requires FindNode(f.nodes, node.id) == Some(node) && left > 0 && depth < MAX_DEPTH && node.kind.Delay? && k > 0
    requires NextOf(f, oracle, visited, node) == PreviewOf(f, oracle, visited, node) == Some(next)
    ensures Simulated(f, oracle, visited, node.id, left) == Simulated(f, oracle, visited + [node.id], next.id, left - 1)
    ensures WithResumes(f, oracle, Traverse(f, oracle, visited, node, depth), k) ==
      WithResumes(f, oracle, Traverse(f, oracle, visited + [node.id], next, 0), k - 1)
  {
    hide FindNode, EngineEdge, SimulatorEdge;
    assert Traverse(f, oracle, visited, node, depth) == Walk(visited + [node.id], AtDelay(node.id));
  }

  /** What the simulator shows first: the node, and with two steps left the one it goes to. */
  lemma PreviewStarts(f: Flow, oracle: Oracle, visited: seq<nat>, node: Node, left: nat)
    requires FindNode(f.nodes, node.id) == Some(node) && left > 0
    ensures var p := Simulated(f, oracle, visited, node.id, left);
      var next := PreviewOf(f, oracle, visited, node);
      && visited + [node.id] <= p.visited
      && (SimulatorPauses(node.kind) ==> p == Preview(visited + [node.id], Paused))
      && (!SimulatorPauses(node.kind) && next.None? ==> p.visited == visited + [node.id] && !p.stop.Paused?)
      && (!SimulatorPauses(node.kind) && next.None? && left > 1 ==> !p.stop.Limit?)
      && (!SimulatorPauses(node.kind) && next.Some? && left > 1 ==> visited + [node.id] + [next.value.id] <= p.visited)
  {
    hide FindNode, SimulatorEdge;
  }

  /** What the engine does first, with a resumption to spare if the node is a delay. */
  lemma WalkStarts(f: Flow, oracle: Oracle, visited: seq<nat>, node: Node, depth: nat, k: nat)
    requires depth < MAX_DEPTH
    ensures var w := WithResumes(f, oracle, Traverse(f, oracle, visited, node, depth), k);
      var next := NextOf(f, oracle, visited, node);
      && visited + [node.id] <= w.visited
      && (SimulatorPauses(node.kind) ==> w.visited == visited + [node.id] && SameEnd(Paused, w.rest))
      && (node.kind.Delay? && k == 0 ==> w.visited == visited + [node.id])
      && (!SimulatorPauses(node.kind) && next.None? && (node.kind.Delay? ==> k > 0) ==> w == Walk(visited + [node.id], Completed))
      && (!SimulatorPauses(node.kind) && next.Some? && (if node.kind.Delay? then k > 0 else depth + 1 < MAX_DEPTH) ==>
            visited + [node.id] + [next.value.id] <= w.visited)
  {
    hide FindNode, EngineEdge;
    var w := Traverse(f, oracle, visited, node, depth);
    if node.kind.Delay? {
      assert w == Walk(visited + [node.id], AtDelay(node.id));
    }
  }

  lemma PreviewEndsOnly(f: Flow, oracle: Oracle, visited: seq<nat>, node: Node)
    requires FindNode(f.nodes, node.id) == Some(node) && !SimulatorPauses(node.kind)
    requires !Simulated(f, oracle, visited, node.id, 1).stop.Limit?
    ensures NextOf(f, oracle, visited, node).None? && PreviewOf(f, oracle, visited, node).None?
  {
    var handle := HandleAt(node.kind, oracle, visited + [node.id]);
    assert SimulatorEdge(f, node.id, handle).None?;
    SameEdgeExactly(f, node.id, handle);
  }

  /** Both stop at this node, or one has nothing left to go on with. */
  lemma StopsHere(f: Flow, oracle: Oracle, visited: seq<nat>, node: Node, depth: nat, left: nat, k: nat)
    requires FindNode(f.nodes, node.id) == Some(node) && left > 0 && depth < MAX_DEPTH
    requires left == 1 || SimulatorPauses(node.kind) || (node.kind.Delay? && k == 0)
      || (NextOf(f, oracle, visited, node).None? && PreviewOf(f, oracle, visited, node).None?)
    ensures Previews(Simulated(f, oracle, visited, node.id, left),
                     WithResumes(f, oracle, Traverse(f, oracle, visited, node, depth), k), k >= left)
  {
    hide Simulated, Traverse, WithResumes, NextOf, PreviewOf, FindNode;
    PreviewStarts(f, oracle, visited, node, left);
    WalkStarts(f, oracle, visited, node, depth, k);
    if left == 1 && !SimulatorPauses(node.kind) {
      OneStep(f, oracle, visited, node);
      if !Simulated(f, oracle, visited, node.id, 1).stop.Limit? {
        PreviewEndsOnly(f, oracle, visited, node);
      }
    }
  }

  lemma OneStep(f: Flow, oracle: Oracle, visited: seq<nat>, node: Node)
    requires FindNode(f.nodes, node.id) == Some(node)
    ensures Simulated(f, oracle, visited, node.id, 1).visited == visited + [node.id]
  {
    hide FindNode, SimulatorEdge;
  }

  /** While the two agree, the preview is the beginning of the walk, and all of it unless it reaches its limit. */
  lemma {:induction false} PreviewFollows(f: Flow, oracle: Oracle, visited: seq<nat>, node: Node, depth: nat, left: nat, k: nat)
    requires FindNode(f.nodes, node.id) == Some(node) && depth + left <= MAX_DEPTH && Agrees(f, oracle, visited, node, left)
    ensures Previews(Simulated(f, oracle, visited, node.id, left),
                     WithResumes(f, oracle, Traverse(f, oracle, visited, node, depth), k), k >= left)
    decreases left
  {
    hide FindNode, NextOf, PreviewOf, Simulated, Traverse, WithResumes;
    if left == 0 {
      NoStepsLeft(f, oracle, visited, node, depth, k);
    } else {
      var next := NextOf(f, oracle, visited, node);
      if left == 1 || SimulatorPauses(node.kind) || (node.kind.Delay? && k == 0) || next.None? {
        StopsHere(f, oracle, visited, node, depth, left, k);
      } else if node.kind.Delay? {
        PreviewFollows(f, oracle, visited + [node.id], next.value, 0, left - 1, k - 1);
        OverDelay(f, oracle, visited, node, depth, left, k, next.value);
      } else {
        PreviewFollows(f, oracle, visited + [node.id], next.value, depth + 1, left - 1, k);
        OverStep(f, oracle, visited, node, depth, left, next.value);
      }
    }
  }

  lemma NoStepsLeft(f: Flow, oracle: Oracle, visited: seq<nat>, node: Node, depth: nat, k: nat)
    ensures Previews(Simulated(f, oracle, visited, node.id, 0),
                     WithResumes(f, oracle, Traverse(f, oracle, visited, node, depth), k), true)
  {
    hide Traverse, WithResumes;
  }

  /** Where they go to different places, the preview is wrong, however often the walk is resumed. */
  lemma {:induction false} PreviewDiverges(f: Flow, oracle: Oracle, visited: seq<nat>, node: Node, depth: nat, left: nat, k: nat)
    requires FindNode(f.nodes, node.id) == Some(node) && depth + left <= MAX_DEPTH && k >= left
    requires !Agrees(f, oracle, visited, node, left)
    ensures !Previews(Simulated(f, oracle, visited, node.id, left),
                      WithResumes(f, oracle, Traverse(f, oracle, visited, node, depth), k), true)
    decreases left
  {
    hide FindNode, NextOf, PreviewOf, Simulated, Traverse, WithResumes, Previews;
    var next := NextOf(f, oracle, visited, node);
    if next != PreviewOf(f, oracle, visited, node) {
      PartHere(f, oracle, visited, node, depth, left, k);
    } else if node.kind.Delay? {
      PreviewDiverges(f, oracle, visited + [node.id], next.value, 0, left - 1, k - 1);
      OverDelay(f, oracle, visited, node, depth, left, k, next.value);
    } else {
      PreviewDiverges(f, oracle, visited + [node.id], next.value, depth + 1, left - 1, k);
      OverStep(f, oracle, visited, node, depth, left, next.value);
    }
  }

  lemma PartHere(f: Flow, oracle: Oracle, visited: seq<nat>, node: Node, depth: nat, left: nat, k: nat)
    requires FindNode(f.nodes, node.id) == Some(node) && depth + left <= MAX_DEPTH && k >= left > 1 && !SimulatorPauses(node.kind)
    requires NextOf(f, oracle, visited, node) != PreviewOf(f, oracle, visited, node)
    ensures !Previews(Simulated(f, oracle, visited, node.id, left),
                      WithResumes(f, oracle, Traverse(f, oracle, visited, node, depth), k), true)
  {
    hide FindNode, NextOf, PreviewOf, Simulated, Traverse, WithResumes;
    PreviewStarts(f, oracle, visited, node, left);
    WalkStarts(f, oracle, visited, node, depth, k);
    var p := Simulated(f, oracle, visited, node.id, left).visited;
    var w := WithResumes(f, oracle, Traverse(f, oracle, visited, node, depth), k).visited;
    var engine, preview := NextOf(f, oracle, visited, node), PreviewOf(f, oracle, visited, node);
    var at := |visited| + 1;
    if engine.Some? && preview.Some? {
      assert engine.value.id != preview.value.id;
      assert w[at] == engine.value.id && p[at] == preview.value.id;
    } else if engine.Some? {
      assert |w| > |p|;
    } else {
      assert |p| > |w|;
    }
  }

  /** From any node, with any steps left: the preview holds exactly when engine and simulator agree along the walk. */
  lemma PreviewExactly(f: Flow, oracle: Oracle, visited: seq<nat>, node: Node, depth: nat, left: nat, k: nat)
    requires FindNode(f.nodes, node.id) == Some(node) && depth + left <= MAX_DEPTH && k >= left
    ensures Previews(Simulated(f, oracle, visited, node.id, left),
                     WithResumes(f, oracle, Traverse(f, oracle, visited, node, depth), k), true)
      <==> Agrees(f, oracle, visited, node, left)
  {
    hide Simulated, Traverse, WithResumes, Previews, Agrees, FindNode;
    if Agrees(f, oracle, visited, node, left) {
      PreviewFollows(f, oracle, visited, node, depth, left, k);
    } else {
      PreviewDiverges(f, oracle, visited, node, depth, left, k);
    }
  }

  /**
   * The simulator shows what the engine will do - its nodes are the beginning of the engine's walk continued over its
   * delays, and all of it with the same end when the simulator stays under its limit - exactly when the two go to the
   * same place from every node the walk leaves. Before all delays are over, what is walked and what is shown never differ.
   */
  lemma PreviewIsFaithful(f: Flow, oracle: Oracle, first: Node, k: nat)
    requires FindNode(f.nodes, first.id) == Some(first)
    ensures k >= MAX_STEPS ==>
      Previews(Simulated(f, oracle, [], first.id, MAX_STEPS), Engine(f, oracle, first, k), true) ==
      Agrees(f, oracle, [], first, MAX_STEPS)
    ensures Agrees(f, oracle, [], first, MAX_STEPS) ==>
      Previews(Simulated(f, oracle, [], first.id, MAX_STEPS), Engine(f, oracle, first, k), k >= MAX_STEPS)
  {
    hide Simulated, Traverse, WithResumes, Previews, Agrees, FindNode;
    if k >= MAX_STEPS {
      PreviewExactly(f, oracle, [], first, 0, MAX_STEPS, k);
    }
    if Agrees(f, oracle, [], first, MAX_STEPS) {
      PreviewFollows(f, oracle, [], first, 0, MAX_STEPS, k);
    }
  }

  /** Whether and how a walk is parked is decided by the kind of the last node it visits. */
  lemma {:induction false} RestIsByLastNode(f: Flow, oracle: Oracle, visited: seq<nat>, node: Node, depth: nat)
    requires FindNode(f.nodes, node.id) == Some(node) && depth < MAX_DEPTH
    ensures var w := Traverse(f, oracle, visited, node, depth);
      && |visited| < |w.visited| <= |visited| + MAX_DEPTH - depth
      && var last := FindNode(f.nodes, w.visited[|w.visited| - 1]);
         && last.Some?
         && (last.value.kind.Delay? <==> w.rest == AtDelay(last.value.id))
         && (last.value.kind.SmartDelay? <==> w.rest.AtInput?)
         && (last.value.kind.HumanTakeover? <==> w.rest.TakenOver?)
         && (last.value.kind.GoToFlow? <==> w.rest.AtFlow?)
         && (w.rest.Completed? && |w.visited| < |visited| + MAX_DEPTH - depth ==>
               Target(f, EngineEdge(f, last.value.id, HandleAt(last.value.kind, oracle, w.visited))).None?)
    decreases MAX_DEPTH - depth
  {
    hide FindNode, EngineEdge;
    var next := NextOf(f, oracle, visited, node);
    if Parked(node.kind, node.id).None? && next.Some? {
      if depth + 1 < MAX_DEPTH {
        RestIsByLastNode(f, oracle, visited + [node.id], next.value, depth + 1);
      } else {
        assert Traverse(f, oracle, visited, node, depth) == Walk(visited + [node.id], Completed);
      }
    }
  }

  // ---------------------------------------------------------------------------
  // What a flow must have for them to agree
  // ---------------------------------------------------------------------------

  /** Every exit the walk takes leaves no room for the simulator's fallbacks. */
  predicate ClearPath(f: Flow, oracle: Oracle, visited: seq<nat>, node: Node, left: nat)
    decreases left
  {
    left <= 1 || SimulatorPauses(node.kind) ||
    (&& SameExit(f, node.id, HandleAt(node.kind, oracle, visited + [node.id]))
     && (NextOf(f, oracle, visited, node).Some? ==>
           ClearPath(f, oracle, visited + [node.id], NextOf(f, oracle, visited, node).value, left - 1)))
  }

  /** Edges lead to nodes of the flow, and no two edges lead from one node to the same place. */
  ghost predicate Tidy(f: Flow) {
    && (forall e :: e in f.edges ==> FindNode(f.nodes, e.target).Some?)
    && (forall e, g :: e in f.edges && g in f.edges && e.source == g.source && e.target == g.target ==> e == g)
  }

  lemma SamePlace(f: Flow, oracle: Oracle, visited: seq<nat>, node: Node)
    requires Tidy(f) && NextOf(f, oracle, visited, node) == PreviewOf(f, oracle, visited, node)
    ensures SameExit(f, node.id, HandleAt(node.kind, oracle, visited + [node.id]))
  {
    hide SameExit;
    var handle := HandleAt(node.kind, oracle, visited + [node.id]);
    SameEdgeExactly(f, node.id, handle);
  }

  /** A clear path makes them agree; in a tidy flow nothing else does. */
  lemma {:induction false} ClearPathAgrees(f: Flow, oracle: Oracle, visited: seq<nat>, node: Node, left: nat)
    ensures ClearPath(f, oracle, visited, node, left) ==> Agrees(f, oracle, visited, node, left)
    ensures Tidy(f) ==> (Agrees(f, oracle, visited, node, left) <==> ClearPath(f, oracle, visited, node, left))
    decreases left
  {
    hide SameExit, Tidy, EngineEdge, SimulatorEdge, FindNode;
    if left > 1 {
      var next := NextOf(f, oracle, visited, node);
      SameEdgeExactly(f, node.id, HandleAt(node.kind, oracle, visited + [node.id]));
      if Tidy(f) && next == PreviewOf(f, oracle, visited, node) {
        SamePlace(f, oracle, visited, node);
      }
      if next.Some? {
        ClearPathAgrees(f, oracle, visited + [node.id], next.value, left - 1);
      }
    }
  }

  /** Whatever handle a branch asks for, given the nodes visited up to it, it has an edge for it; other exits are plain. */
  ghost predicate Covered(f: Flow, oracle: Oracle) {
    forall visited: seq<nat>, id :: CoveredAt(f, oracle, visited, id)
  }

  predicate CoveredAt(f: Flow, oracle: Oracle, visited: seq<nat>, id: nat) {
    FindNode(f.nodes, id).Some? ==> SameExit(f, id, HandleAt(FindNode(f.nodes, id).value.kind, oracle, visited + [id]))
  }

  /** A flow whose branches have an edge for every handle they take is previewed faithfully. */
  lemma {:induction false} CoveredAgrees(f: Flow, oracle: Oracle, visited: seq<nat>, node: Node, left: nat)
    requires Covered(f, oracle) && FindNode(f.nodes, node.id) == Some(node)
    ensures ClearPath(f, oracle, visited, node, left)
    decreases left
  {
    hide SameExit, EngineEdge, FindNode;
    if left > 1 {
      assert CoveredAt(f, oracle, visited, node.id);
      if NextOf(f, oracle, visited, node).Some? {
        CoveredAgrees(f, oracle, visited + [node.id], NextOf(f, oracle, visited, node).value, left - 1);
      }
    }
  }

  /** A branch that takes a handle without an edge: the engine ends the flow there, the simulator walks on along another. */
  lemma FallbackMisleads(f: Flow, oracle: Oracle, visited: seq<nat>, node: Node, depth: nat, left: nat, k: nat)
    requires FindNode(f.nodes, node.id) == Some(node) && node.kind.Branch? && depth < MAX_DEPTH && left > 1
    requires FindEdge(f.edges, node.id, Exactly(oracle(visited + [node.id]))).None? && PreviewOf(f, oracle, visited, node).Some?
    ensures WithResumes(f, oracle, Traverse(f, oracle, visited, node, depth), k) == Walk(visited + [node.id], Completed)
    ensures visited + [node.id] + [PreviewOf(f, oracle, visited, node).value.id] <= Simulated(f, oracle, visited, node.id, left).visited
  {
    hide FindNode, SimulatorEdge;
    PreviewStarts(f, oracle, visited, node, left);
    WalkStarts(f, oracle, visited, node, depth, k);
  }
}
