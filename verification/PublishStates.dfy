/** The publish states of a variant, the legal moves between them, and the search for a path of legal moves. */
module PublishStates {
  import opened Options

  datatype PublishState = Draft | Scheduled | Queued | Publishing | Published | Failed | Cancelled

  type Table<!T> = map<T, seq<T>>

  function Legal(): Table<PublishState> {
    map[
      Draft := [Scheduled],
      Scheduled := [Draft, Queued, Publishing, Cancelled, PublishState.Failed],
      Queued := [Draft, Publishing, Cancelled, PublishState.Failed],
      Publishing := [Published, PublishState.Failed, Queued, Cancelled],
      Published := [],
      PublishState.Failed := [Draft, Scheduled, Cancelled],
      Cancelled := [Draft, Scheduled]
    ]
  }

  /** The only states a path may pass through. */
  function Hops(): set<PublishState> {
    {Scheduled, Publishing}
  }

  predicate LegalMove(a: PublishState, b: PublishState) {
    a in Legal() && b in Legal()[a]
  }

  ghost predicate Total<T>(legal: Table<T>) {
    forall s, i :: s in legal && 0 <= i < |legal[s]| ==> legal[s][i] in legal
  }

  function Before<T>(from: T, path: seq<T>, i: nat): T
    requires i <= |path|
  {
    if i == 0 then from else path[i - 1]
  }

  /** The state in which a walk ends. */
  function End<T>(from: T, path: seq<T>): T {
    Before(from, path, |path|)
  }

  /** Every step of the walk is in the table. */
  ghost predicate LegalWalk<T>(legal: Table<T>, from: T, path: seq<T>) {
    forall i :: 0 <= i < |path| ==>
      Before(from, path, i) in legal && path[i] in legal[Before(from, path, i)]
  }

  ghost predicate AllIn<T>(hops: set<T>, path: seq<T>) {
    forall i :: 0 <= i < |path| ==> path[i] in hops
  }

  /** A legal walk from `from` to `to` whose inner states are all hops. */
  ghost predicate Admissible<T>(legal: Table<T>, hops: set<T>, from: T, to: T, path: seq<T>) {
    && LegalWalk(legal, from, path)
    && End(from, path) == to
    && (path != [] ==> AllIn(hops, path[..|path| - 1]))
  }

  datatype Entry<T> = Entry(s: T, path: seq<T>)

  ghost predicate Waiting<T>(queue: seq<Entry<T>>, s: T) {
    exists i :: 0 <= i < |queue| && queue[i].s == s
  }

  /** Every state reached is expanded or waits to be. */
  ghost predicate Covered<T>(depth: map<T, nat>, done: set<T>, queue: seq<Entry<T>>) {
    forall x :: x in depth ==> x in done || Waiting(queue, x)
  }

  /** A queue entry is a legal walk through hops, as long as the recorded depth of its state. */
  ghost predicate Sound<T>(legal: Table<T>, hops: set<T>, from: T, depth: map<T, nat>, e: Entry<T>) {
    && LegalWalk(legal, from, e.path)
    && AllIn(hops, e.path)
    && End(from, e.path) == e.s
    && e.s in legal
    && e.s in depth
    && depth[e.s] == |e.path|
  }

  /** One successor of an expanded state: it is not the goal, and a hop has been reached one step later at most. */
  ghost predicate Expanded<T>(hops: set<T>, to: T, depth: map<T, nat>, u: T, v: T)
    requires u in depth
  {
    v != to && (v in hops ==> v in depth && depth[v] <= depth[u] + 1)
  }

  /** The first k successors of s have been looked at. */
  ghost predicate Scanned<T>(legal: Table<T>, hops: set<T>, to: T, depth: map<T, nat>, s: T, k: nat) {
    s in legal && s in depth && k <= |legal[s]| && forall j :: 0 <= j < k ==> Expanded(hops, to, depth, s, legal[s][j])
  }

  ghost predicate Done<T>(legal: Table<T>, hops: set<T>, to: T, depth: map<T, nat>, done: set<T>) {
    forall u :: u in done ==>
      u in legal && u in depth && Scanned(legal, hops, to, depth, u, |legal[u]|)
  }

  /** The state of the search while states at depth `level` are being expanded. */
  ghost predicate Frontier<T>(legal: Table<T>, hops: set<T>, from: T, to: T, depth: map<T, nat>, done: set<T>,
                              queue: seq<Entry<T>>, level: nat) {
    && from in depth && depth[from] == 0 && to !in depth
    && (forall i :: 0 <= i < |queue| ==> Sound(legal, hops, from, depth, queue[i]))
    && (forall i :: 0 <= i < |queue| ==> level <= |queue[i].path| <= level + 1)
    && (forall i, j :: 0 <= i < j < |queue| ==> |queue[i].path| <= |queue[j].path|)
    && Done(legal, hops, to, depth, done)
    && (forall x :: x in depth ==> depth[x] <= level + 1)
    && (forall x :: x in depth && depth[x] < level ==> x in done)
    && (forall x :: x in done ==> depth[x] <= level)
  }

  /** A walk through hops cannot reach a state sooner than the search recorded. */
  lemma {:induction false} WalkDepth<T>(legal: Table<T>, hops: set<T>, from: T, to: T, depth: map<T, nat>, done: set<T>,
                                        bound: nat, walk: seq<T>)
    requires from in depth && depth[from] == 0
    requires Done(legal, hops, to, depth, done)
    requires forall s :: s in depth && depth[s] < bound ==> s in done
    requires LegalWalk(legal, from, walk) && AllIn(hops, walk) && |walk| <= bound
    ensures End(from, walk) in depth && depth[End(from, walk)] <= |walk|
  {
    if walk != [] {
      var front := walk[..|walk| - 1];
      assert forall i :: 0 <= i <= |front| ==> Before(from, front, i) == Before(from, walk, i);
      WalkDepth(legal, hops, from, to, depth, done, bound, front);
      var u := End(from, front);
      var v := walk[|walk| - 1];
      assert u == Before(from, walk, |walk| - 1) && v in legal[u];
      var k :| 0 <= k < |legal[u]| && legal[u][k] == v;
      assert Expanded(hops, to, depth, u, legal[u][k]);
    }
  }

  /** Nothing at most `bound` long reaches the goal once all states nearer than `bound` are expanded. */
  lemma NoShorter<T>(legal: Table<T>, hops: set<T>, from: T, to: T, depth: map<T, nat>, done: set<T>, bound: nat, q: seq<T>)
    requires from != to && from in depth && depth[from] == 0
    requires Done(legal, hops, to, depth, done)
    requires forall s :: s in depth && depth[s] < bound ==> s in done
    requires Admissible(legal, hops, from, to, q)
    ensures bound < |q|
  {
    if |q| <= bound {
      var front := q[..|q| - 1];
      assert forall i :: 0 <= i <= |front| ==> Before(from, front, i) == Before(from, q, i);
      WalkDepth(legal, hops, from, to, depth, done, bound, front);
      assert false;
    }
  }

  /** With nothing left to expand, nothing reaches the goal. */
  lemma Exhausted<T>(legal: Table<T>, hops: set<T>, from: T, to: T, depth: map<T, nat>, done: set<T>, level: nat, q: seq<T>)
    requires from != to && Frontier(legal, hops, from, to, depth, done, [], level)
    requires forall x :: x in depth ==> x in done
    ensures !Admissible(legal, hops, from, to, q)
  {
    if Admissible(legal, hops, from, to, q) {
      NoShorter(legal, hops, from, to, depth, done, |q|, q);
    }
  }

  lemma Extend<T>(legal: Table<T>, hops: set<T>, from: T, path: seq<T>, v: T)
    requires LegalWalk(legal, from, path) && AllIn(hops, path)
    requires End(from, path) in legal && v in legal[End(from, path)]
    ensures LegalWalk(legal, from, path + [v]) && End(from, path + [v]) == v
    ensures (path + [v])[..|path + [v]| - 1] == path
    ensures v in hops ==> AllIn(hops, path + [v])
  {
    var longer := path + [v];
    assert forall i :: 0 <= i <= |path| ==> Before(from, longer, i) == Before(from, path, i);
  }

  /** Taking the first entry moves the search to that entry's depth. */
  lemma Take<T>(legal: Table<T>, hops: set<T>, from: T, to: T, depth: map<T, nat>, done: set<T>,
                queue: seq<Entry<T>>, level: nat)
    requires Frontier(legal, hops, from, to, depth, done, queue, level) && queue != []
    requires Covered(depth, done, queue)
    ensures Frontier(legal, hops, from, to, depth, done, queue[1..], |queue[0].path|)
    ensures Covered(depth, done + {queue[0].s}, queue[1..])
  {
    forall x | x in depth && x !in done
      ensures |queue[0].path| <= depth[x]
      ensures x != queue[0].s ==> Waiting(queue[1..], x)
    {
      var i :| 0 <= i < |queue| && queue[i].s == x;
      assert Sound(legal, hops, from, depth, queue[i]);
      if i > 0 {
        assert queue[1..][i - 1].s == x;
      }
    }
  }

  /** Recording a new state does not undo the successors already looked at. */
  lemma ScanKept<T>(legal: Table<T>, hops: set<T>, to: T, depth: map<T, nat>, s: T, k: nat, v: T, d: nat)
    requires Scanned(legal, hops, to, depth, s, k) && v !in depth
    ensures Scanned(legal, hops, to, depth[v := d], s, k)
  {
    forall j | 0 <= j < k ensures Expanded(hops, to, depth[v := d], s, legal[s][j]) {
      assert Expanded(hops, to, depth, s, legal[s][j]);
    }
  }

  /** Queueing a new hop one step below the state being expanded. */
  lemma Push<T>(legal: Table<T>, hops: set<T>, from: T, to: T, depth: map<T, nat>, done: set<T>,
                queue: seq<Entry<T>>, level: nat, e: Entry<T>)
    requires Frontier(legal, hops, from, to, depth, done, queue, level)
    requires e.s !in depth && e.s != to && |e.path| == level + 1
    requires Sound(legal, hops, from, depth[e.s := |e.path|], e)
    ensures Frontier(legal, hops, from, to, depth[e.s := |e.path|], done, queue + [e], level)
  {
    var deeper := depth[e.s := |e.path|];
    forall i | 0 <= i < |queue + [e]| ensures Sound(legal, hops, from, deeper, (queue + [e])[i]) {
      if i < |queue| {
        assert Sound(legal, hops, from, depth, queue[i]);
      }
    }
    forall u | u in done ensures u in deeper && Scanned(legal, hops, to, deeper, u, |legal[u]|) {
      ScanKept(legal, hops, to, depth, u, |legal[u]|, e.s, |e.path|);
    }
  }

  /** The new hop is waiting, so is everything that was, and one hop fewer is left to find. */
  lemma PushWaits<T>(hops: set<T>, depth: map<T, nat>, done: set<T>, queue: seq<Entry<T>>, s: T, e: Entry<T>)
    requires e.s !in depth && e.s in hops
    requires Covered(depth, done + {s}, queue)
    ensures Covered(depth[e.s := |e.path|], done + {s}, queue + [e])
    ensures hops - (depth.Keys + {e.s}) < hops - depth.Keys
  {
    forall x | x in depth[e.s := |e.path|] && x != s && x !in done ensures Waiting(queue + [e], x) {
      if x == e.s {
        assert (queue + [e])[|queue|].s == x;
      } else {
        var i :| 0 <= i < |queue| && queue[i].s == x;
        assert (queue + [e])[i].s == x;
      }
    }
    assert e.s in hops - depth.Keys;
  }

  /** A state whose successors have all been looked at is done. */
  lemma Finish<T>(legal: Table<T>, hops: set<T>, from: T, to: T, depth: map<T, nat>, done: set<T>,
                  queue: seq<Entry<T>>, level: nat, s: T)
    requires Frontier(legal, hops, from, to, depth, done, queue, level)
    requires s in legal && Scanned(legal, hops, to, depth, s, |legal[s]|) && depth[s] == level
    ensures Frontier(legal, hops, from, to, depth, done + {s}, queue, level)
  {
  }

  /** A path found while its last inner state is being expanded is a shortest one. */
  lemma Found<T>(legal: Table<T>, hops: set<T>, from: T, to: T, depth: map<T, nat>, done: set<T>,
                 queue: seq<Entry<T>>, walk: seq<T>, n: T)
    requires from != to && Frontier(legal, hops, from, to, depth, done, queue, |walk|)
    requires LegalWalk(legal, from, walk + [n]) && AllIn(hops, walk) && n == to
    ensures Admissible(legal, hops, from, to, walk + [n])
    ensures forall q :: Admissible(legal, hops, from, to, q) ==> |walk + [n]| <= |q|
  {
    assert (walk + [n])[..|walk + [n]| - 1] == walk;
    forall q | Admissible(legal, hops, from, to, q) ensures |walk + [n]| <= |q| {
      NoShorter(legal, hops, from, to, depth, done, |walk|, q);
    }
  }

  lemma Fresh<T>(legal: Table<T>, hops: set<T>, from: T, depth: map<T, nat>, next: seq<T>, n: T)
    requires LegalWalk(legal, from, next) && AllIn(hops, next) && End(from, next) == n && n in legal
    ensures Sound(legal, hops, from, depth[n := |next|], Entry(n, next))
  {
  }

  /** The next successor needs no work: it was seen before, or it is neither the goal nor a hop. */
  lemma Skip<T>(legal: Table<T>, hops: set<T>, from: T, to: T, depth: map<T, nat>, done: set<T>,
                queue: seq<Entry<T>>, level: nat, s: T, k: nat)
    requires Frontier(legal, hops, from, to, depth, done, queue, level)
    requires Scanned(legal, hops, to, depth, s, k) && depth[s] == level && k < |legal[s]|
    requires legal[s][k] in depth || (legal[s][k] != to && legal[s][k] !in hops)
    ensures Scanned(legal, hops, to, depth, s, k + 1)
  {
    assert Expanded(hops, to, depth, s, legal[s][k]);
  }

  /** The next successor is a new hop: it is recorded one level down and queued. */
  lemma Enqueue<T>(legal: Table<T>, hops: set<T>, from: T, to: T, depth: map<T, nat>, done: set<T>,
                   queue: seq<Entry<T>>, level: nat, s: T, k: nat, e: Entry<T>)
    requires Frontier(legal, hops, from, to, depth, done, queue, level)
    requires Scanned(legal, hops, to, depth, s, k) && depth[s] == level && k < |legal[s]|
    requires Sound(legal, hops, from, depth[e.s := |e.path|], e)
    requires e.s == legal[s][k] && e.s !in depth && e.s != to && |e.path| == level + 1 && e.s in hops
    requires Covered(depth, done + {s}, queue)
    ensures Frontier(legal, hops, from, to, depth[e.s := |e.path|], done, queue + [e], level)
    ensures Scanned(legal, hops, to, depth[e.s := |e.path|], s, k + 1)
    ensures Covered(depth[e.s := |e.path|], done + {s}, queue + [e])
    ensures hops - (depth.Keys + {e.s}) < hops - depth.Keys
  {
    Push(legal, hops, from, to, depth, done, queue, level, e);
    PushWaits(hops, depth, done, queue, s, e);
    ScanKept(legal, hops, to, depth, s, k, e.s, |e.path|);
    assert Expanded(hops, to, depth[e.s := |e.path|], s, legal[s][k]);
  }

  /** What looking at the next successor establishes, whichever of the three cases it is. */
  lemma Advance<T>(legal: Table<T>, hops: set<T>, from: T, to: T, depth: map<T, nat>, done: set<T>,
                   queue: seq<Entry<T>>, s: T, walk: seq<T>, k: nat)
    requires Total(legal) && from != to && s in depth && depth[s] == |walk| && s in legal && k < |legal[s]|
    requires LegalWalk(legal, from, walk) && AllIn(hops, walk) && End(from, walk) == s
    requires Frontier(legal, hops, from, to, depth, done, queue, |walk|)
    requires Scanned(legal, hops, to, depth, s, k) && Covered(depth, done + {s}, queue)
    ensures var n, next := legal[s][k], walk + [legal[s][k]];
      if n in depth || (n != to && n !in hops) then
        Scanned(legal, hops, to, depth, s, k + 1)
      else if n == to then
        && Admissible(legal, hops, from, to, next)
        && forall q :: Admissible(legal, hops, from, to, q) ==> |next| <= |q|
      else
        && Frontier(legal, hops, from, to, depth[n := |next|], done, queue + [Entry(n, next)], |walk|)
        && Scanned(legal, hops, to, depth[n := |next|], s, k + 1)
        && Covered(depth[n := |next|], done + {s}, queue + [Entry(n, next)])
        && hops - (depth.Keys + {n}) < hops - depth.Keys
  {
    var n, next := legal[s][k], walk + [legal[s][k]];
    if n in depth || (n != to && n !in hops) {
      Skip(legal, hops, from, to, depth, done, queue, |walk|, s, k);
    } else {
      Extend(legal, hops, from, walk, n);
      if n == to {
        Found(legal, hops, from, to, depth, done, queue, walk, n);
      } else {
        Fresh(legal, hops, from, depth, next, n);
        Enqueue(legal, hops, from, to, depth, done, queue, |walk|, s, k, Entry(n, next));
      }
    }
  }

  /** The inner loop: visits the successors of one state and queues the hops not seen before. */
  method Expand<T(==)>(legal: Table<T>, hops: set<T>, from: T, to: T, s: T, walk: seq<T>,
                       queue0: seq<Entry<T>>, seen0: set<T>, ghost depth0: map<T, nat>, ghost done: set<T>)
    returns (found: Option<seq<T>>, queue: seq<Entry<T>>, seen: set<T>, ghost depth: map<T, nat>)
    requires Total(legal) && from != to && seen0 == depth0.Keys
    requires Frontier(legal, hops, from, to, depth0, done, queue0, |walk|)
    requires Sound(legal, hops, from, depth0, Entry(s, walk)) && Covered(depth0, done + {s}, queue0)
    ensures found.Some? ==> Admissible(legal, hops, from, to, found.value)
    ensures found.Some? ==> forall q :: Admissible(legal, hops, from, to, q) ==> |found.value| <= |q|
    ensures found.None? ==> seen == depth.Keys && Frontier(legal, hops, from, to, depth, done + {s}, queue, |walk|)
    ensures found.None? ==> Covered(depth, done + {s}, queue)
    ensures found.None? ==> (seen == seen0 && queue == queue0) || hops - seen < hops - seen0
  {
    found, queue, seen, depth := None, queue0, seen0, depth0;
    assert s in legal && s in depth && depth[s] == |walk| && Scanned(legal, hops, to, depth, s, 0);
    assert LegalWalk(legal, from, walk) && AllIn(hops, walk) && End(from, walk) == s;
    hide *;
    for k := 0 to |legal[s]|
      invariant seen == depth.Keys && s in depth && depth[s] == |walk|
      invariant (seen == seen0 && queue == queue0) || hops - seen < hops - seen0
      invariant Frontier(legal, hops, from, to, depth, done, queue, |walk|)
      invariant Scanned(legal, hops, to, depth, s, k) && Covered(depth, done + {s}, queue)
    {
      var n := legal[s][k];
      Advance(legal, hops, from, to, depth, done, queue, s, walk, k);
      if n in seen {
        continue;
      }
      var next := walk + [n];
      if n == to {
        return Some(next), queue, seen, depth;
      }
      if n in hops {
        seen := seen + {n};
        depth := depth[n := |next|];
        queue := queue + [Entry(n, next)];
      }
    }
    Finish(legal, hops, from, to, depth, done, queue, |walk|, s);
  }

  /**
   * The breadth-first search: a shortest admissible path for any finite table, and
   * null exactly when there is none.
   */
  method PublishPath<T(==)>(legal: Table<T>, hops: set<T>, from: T, to: T) returns (path: Option<seq<T>>)
    requires Total(legal) && from in legal
    ensures path.Some? ==> Admissible(legal, hops, from, to, path.value)
    ensures path.Some? ==> forall q :: Admissible(legal, hops, from, to, q) ==> |path.value| <= |q|
    ensures path.None? ==> forall q :: !Admissible(legal, hops, from, to, q)
  {
    if from == to {
      return Some([]);
    }
    var queue := [Entry(from, [])];
    var seen := {from};
    ghost var depth: map<T, nat> := map[from := 0];
    ghost var done: set<T>, level: nat := {}, 0;
    assert queue[0].s == from;
    while queue != []
      invariant seen == depth.Keys
      invariant Frontier(legal, hops, from, to, depth, done, queue, level)
      invariant Covered(depth, done, queue)
      decreases hops - seen, |queue|
    {
      Take(legal, hops, from, to, depth, done, queue, level);
      var s, walk := queue[0].s, queue[0].path;
      path, queue, seen, depth := Expand(legal, hops, from, to, s, walk, queue[1..], seen, depth, done);
      if path.Some? {
        return path;
      }
      done, level := done + {s}, |walk|;
    }
    forall q ensures !Admissible(legal, hops, from, to, q) {
      assert forall x :: x in depth ==> !Waiting(queue, x);
      Exhausted(legal, hops, from, to, depth, done, level, q);
    }
    return None;
  }
}
