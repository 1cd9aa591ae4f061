/**
 * One secret and its versions under any interleaving of rotations, revocations, re-wraps and resolves,
 * each of which may stop between any two calls.
 */
module SecretProtocol {
  import opened Options
  import opened SecretCrypto

  datatype Status = Active | Revoked

  /** A row of secret_versions. */
  datatype Row = Row(id: nat, sealed: Sealed, revoked: bool)

  /** What an operation does next. */
  datatype Pc =
    | RotateStart(value: string)
    | RotateInsert(version: nat, value: string)
    | RotateSwap(version: nat, value: string)
    | RotateRevoke(version: nat)
    | RotateDelete(version: nat)
    | RevokeStart
    | RevokeStatus
    | RevokeRows
    | RewrapStart
    | RewrapSwap(version: nat, id: nat, old_: WrappedKey, next: WrappedKey)
    | ResolveStart
    | ResolveRow(version: nat)
    | Resolved(version: nat, value: string)
    | Over

  datatype Agent = Agent(kek: Kek, pc: Pc)

  /**
   * `committed` records, for each version that has been current, the value its rotation was given;
   * `abandoned` is set once a rotation stops after it has inserted its version.
   */
  datatype Tables = Tables(status: Status, current: nat, rows: map<nat, Row>, nextId: nat, committed: map<nat, string>)

  datatype World = World(db: Tables, agents: map<nat, Agent>, abandoned: bool)

  datatype Event =
    | Spawn(a: nat, agent: Agent)
    | Load(a: nat)
    | Insert(a: nat, dek: Dek, nonce: nat)
    | Swap(a: nat, fails: bool)
    | RevokeOlder(a: nat)
    | DeleteVersion(a: nat)
    | SetRevoked(a: nat)
    | RevokeAll(a: nat)
    | Pick(a: nat, version: nat, nonce: nat)
    | Cas(a: nat)
    | ReadRow(a: nat)
    | Stop(a: nat)

  /** The identity of the secret, and the key every key id stands for. */
  datatype Config = Config(workspace: string, secret: string, book: KeyBook)

  function Aad(c: Config, version: nat): string {
    SecretAad(c.workspace, c.secret, version)
  }

  /** A rotation between its insert and its last call. */
  predicate Owner(pc: Pc) {
    pc.RotateSwap? || pc.RotateDelete?
  }

  predicate Enabled(c: Config, w: World, e: Event) {
    match e
    case Spawn(a, agent) =>
      && a !in w.agents && InBook(c.book, agent.kek)
      && (agent.pc.RotateStart? || agent.pc.RevokeStart? || agent.pc.RewrapStart? || agent.pc.ResolveStart?)
    case Load(a) =>
      a in w.agents && (w.agents[a].pc.RotateStart? || w.agents[a].pc.RevokeStart? || w.agents[a].pc.ResolveStart?)
    case Insert(a, _, _) => a in w.agents && w.agents[a].pc.RotateInsert?
    case Swap(a, _) => a in w.agents && w.agents[a].pc.RotateSwap?
    case RevokeOlder(a) => a in w.agents && w.agents[a].pc.RotateRevoke?
    case DeleteVersion(a) => a in w.agents && w.agents[a].pc.RotateDelete?
    case SetRevoked(a) => a in w.agents && w.agents[a].pc.RevokeStatus?
    case RevokeAll(a) => a in w.agents && w.agents[a].pc.RevokeRows?
    case Pick(a, v, _) => a in w.agents && w.agents[a].pc.RewrapStart? && v in w.db.rows && !w.db.rows[v].revoked
    case Cas(a) => a in w.agents && w.agents[a].pc.RewrapSwap?
    case ReadRow(a) => a in w.agents && w.agents[a].pc.ResolveRow?
    case Stop(a) => a in w.agents
  }

  function Goto(w: World, a: nat, pc: Pc): World
    requires a in w.agents
  {
    w.(agents := w.agents[a := w.agents[a].(pc := pc)])
  }

  function Stored(w: World, db: Tables): World {
    w.(db := db)
  }

  function Revoking(rows: map<nat, Row>, below: nat): map<nat, Row> {
    map v | v in rows :: if v < below then rows[v].(revoked := true) else rows[v]
  }

  function RevokingAll(rows: map<nat, Row>): map<nat, Row> {
    map v | v in rows :: rows[v].(revoked := true)
  }

  /** What a re-wrap of one row decides to write, if anything. */
  function Rewrapped(c: Config, k: Kek, version: nat, s: Sealed, nonce: nat): Option<WrappedKey> {
    if s.provider != IdOf(k) || !NeedsRewrap(k, s.dek) then None
    else
      var next := Rewrap(k, s.dek, Aad(c, version), nonce);
      if next.None? || SameWrap(s.dek, next.value) then None else next
  }

  /** The row counts as current already: same bytes, or same key id and version. */
  predicate SameWrap(old_: WrappedKey, next: WrappedKey) {
    || next.wrapped == old_.wrapped
    || (next.keyId == old_.keyId && next.version.Some? && next.version == old_.version)
  }

  function Apply(c: Config, w: World, e: Event): World
    requires Enabled(c, w, e)
  {
    match e
    case Spawn(a, agent) => w.(agents := w.agents[a := agent])
    case Load(a) =>
      (match w.agents[a].pc
       case RotateStart(value) => Goto(w, a, if w.db.status.Active? then RotateInsert(w.db.current + 1, value) else Over)
       case RevokeStart => Goto(w, a, if w.db.status.Revoked? then Over else RevokeStatus)
       case _ => Goto(w, a, if w.db.status.Active? then ResolveRow(w.db.current) else Over))
    case Insert(a, dek, nonce) =>
      var pc := w.agents[a].pc;
      var sealed := Seal(pc.value, Aad(c, pc.version), w.agents[a].kek, dek, nonce);
      if sealed.None? || pc.version in w.db.rows then Goto(w, a, Over)
      else Goto(Stored(w, w.db.(rows := w.db.rows[pc.version := Row(w.db.nextId, sealed.value, false)], nextId := w.db.nextId + 1)),
                a, RotateSwap(pc.version, pc.value))
    case Swap(a, fails) =>
      var pc := w.agents[a].pc;
      if !fails && w.db.current + 1 == pc.version && w.db.status.Active?
      then Goto(Stored(w, w.db.(current := pc.version, committed := w.db.committed[pc.version := pc.value])), a, RotateRevoke(pc.version))
      else Goto(w, a, RotateDelete(pc.version))
    case RevokeOlder(a) => Goto(Stored(w, w.db.(rows := Revoking(w.db.rows, w.agents[a].pc.version))), a, Over)
    case DeleteVersion(a) => Goto(Stored(w, w.db.(rows := w.db.rows - {w.agents[a].pc.version})), a, Over)
    case SetRevoked(a) => Goto(Stored(w, w.db.(status := Revoked)), a, RevokeRows)
    case RevokeAll(a) => Goto(Stored(w, w.db.(rows := RevokingAll(w.db.rows))), a, Over)
    case Pick(a, v, nonce) =>
      var next := Rewrapped(c, w.agents[a].kek, v, w.db.rows[v].sealed, nonce);
      Goto(w, a, if next.None? then Over else RewrapSwap(v, w.db.rows[v].id, w.db.rows[v].sealed.dek, next.value))
    case Cas(a) =>
      var pc := w.agents[a].pc;
      if pc.version in w.db.rows && w.db.rows[pc.version].id == pc.id && w.db.rows[pc.version].sealed.dek.wrapped == pc.old_.wrapped
      then Goto(Stored(w, w.db.(rows := w.db.rows[pc.version := Rewritten(w.db.rows[pc.version], pc.next)])), a, Over)
      else Goto(w, a, Over)
    case ReadRow(a) =>
      var v := w.agents[a].pc.version;
      if v !in w.db.rows then Goto(w, a, Over)
      else
        var value := Unseal(w.db.rows[v].sealed, Aad(c, v), w.agents[a].kek);
        Goto(w, a, if value.None? then Over else Resolved(v, value.value))
    case Stop(a) =>
      w.(agents := w.agents - {a},
         abandoned := w.abandoned || Owner(w.agents[a].pc) || w.agents[a].pc.RotateRevoke?)
  }

  function Rewritten(r: Row, next: WrappedKey): Row {
    r.(sealed := r.sealed.(dek := next))
  }

  /** The secret as createSecret leaves it. */
  predicate Created(c: Config, w: World) {
    && w.db.status == Active && w.db.current == 1 && w.agents == map[] && !w.abandoned
    && w.db.rows.Keys == {1} && w.db.committed.Keys == {1} && w.db.rows[1].id < w.db.nextId && !w.db.rows[1].revoked
    && Holds(c.book, w.db.rows[1].sealed, Aad(c, 1), w.db.committed[1])
  }

  function After(c: Config, start: World, es: seq<Event>): Option<World> {
    if es == [] then Some(start)
    else
      var before := After(c, start, es[..|es| - 1]);
      if before.Some? && Enabled(c, before.value, es[|es| - 1]) then Some(Apply(c, before.value, es[|es| - 1])) else None
  }

  // ---------------------------------------------------------------------------
  // The invariant
  // ---------------------------------------------------------------------------

  ghost predicate RowsOk(c: Config, db: Tables) {
    && db.current in db.rows
    && (forall v :: v in db.committed <==> 1 <= v <= db.current)
    && (forall v :: v in db.committed ==> v in db.rows && Holds(c.book, db.rows[v].sealed, Aad(c, v), db.committed[v]))
    && (forall v :: v in db.rows ==> 1 <= v <= db.current + 1 && db.rows[v].id < db.nextId)
    && (forall u, v :: u in db.rows && v in db.rows && u != v ==> db.rows[u].id != db.rows[v].id)
  }

  ghost predicate AgentOk(c: Config, db: Tables, g: Agent) {
    && InBook(c.book, g.kek)
    && match g.pc
       case RotateInsert(v, _) => 2 <= v <= db.current + 1
       case RotateSwap(v, value) =>
         v == db.current + 1 && v in db.rows && Holds(c.book, db.rows[v].sealed, Aad(c, v), value)
       case RotateRevoke(v) => v <= db.current
       case RotateDelete(v) => v == db.current + 1 && v in db.rows
       case RewrapSwap(v, id, old_, next) => 1 <= v && id < db.nextId && Faithful(c, v, old_, next)
       case ResolveRow(v) => 1 <= v <= db.current
       case Resolved(v, value) => v in db.committed && db.committed[v] == value
       case _ => true
  }

  /** Replacing `old_` by `next` keeps whatever the row of this version holds. */
  ghost predicate Faithful(c: Config, version: nat, old_: WrappedKey, next: WrappedKey) {
    forall s: Sealed, value: string {:trigger Holds(c.book, s, Aad(c, version), value)} ::
      Holds(c.book, s, Aad(c, version), value) && s.dek.wrapped == old_.wrapped ==>
      Holds(c.book, s.(dek := next), Aad(c, version), value)
  }

  ghost predicate AgentsOk(c: Config, w: World) {
    forall a :: a in w.agents ==> AgentOk(c, w.db, w.agents[a])
  }

  ghost predicate OneOwner(w: World) {
    forall a, b :: a in w.agents && b in w.agents && a != b && Owner(w.agents[a].pc) ==> !Owner(w.agents[b].pc)
  }

  /** Someone still has to revoke version v. */
  ghost predicate Awaited(w: World, v: nat) {
    exists a :: a in w.agents && w.agents[a].pc.RotateRevoke? && v < w.agents[a].pc.version
  }

  /** Someone has inserted version v and still has to swap it in or delete it. */
  ghost predicate Owned(w: World, v: nat) {
    exists a :: a in w.agents && Owner(w.agents[a].pc) && w.agents[a].pc.version == v
  }

  /** Every unrevoked version but the current one is some rotation's business. */
  ghost predicate Accounted(w: World) {
    !w.abandoned && w.db.status.Active? ==>
      forall v :: v in w.db.rows && v != w.db.current && !w.db.rows[v].revoked ==> if v < w.db.current then Awaited(w, v) else Owned(w, v)
  }

  ghost predicate Inv(c: Config, w: World) {
    RowsOk(c, w.db) && AgentsOk(c, w) && OneOwner(w) && Accounted(w)
  }

  // ---------------------------------------------------------------------------
  // Every event keeps the invariant
  // ---------------------------------------------------------------------------

  /** A rotation that has something to clean up. */
  predicate Busy(pc: Pc) {
    Owner(pc) || pc.RotateRevoke?
  }

  ghost predicate Grows(db: Tables, eb: Tables) {
    && db.current <= eb.current && db.nextId <= eb.nextId
    && forall v :: v in db.committed ==> v in eb.committed && eb.committed[v] == db.committed[v]
  }

  /** The new tables still suit an agent that did not move. */
  ghost predicate Suits(c: Config, db: Tables, eb: Tables, g: Agent) {
    && (Owner(g.pc) ==> eb.current == db.current && g.pc.version in eb.rows)
    && (g.pc.RotateSwap? ==> Holds(c.book, eb.rows[g.pc.version].sealed, Aad(c, g.pc.version), g.pc.value))
  }

  lemma OthersKept(c: Config, w: World, x: World, a: nat)
    requires AgentsOk(c, w) && Grows(w.db, x.db)
    requires a in x.agents ==> AgentOk(c, x.db, x.agents[a])
    requires forall b :: b in x.agents && b != a ==>
      b in w.agents && x.agents[b] == w.agents[b] && (x.db == w.db || Suits(c, w.db, x.db, w.agents[b]))
    ensures AgentsOk(c, x)
  {
    hide Holds, Aad, InBook, Rewrapped, Faithful;
  }

  /** A row that is not waiting for agent a, or that its new owner answers for. */
  ghost predicate Covered(w: World, x: World, a: nat, v: nat) {
    || Owned(x, v)
    || (&& v in w.db.rows && !w.db.rows[v].revoked
        && (a in w.agents && w.agents[a].pc.RotateRevoke? ==> w.agents[a].pc.version <= v)
        && (a in w.agents && Owner(w.agents[a].pc) ==> w.agents[a].pc.version != v))
  }

  lemma StillAccounted(w: World, x: World, a: nat)
    requires Accounted(w) && x.db.current == w.db.current && x.abandoned == w.abandoned
    requires x.db.status.Active? ==> w.db.status.Active?
    requires forall v :: v in x.db.rows && v != x.db.current && !x.db.rows[v].revoked ==> Covered(w, x, a, v)
    requires forall b :: b in w.agents && b != a ==> b in x.agents && x.agents[b] == w.agents[b]
    requires forall v :: Owned(x, v) ==> w.db.current < v
    ensures Accounted(x)
  {
    if !x.abandoned && x.db.status.Active? {
      forall v | v in x.db.rows && v != x.db.current && !x.db.rows[v].revoked
        ensures if v < x.db.current then Awaited(x, v) else Owned(x, v)
      {
        if v < w.db.current {
          var b :| b in w.agents && w.agents[b].pc.RotateRevoke? && v < w.agents[b].pc.version;
          assert x.agents[b] == w.agents[b];
        } else if Owned(w, v) && !(a in w.agents && Owner(w.agents[a].pc) && w.agents[a].pc.version == v) {
          OwnedOn(w, x, a, v);
        }
      }
    }
  }

  lemma OwnedOn(w: World, x: World, a: nat, v: nat)
    requires Owned(w, v) && !(a in w.agents && Owner(w.agents[a].pc) && w.agents[a].pc.version == v)
    requires forall b :: b in w.agents && b != a ==> b in x.agents && x.agents[b] == w.agents[b]
    ensures Owned(x, v)
  {
    var b :| b in w.agents && Owner(w.agents[b].pc) && w.agents[b].pc.version == v;
    assert x.agents[b] == w.agents[b];
  }

  lemma OwnedIsNext(c: Config, w: World)
    requires AgentsOk(c, w)
    ensures forall v :: Owned(w, v) ==> v == w.db.current + 1 && v in w.db.rows
  {
    hide Holds, Aad, InBook, Faithful;
  }

  /** An agent without anything to clean up moves, and the tables stay as they were. */
  lemma MoveKeeps(c: Config, w: World, a: nat, pc: Pc)
    requires Inv(c, w) && a in w.agents && !Busy(w.agents[a].pc) && !Busy(pc)
    requires AgentOk(c, w.db, w.agents[a].(pc := pc))
    ensures Inv(c, Goto(w, a, pc))
  {
    hide RowsOk, AgentOk;
    var x := Goto(w, a, pc);
    OthersKept(c, w, x, a);
    OwnedIsNext(c, x);
    StillAccounted(w, x, a);
  }

  lemma SpawnKeeps(c: Config, w: World, a: nat, agent: Agent)
    requires Inv(c, w) && Enabled(c, w, Spawn(a, agent))
    ensures Inv(c, Apply(c, w, Spawn(a, agent)))
  {
    hide RowsOk, InBook;
    var x := Apply(c, w, Spawn(a, agent));
    OthersKept(c, w, x, a);
    OwnedIsNext(c, x);
    StillAccounted(w, x, a);
  }

  lemma StopKeeps(c: Config, w: World, a: nat)
    requires Inv(c, w) && Enabled(c, w, Stop(a))
    ensures Inv(c, Apply(c, w, Stop(a)))
  {
    hide RowsOk, AgentOk;
    var x := Apply(c, w, Stop(a));
    OthersKept(c, w, x, a);
    if !Busy(w.agents[a].pc) {
      OwnedIsNext(c, x);
      StillAccounted(w, x, a);
    }
  }

  lemma LoadKeeps(c: Config, w: World, a: nat)
    requires Inv(c, w) && Enabled(c, w, Load(a))
    ensures Inv(c, Apply(c, w, Load(a)))
  {
    hide Holds, Aad, InBook, Faithful, AgentsOk, OneOwner, Accounted;
    assert AgentOk(c, w.db, w.agents[a]) by {
      OneAgent(c, w, a);
    }
    MoveKeeps(c, w, a, Apply(c, w, Load(a)).agents[a].pc);
  }

  lemma OneAgent(c: Config, w: World, a: nat)
    requires AgentsOk(c, w) && a in w.agents
    ensures AgentOk(c, w.db, w.agents[a])
  {
  }

  lemma InsertKeeps(c: Config, w: World, a: nat, dek: Dek, nonce: nat)
    requires Inv(c, w) && Enabled(c, w, Insert(a, dek, nonce))
    ensures Inv(c, Apply(c, w, Insert(a, dek, nonce)))
  {
    hide Holds, Aad, InBook, Faithful, Wrap, AgentsOk, OneOwner, Accounted;
    OneAgent(c, w, a);
    var g := w.agents[a];
    var v := g.pc.version;
    var sealed := Seal(g.pc.value, Aad(c, v), g.kek, dek, nonce);
    if sealed.None? || v in w.db.rows {
      MoveKeeps(c, w, a, Over);
    } else {
      SealUnseal(c.book, g.pc.value, Aad(c, v), Aad(c, v), g.kek, g.kek, dek, nonce);
      assert v == w.db.current + 1 by {
        assert v !in w.db.committed;
      }
      InsertedKeeps(c, w, Apply(c, w, Insert(a, dek, nonce)), a, Row(w.db.nextId, sealed.value, false));
    }
  }

  lemma InsertedRows(c: Config, db: Tables, r: Row, value: string)
    requires RowsOk(c, db) && db.current + 1 !in db.rows && r.id == db.nextId && Holds(c.book, r.sealed, Aad(c, db.current + 1), value)
    ensures var eb := db.(rows := db.rows[db.current + 1 := r], nextId := db.nextId + 1); RowsOk(c, eb) && Grows(db, eb)
  {
    hide Holds, Aad;
  }

  lemma InsertedKeeps(c: Config, w: World, x: World, a: nat, r: Row)
    requires Inv(c, w) && a in w.agents && w.agents[a].pc.RotateInsert? && w.db.current + 1 !in w.db.rows
    requires r.id == w.db.nextId && Holds(c.book, r.sealed, Aad(c, w.db.current + 1), w.agents[a].pc.value)
    requires x == Goto(Stored(w, w.db.(rows := w.db.rows[w.db.current + 1 := r], nextId := w.db.nextId + 1)), a,
                       RotateSwap(w.db.current + 1, w.agents[a].pc.value))
    ensures Inv(c, x)
  {
    hide Holds, Aad, InBook, Faithful, Accounted, RowsOk;
    InsertedRows(c, w.db, r, w.agents[a].pc.value);
    OwnedIsNext(c, w);
    assert forall b :: b in w.agents && Owner(w.agents[b].pc) ==> Owned(w, w.agents[b].pc.version);
    OthersKept(c, w, x, a);
    OwnedIsNext(c, x);
    assert Owned(x, w.db.current + 1) by {
      assert x.agents[a].pc.version == w.db.current + 1;
    }
    StillAccounted(w, x, a);
  }

  lemma SwapKeeps(c: Config, w: World, a: nat, fails: bool)
    requires Inv(c, w) && Enabled(c, w, Swap(a, fails))
    ensures Inv(c, Apply(c, w, Swap(a, fails)))
  {
    hide Holds, Aad, InBook, Faithful, RowsOk, Accounted;
    OneAgent(c, w, a);
    var x := Apply(c, w, Swap(a, fails));
    if x.db.current == w.db.current {
      OthersKept(c, w, x, a);
      assert Owned(x, w.agents[a].pc.version) by {
        assert Owner(x.agents[a].pc);
      }
      OwnedIsNext(c, x);
      StillAccounted(w, x, a);
    } else {
      SwappedRows(c, w.db, x.db, w.agents[a].pc.value);
      OthersKept(c, w, x, a);
      SwappedAccounted(c, w, x, a);
    }
  }

  lemma SwappedRows(c: Config, db: Tables, eb: Tables, value: string)
    requires RowsOk(c, db) && db.current + 1 in db.rows
    requires Holds(c.book, db.rows[db.current + 1].sealed, Aad(c, db.current + 1), value)
    requires eb == db.(current := db.current + 1, committed := db.committed[db.current + 1 := value])
    ensures RowsOk(c, eb) && Grows(db, eb)
  {
    hide Holds, Aad;
  }

  /** After a swap the old current version waits for the rotation that replaced it. */
  lemma SwappedAccounted(c: Config, w: World, x: World, a: nat)
    requires RowsOk(c, w.db) && Accounted(w) && a in w.agents && w.agents[a].pc.RotateSwap?
    requires x.agents == w.agents[a := w.agents[a].(pc := RotateRevoke(w.db.current + 1))]
    requires x.abandoned == w.abandoned && x.db.rows == w.db.rows && x.db.current == w.db.current + 1 && x.db.status == w.db.status
    ensures Accounted(x)
  {
    hide Holds, Aad;
    if !x.abandoned && x.db.status.Active? {
      forall u | u in x.db.rows && u != x.db.current && !x.db.rows[u].revoked
        ensures Awaited(x, u) && u < x.db.current
      {
        if u < w.db.current {
          var b :| b in w.agents && w.agents[b].pc.RotateRevoke? && u < w.agents[b].pc.version;
          assert x.agents[b] == w.agents[b];
        } else {
          assert x.agents[a].pc.version == x.db.current;
        }
      }
    }
  }

  /** Revoking rows changes nothing else about them. */
  ghost predicate OnlyRevoked(db: Tables, eb: Tables) {
    && eb == db.(rows := eb.rows) && eb.rows.Keys == db.rows.Keys
    && forall v :: v in db.rows ==> eb.rows[v].(revoked := db.rows[v].revoked) == db.rows[v]
  }

  lemma RevokedRows(c: Config, w: World, x: World, a: nat)
    requires RowsOk(c, w.db) && AgentsOk(c, w) && OnlyRevoked(w.db, x.db) && a in w.agents
    requires x.agents == w.agents[a := w.agents[a].(pc := Over)]
    ensures RowsOk(c, x.db) && AgentsOk(c, x)
  {
    hide Holds, Aad, InBook, Faithful;
    assert Grows(w.db, x.db);
    OthersKept(c, w, x, a);
  }

  lemma RevokeOlderKeeps(c: Config, w: World, a: nat)
    requires Inv(c, w) && Enabled(c, w, RevokeOlder(a))
    ensures Inv(c, Apply(c, w, RevokeOlder(a)))
  {
    hide Holds, Aad, InBook, Faithful, Accounted, RowsOk, AgentsOk;
    var x := Apply(c, w, RevokeOlder(a));
    RevokedRows(c, w, x, a);
    OwnedIsNext(c, x);
    StillAccounted(w, x, a);
  }

  lemma DeletedRows(c: Config, db: Tables)
    requires RowsOk(c, db)
    ensures RowsOk(c, db.(rows := db.rows - {db.current + 1}))
  {
    hide Holds, Aad;
  }

  lemma DeleteKeeps(c: Config, w: World, a: nat)
    requires Inv(c, w) && Enabled(c, w, DeleteVersion(a))
    ensures Inv(c, Apply(c, w, DeleteVersion(a)))
  {
    hide Holds, Aad, InBook, Faithful, Accounted, RowsOk;
    OneAgent(c, w, a);
    DeletedRows(c, w.db);
    var x := Apply(c, w, DeleteVersion(a));
    OthersKept(c, w, x, a);
    OwnedIsNext(c, x);
    StillAccounted(w, x, a);
  }

  lemma SetRevokedKeeps(c: Config, w: World, a: nat)
    requires Inv(c, w) && Enabled(c, w, SetRevoked(a))
    ensures Inv(c, Apply(c, w, SetRevoked(a)))
  {
    hide Holds, Aad, InBook, Faithful;
    OthersKept(c, w, Apply(c, w, SetRevoked(a)), a);
  }

  lemma RevokeAllKeeps(c: Config, w: World, a: nat)
    requires Inv(c, w) && Enabled(c, w, RevokeAll(a))
    ensures Inv(c, Apply(c, w, RevokeAll(a)))
  {
    hide Holds, Aad, InBook, Faithful, RowsOk, AgentsOk;
    var x := Apply(c, w, RevokeAll(a));
    RevokedRows(c, w, x, a);
    assert x.db.rows.Keys == w.db.rows.Keys;
    assert forall v :: v in x.db.rows ==> x.db.rows[v].revoked;
  }

  /** What a re-wrap decides to write keeps the value of the row it read, and of every later row with the same bytes. */
  lemma RewrapIsFaithful(c: Config, k: Kek, version: nat, s: Sealed, nonce: nat)
    requires InBook(c.book, k) && Rewrapped(c, k, version, s, nonce).Some?
    ensures Faithful(c, version, s.dek, Rewrapped(c, k, version, s, nonce).value)
  {
    var next := Rewrapped(c, k, version, s, nonce).value;
    forall t: Sealed, value: string | Holds(c.book, t, Aad(c, version), value) && t.dek.wrapped == s.dek.wrapped
      ensures Holds(c.book, t.(dek := next), Aad(c, version), value)
    {
    }
  }

  lemma PickKeeps(c: Config, w: World, a: nat, v: nat, nonce: nat)
    requires Inv(c, w) && Enabled(c, w, Pick(a, v, nonce))
    ensures Inv(c, Apply(c, w, Pick(a, v, nonce)))
  {
    hide Holds, Aad, InBook, Faithful, Rewrapped, AgentsOk, OneOwner, Accounted;
    OneAgent(c, w, a);
    if Rewrapped(c, w.agents[a].kek, v, w.db.rows[v].sealed, nonce).Some? {
      RewrapIsFaithful(c, w.agents[a].kek, v, w.db.rows[v].sealed, nonce);
    }
    MoveKeeps(c, w, a, Apply(c, w, Pick(a, v, nonce)).agents[a].pc);
  }

  lemma CasKeeps(c: Config, w: World, a: nat)
    requires Inv(c, w) && Enabled(c, w, Cas(a))
    ensures Inv(c, Apply(c, w, Cas(a)))
  {
    hide Holds, Aad, InBook, RowsOk, Faithful, Accounted, AgentsOk, OneOwner;
    OneAgent(c, w, a);
    var x := Apply(c, w, Cas(a));
    if x.db.rows == w.db.rows {
      MoveKeeps(c, w, a, Over);
    } else {
      RewrittenKeeps(c, w, x, a, w.agents[a].pc.version, w.agents[a].pc.old_, w.agents[a].pc.next);
    }
  }

  ghost predicate Rewrote(c: Config, db: Tables, eb: Tables, v: nat, old_: WrappedKey, next: WrappedKey) {
    && v in db.rows && db.rows[v].sealed.dek.wrapped == old_.wrapped && Faithful(c, v, old_, next)
    && eb == db.(rows := db.rows[v := Rewritten(db.rows[v], next)])
  }

  lemma RewrittenRows(c: Config, db: Tables, eb: Tables, v: nat, old_: WrappedKey, next: WrappedKey)
    requires RowsOk(c, db) && Rewrote(c, db, eb, v, old_, next)
    ensures RowsOk(c, eb) && Grows(db, eb)
  {
    hide Holds, Aad;
  }

  lemma RewrittenKeeps(c: Config, w: World, x: World, a: nat, v: nat, old_: WrappedKey, next: WrappedKey)
    requires Inv(c, w) && a in w.agents && !Busy(w.agents[a].pc)
    requires Rewrote(c, w.db, x.db, v, old_, next) && x == Goto(Stored(w, x.db), a, Over)
    ensures Inv(c, x)
  {
    hide Holds, Aad, InBook, RowsOk, Accounted;
    RewrittenRows(c, w.db, x.db, v, old_, next);
    OneAgent(c, w, a);
    OthersKept(c, w, x, a);
    OwnedIsNext(c, x);
    StillAccounted(w, x, a);
  }

  lemma ReadRowKeeps(c: Config, w: World, a: nat)
    requires Inv(c, w) && Enabled(c, w, ReadRow(a))
    ensures Inv(c, Apply(c, w, ReadRow(a)))
  {
    hide Holds, Aad, InBook, Faithful, Unseal, AgentsOk, OneOwner, Accounted;
    OneAgent(c, w, a);
    var g := w.agents[a];
    var v := g.pc.version;
    HeldIsRead(c.book, w.db.rows[v].sealed, Aad(c, v), w.db.committed[v], Aad(c, v), g.kek);
    MoveKeeps(c, w, a, Apply(c, w, ReadRow(a)).agents[a].pc);
  }

  lemma StepKeeps(c: Config, w: World, e: Event)
    requires Inv(c, w) && Enabled(c, w, e)
    ensures Inv(c, Apply(c, w, e))
  {
    hide Inv, Apply;
    match e
    case Spawn(a, agent) => SpawnKeeps(c, w, a, agent);
    case Load(a) => LoadKeeps(c, w, a);
    case Insert(a, dek, nonce) => InsertKeeps(c, w, a, dek, nonce);
    case Swap(a, fails) => SwapKeeps(c, w, a, fails);
    case RevokeOlder(a) => RevokeOlderKeeps(c, w, a);
    case DeleteVersion(a) => DeleteKeeps(c, w, a);
    case SetRevoked(a) => SetRevokedKeeps(c, w, a);
    case RevokeAll(a) => RevokeAllKeeps(c, w, a);
    case Pick(a, v, nonce) => PickKeeps(c, w, a, v, nonce);
    case Cas(a) => CasKeeps(c, w, a);
    case ReadRow(a) => ReadRowKeeps(c, w, a);
    case Stop(a) => StopKeeps(c, w, a);
  }

  lemma {:induction false} HistoryKeeps(c: Config, start: World, es: seq<Event>)
    requires Inv(c, start) && After(c, start, es).Some?
    ensures Inv(c, After(c, start, es).value)
  {
    hide Inv, Apply;
    if es != [] {
      HistoryKeeps(c, start, es[..|es| - 1]);
      StepKeeps(c, After(c, start, es[..|es| - 1]).value, es[|es| - 1]);
    }
  }

  // ---------------------------------------------------------------------------
  // What holds of every history of a secret
  // ---------------------------------------------------------------------------

  lemma StartKeeps(c: Config, start: World)
    requires Created(c, start)
    ensures Inv(c, start)
  {
  }

  /** The current version always has its row, and every version that ever was current still holds what it was given. */
  lemma CurrentRowExists(c: Config, start: World, es: seq<Event>)
    requires Created(c, start) && After(c, start, es).Some?
    ensures var db := After(c, start, es).value.db;
      && db.current in db.rows
      && forall v :: 1 <= v <= db.current ==>
           v in db.rows && v in db.committed && Holds(c.book, db.rows[v].sealed, Aad(c, v), db.committed[v])
  {
    StartKeeps(c, start);
    HistoryKeeps(c, start, es);
  }

  /** Resolving at any moment gives the value committed for the version it loaded, to whoever has the key, and nothing else. */
  lemma ResolveIsFaithful(c: Config, start: World, es: seq<Event>, a: nat)
    requires Created(c, start) && After(c, start, es).Some?
    requires var w := After(c, start, es).value; a in w.agents && (w.agents[a].pc.ResolveRow? || w.agents[a].pc.Resolved?)
    ensures var w := After(c, start, es).value;
      var pc := w.agents[a].pc;
      && pc.version in w.db.committed
      && (pc.Resolved? ==> pc.value == w.db.committed[pc.version])
      && (pc.ResolveRow? ==>
            pc.version in w.db.rows && Apply(c, w, ReadRow(a)).agents[a].pc ==
              if Knows(w.agents[a].kek, w.db.rows[pc.version].sealed) then Resolved(pc.version, w.db.committed[pc.version]) else Over)
  {
    hide Created, Inv, Apply, Knows;
    StartKeeps(c, start);
    HistoryKeeps(c, start, es);
    ReadIsFaithful(c, After(c, start, es).value, a);
  }

  lemma ReadIsFaithful(c: Config, w: World, a: nat)
    requires Inv(c, w) && a in w.agents && (w.agents[a].pc.ResolveRow? || w.agents[a].pc.Resolved?)
    ensures var pc := w.agents[a].pc;
      && pc.version in w.db.committed
      && (pc.Resolved? ==> pc.value == w.db.committed[pc.version])
      && (pc.ResolveRow? ==>
            pc.version in w.db.rows && Apply(c, w, ReadRow(a)).agents[a].pc ==
              if Knows(w.agents[a].kek, w.db.rows[pc.version].sealed) then Resolved(pc.version, w.db.committed[pc.version]) else Over)
  {
    hide Holds, Aad, InBook, Faithful, OneOwner, Accounted, Unseal, Knows;
    OneAgent(c, w, a);
    var v := w.agents[a].pc.version;
    if w.agents[a].pc.ResolveRow? {
      HeldIsRead(c.book, w.db.rows[v].sealed, Aad(c, v), w.db.committed[v], Aad(c, v), w.agents[a].kek);
    }
  }

  /** No step takes back a version: current only grows, committed values stay, and a revoked secret stays revoked. */
  ghost predicate Forward(db: Tables, eb: Tables) {
    Grows(db, eb) && (db.status.Revoked? ==> eb.status.Revoked? && eb.current == db.current)
  }

  lemma StepForward(c: Config, w: World, e: Event)
    requires Inv(c, w) && Enabled(c, w, e)
    ensures Forward(w.db, Apply(c, w, e).db)
  {
    hide Holds, Aad, InBook, Faithful, Accounted, AgentsOk, OneOwner, Seal, Unseal, Rewrapped;
    if e.Swap? {
      OneAgent(c, w, e.a);
    }
  }

  lemma {:induction false} NeverBack(c: Config, w: World, es: seq<Event>)
    requires Inv(c, w) && After(c, w, es).Some?
    ensures Forward(w.db, After(c, w, es).value.db)
  {
    hide Inv, Apply, Enabled;
    if es != [] {
      NeverBack(c, w, es[..|es| - 1]);
      HistoryKeeps(c, w, es[..|es| - 1]);
      StepForward(c, After(c, w, es[..|es| - 1]).value, es[|es| - 1]);
    }
  }

  /** The compensating delete removes the row its own rotation inserted: one that has never been current. */
  lemma DeleteSparesCommitted(c: Config, start: World, es: seq<Event>, a: nat)
    requires Created(c, start) && After(c, start, es).Some? && Enabled(c, After(c, start, es).value, DeleteVersion(a))
    ensures var w := After(c, start, es).value;
      var x := Apply(c, w, DeleteVersion(a));
      && w.agents[a].pc.version == w.db.current + 1
      && x.db.rows.Keys == set v | v in w.db.rows && v != w.db.current + 1
      && forall v :: v in w.db.committed ==> v in x.db.rows && x.db.rows[v] == w.db.rows[v]
  {
    hide Inv, Created;
    StartKeeps(c, start);
    HistoryKeeps(c, start, es);
    DeleteSpares(c, After(c, start, es).value, a);
  }

  lemma DeleteSpares(c: Config, w: World, a: nat)
    requires Inv(c, w) && Enabled(c, w, DeleteVersion(a))
    ensures var x := Apply(c, w, DeleteVersion(a));
      && w.agents[a].pc.version == w.db.current + 1
      && x.db.rows.Keys == (set v | v in w.db.rows && v != w.db.current + 1)
      && forall v :: v in w.db.committed ==> v in x.db.rows && x.db.rows[v] == w.db.rows[v]
  {
    hide Holds, Aad, InBook, Faithful, OneOwner, Accounted;
    OneAgent(c, w, a);
  }

  /** Once no rotation is under way on an active secret, the current version is the only unrevoked one. */
  lemma OnlyCurrentLives(c: Config, start: World, es: seq<Event>)
    requires Created(c, start) && After(c, start, es).Some?
    requires var w := After(c, start, es).value;
      w.db.status.Active? && !w.abandoned && forall a :: a in w.agents ==> !Busy(w.agents[a].pc)
    ensures var db := After(c, start, es).value.db;
      forall v :: v in db.rows && !db.rows[v].revoked ==> v == db.current
  {
    StartKeeps(c, start);
    HistoryKeeps(c, start, es);
  }

  // ---------------------------------------------------------------------------
  // When rotation still works
  // ---------------------------------------------------------------------------

  /** The next version has a row and no rotation answers for it: one stopped between its insert and its swap. */
  ghost predicate Orphaned(w: World) {
    w.db.current + 1 in w.db.rows && !Owned(w, w.db.current + 1)
  }

  /** Only an insert that succeeds makes a new owner. */
  lemma OwnersBefore(c: Config, w: World, e: Event, b: nat)
    requires Enabled(c, w, e)
    requires var x := Apply(c, w, e); b in x.agents && Owner(x.agents[b].pc) && !(b in w.agents && Owner(w.agents[b].pc))
    ensures e.Insert? && e.a == b && b in w.agents && w.agents[b].pc.RotateInsert?
    ensures Apply(c, w, e).agents[b].pc.version == w.agents[b].pc.version && w.agents[b].pc.version !in w.db.rows
  {
    hide Rewrapped, Seal, Unseal;
  }

  lemma OwnersMove(c: Config, w: World, e: Event, b: nat)
    requires Enabled(c, w, e) && b in w.agents && Owner(w.agents[b].pc)
    requires var x := Apply(c, w, e); b in x.agents && Owner(x.agents[b].pc)
    ensures Apply(c, w, e).agents[b].pc.version == w.agents[b].pc.version
  {
    hide Rewrapped, Seal, Unseal;
  }

  predicate TouchesRows(e: Event) {
    e.Insert? || e.Swap? || e.RevokeOlder? || e.DeleteVersion? || e.RevokeAll? || e.Cas?
  }

  lemma OthersLeaveRows(c: Config, w: World, e: Event)
    requires Enabled(c, w, e) && !TouchesRows(e)
    ensures Apply(c, w, e).db.current == w.db.current && Apply(c, w, e).db.rows == w.db.rows
  {
    hide Rewrapped, Unseal;
  }

  lemma OrphanKeepsRows(c: Config, w: World, e: Event)
    requires RowsOk(c, w.db) && AgentsOk(c, w) && Orphaned(w) && Enabled(c, w, e)
    ensures var x := Apply(c, w, e); x.db.current == w.db.current && w.db.current + 1 in x.db.rows
  {
    hide Holds, Aad, InBook, Faithful, Seal, Unseal, Rewrapped;
    if !TouchesRows(e) {
      OthersLeaveRows(c, w, e);
    }
  }

  lemma OrphanStays(c: Config, w: World, e: Event)
    requires Inv(c, w) && Orphaned(w) && Enabled(c, w, e)
    ensures var x := Apply(c, w, e); Orphaned(x) && x.db.current == w.db.current
  {
    hide Holds, Aad, InBook, Faithful, Accounted, OneOwner, Apply, Enabled;
    OrphanKeepsRows(c, w, e);
    var x := Apply(c, w, e);
    forall b | b in x.agents && Owner(x.agents[b].pc)
      ensures x.agents[b].pc.version != w.db.current + 1
    {
      if b in w.agents && Owner(w.agents[b].pc) {
        OwnersMove(c, w, e, b);
      } else {
        OwnersBefore(c, w, e, b);
      }
    }
  }

  lemma {:induction false} StuckForGood(c: Config, w: World, es: seq<Event>)
    requires Inv(c, w) && After(c, w, es).Some? && (Orphaned(w) || w.db.status.Revoked?)
    ensures After(c, w, es).value.db.current == w.db.current
  {
    hide Inv, Apply, Enabled, Orphaned;
    if w.db.status.Revoked? {
      NeverBack(c, w, es);
    } else {
      OrphansOnly(c, w, es);
    }
  }

  lemma {:induction false} OrphansOnly(c: Config, w: World, es: seq<Event>)
    requires Inv(c, w) && After(c, w, es).Some? && Orphaned(w)
    ensures var x := After(c, w, es).value; Orphaned(x) && x.db.current == w.db.current
  {
    hide Inv, Apply, Enabled, Orphaned;
    if es != [] {
      OrphansOnly(c, w, es[..|es| - 1]);
      HistoryKeeps(c, w, es[..|es| - 1]);
      OrphanStays(c, After(c, w, es[..|es| - 1]).value, es[|es| - 1]);
    }
  }

  lemma Extend(c: Config, w: World, es: seq<Event>, e: Event)
    requires After(c, w, es).Some? && Enabled(c, After(c, w, es).value, e)
    ensures After(c, w, es + [e]) == Some(Apply(c, After(c, w, es).value, e))
  {
    hide Enabled, Apply;
    assert (es + [e])[..|es + [e]| - 1] == es;
  }

  lemma {:induction false} Above(s: set<nat>) returns (n: nat)
    ensures forall m :: m in s ==> m < n
  {
    if s == {} {
      n := 0;
    } else {
      var m :| m in s;
      var rest := Above(s - {m});
      n := Max(rest, m + 1);
      assert forall k :: k in s ==> k == m || k in s - {m};
    }
  }

  ghost predicate Advances(c: Config, w: World, es: seq<Event>) {
    After(c, w, es).Some? && w.db.current < After(c, w, es).value.db.current
  }

  /** One more rotation on a secret without a leftover row, from its start to its swap. */
  lemma FreshRotation(c: Config, w: World, es: seq<Event>) returns (more: seq<Event>)
    requires After(c, w, es).Some?
    requires var x := After(c, w, es).value;
      x.db.current == w.db.current && x.db.current + 1 !in x.db.rows && x.db.status.Active?
    ensures Advances(c, w, more)
  {
    var x := After(c, w, es).value;
    var n := Above(x.agents.Keys);
    assert n !in x.agents;
    var spawned := es + [Spawn(n, Agent(Vault("transit", 1), RotateStart("value")))];
    Extend(c, w, es, Spawn(n, Agent(Vault("transit", 1), RotateStart("value"))));
    Extend(c, w, spawned, Load(n));
    Extend(c, w, spawned + [Load(n)], Insert(n, 0, 0));
    Extend(c, w, spawned + [Load(n)] + [Insert(n, 0, 0)], Swap(n, false));
    more := spawned + [Load(n)] + [Insert(n, 0, 0)] + [Swap(n, false)];
  }

  lemma NextRotation(c: Config, w: World) returns (es: seq<Event>)
    requires Inv(c, w) && w.db.status.Active? && !Orphaned(w)
    ensures Advances(c, w, es)
  {
    hide Holds, Aad, InBook, Faithful, Accounted, OneOwner;
    if w.db.current + 1 !in w.db.rows {
      assert After(c, w, []) == Some(w);
      es := FreshRotation(c, w, []);
    } else {
      var b :| b in w.agents && Owner(w.agents[b].pc) && w.agents[b].pc.version == w.db.current + 1;
      if w.agents[b].pc.RotateSwap? {
        Extend(c, w, [], Swap(b, false));
        es := [] + [Swap(b, false)];
      } else {
        Extend(c, w, [], DeleteVersion(b));
        es := FreshRotation(c, w, [] + [DeleteVersion(b)]);
      }
    }
  }

  /**
   * The source promises that a failed rotation can be retried. That is so exactly when no rotation stopped between
   * its insert and its swap: the row it leaves behind makes every later insert of that version a conflict, for good.
   */
  lemma RotatesAgainExactly(c: Config, start: World, es: seq<Event>)
    requires Created(c, start) && After(c, start, es).Some?
    ensures var w := After(c, start, es).value;
      (exists more :: Advances(c, w, more)) <==> w.db.status.Active? && !Orphaned(w)
  {
    hide Created, Inv, Orphaned, Apply, Enabled;
    StartKeeps(c, start);
    HistoryKeeps(c, start, es);
    var w := After(c, start, es).value;
    if w.db.status.Active? && !Orphaned(w) {
      var more := NextRotation(c, w);
    } else {
      forall more | After(c, w, more).Some?
        ensures !Advances(c, w, more)
      {
        StuckForGood(c, w, more);
      }
    }
  }

  /** Such a stop is possible: insert, then nothing more. */
  lemma OrphanHappens(c: Config, start: World) returns (es: seq<Event>)
    requires Created(c, start)
    ensures After(c, start, es).Some? && Orphaned(After(c, start, es).value) && After(c, start, es).value.db.status.Active?
  {
    var g := Agent(Vault("transit", 1), RotateStart("value"));
    assert After(c, start, []) == Some(start);
    Extend(c, start, [], Spawn(0, g));
    Extend(c, start, [] + [Spawn(0, g)], Load(0));
    Extend(c, start, [] + [Spawn(0, g)] + [Load(0)], Insert(0, 0, 0));
    Extend(c, start, [] + [Spawn(0, g)] + [Load(0)] + [Insert(0, 0, 0)], Stop(0));
    es := [] + [Spawn(0, g)] + [Load(0)] + [Insert(0, 0, 0)] + [Stop(0)];
  }
}
