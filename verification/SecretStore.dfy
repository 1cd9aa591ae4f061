/**
 * Creating, rotating, revoking and resolving one secret, call by call, while other callers work on the same rows.
 */
module SecretStore {
  import opened Options
  import opened SecretCrypto
  import opened SecretProtocol
  import Lexical

  datatype SecretError = Unavailable | Conflict | Denied | Invalid | Unreadable

  /** `Cut`: the process stopped before it could answer. */
  datatype Answer<+T> = Ok(value: T) | Err(error: SecretError) | Cut

  /** What others do before one of our calls, and whether we live to make it. */
  datatype Meanwhile = Meanwhile(events: seq<Event>, alive: bool)

  /** Nobody dies before a call of ours, and nobody else dies at all. */
  predicate Steady(script: seq<Meanwhile>) {
    forall m :: m in script ==> m.alive && forall e :: e in m.events ==> !e.Stop?
  }

  /** A rotation that took place: the new version is in, and it alone is not revoked. */
  predicate Rotated(was: Tables, now: Tables, version: nat) {
    && version == now.current == was.current + 1 && now.status == was.status
    && now.rows.Keys == was.rows.Keys + {version} && !now.rows[version].revoked
    && forall v :: v in now.rows && v != version ==> now.rows[v].revoked
  }

  /** A rotation that did not take place leaves no trace but a row id. */
  predicate Untouched(was: Tables, now: Tables) {
    now == was.(nextId := now.nextId)
  }

  predicate Expired(expiresAt: Option<int>, now: int) {
    expiresAt.Some? && expiresAt.value <= now
  }

  /** What `Seal` accepts. */
  predicate Fits(value: string) {
    1 <= |value| <= MAX_SECRET_BYTES
  }

  /** The two tables and everybody at work on them. `log` lists the steps taken since the secret was created. */
  class Database {
    const config: Config
    ghost const start: World
    var tables: Tables
    var agents: map<nat, Agent>
    var abandoned: bool
    ghost var log: seq<Event>
    var script: seq<Meanwhile>

    ghost function View(): World
      reads `tables, `agents, `abandoned
    {
      World(tables, agents, abandoned)
    }

    ghost predicate Valid()
      reads `tables, `agents, `abandoned, `log
    {
      Created(config, start) && After(config, start, log) == Some(View())
    }

    /** Our next step is `pc`. */
    ghost predicate Ready(me: nat, kek: Kek, pc: Pc)
      reads `tables, `agents, `abandoned, `log
    {
      Valid() && me in agents && agents[me] == Agent(kek, pc)
    }

    /** A new secret: its row, then its first version. */
    constructor (c: Config, value: string, kek: Kek, dek: Dek, nonce: nat, sealed: Sealed, others: seq<Meanwhile>)
      requires InBook(c.book, kek) && Seal(value, Aad(c, 1), kek, dek, nonce) == Some(sealed)
      ensures Valid() && config == c && log == [] && agents == map[] && tables.committed == map[1 := value]
    {
      config := c;
      tables := Tables(Active, 1, map[1 := Row(0, sealed, false)], 1, map[1 := value]);
      agents := map[];
      abandoned := false;
      log := [];
      script := others;
      start := World(Tables(Active, 1, map[1 := Row(0, sealed, false)], 1, map[1 := value]), map[], false);
      new;
      SealUnseal(c.book, value, Aad(c, 1), Aad(c, 1), kek, kek, dek, nonce);
    }

    /** One atomic step of anybody. */
    method Take(e: Event)
      requires Valid() && Enabled(config, View(), e)
      modifies `tables, `agents, `abandoned, `log
      ensures Valid() && log == old(log) + [e]
      ensures View() == Apply(config, old(View()), e) && Forward(old(tables), tables)
    {
      hide Created, After, Enabled, Apply, Forward;
      Logged(config, start, log, View(), e);
      var next := Apply(config, World(tables, agents, abandoned), e);
      tables, agents, abandoned := next.db, next.agents, next.abandoned;
      log := log + [e];
    }

    /** insert into secret_versions; the unique index refuses a version that is there. */
    method InsertVersion(me: nat, kek: Kek, version: nat, value: string, sealed: Sealed, ghost dek: Dek, ghost nonce: nat)
      returns (inserted: bool)
      requires Ready(me, kek, RotateInsert(version, value)) && Seal(value, Aad(config, version), kek, dek, nonce) == Some(sealed)
      modifies `tables, `agents, `log
      ensures Ready(me, kek, if inserted then RotateSwap(version, value) else Over)
      ensures log == old(log) + [Insert(me, dek, nonce)] && Forward(old(tables), tables)
      ensures inserted <==> version !in old(tables).rows
      ensures tables.status == old(tables).status && tables.current == old(tables).current
      ensures tables.committed == old(tables).committed
      ensures tables.rows == if inserted then old(tables).rows[version := Row(old(tables).nextId, sealed, false)] else old(tables).rows
    {
      hide Created, After, Forward, Aad, Seal;
      Logged(config, start, log, View(), Insert(me, dek, nonce));
      inserted := version !in tables.rows;
      if inserted {
        tables := tables.(rows := tables.rows[version := Row(tables.nextId, sealed, false)], nextId := tables.nextId + 1);
      }
      agents := agents[me := Agent(kek, if inserted then RotateSwap(version, value) else Over)];
      log := log + [Insert(me, dek, nonce)];
    }

    /** update secrets set current_version where current_version is the one before and the secret is active */
    method SwapVersion(me: nat, kek: Kek, version: nat, value: string, fails: bool) returns (swapped: bool)
      requires Ready(me, kek, RotateSwap(version, value))
      modifies `tables, `agents, `log
      ensures Ready(me, kek, if swapped then RotateRevoke(version) else RotateDelete(version))
      ensures log == old(log) + [Swap(me, fails)] && Forward(old(tables), tables)
      ensures swapped ==> tables.current == version == old(tables).current + 1
      ensures swapped ==> version in tables.committed && tables.committed[version] == value
      ensures swapped <==> !fails && old(tables).current + 1 == version && old(tables).status.Active?
      ensures tables == old(tables).(current := tables.current, committed := tables.committed)
      ensures !swapped ==> tables == old(tables)
    {
      hide Created, After, Forward;
      Logged(config, start, log, View(), Swap(me, fails));
      swapped := !fails && tables.current + 1 == version && tables.status.Active?;
      if swapped {
        tables := tables.(current := version, committed := tables.committed[version := value]);
      }
      agents := agents[me := Agent(kek, if swapped then RotateRevoke(version) else RotateDelete(version))];
      log := log + [Swap(me, fails)];
    }

    /** update secret_versions set revoked_at where version is below */
    method RevokeBelow(me: nat, kek: Kek, version: nat)
      requires Ready(me, kek, RotateRevoke(version))
      modifies `tables, `agents, `log
      ensures Ready(me, kek, Over) && log == old(log) + [RevokeOlder(me)] && Forward(old(tables), tables)
      ensures tables == old(tables).(rows := tables.rows) && tables.rows.Keys == old(tables).rows.Keys
      ensures forall v :: v in tables.rows && v < version ==> tables.rows[v].revoked
      ensures forall v :: v in tables.rows && v >= version ==> tables.rows[v] == old(tables).rows[v]
    {
      hide Created, After, Forward;
      Logged(config, start, log, View(), RevokeOlder(me));
      tables := tables.(rows := map v | v in tables.rows ::
        if v < version then tables.rows[v].(revoked := true) else tables.rows[v]);
      agents := agents[me := Agent(kek, Over)];
      log := log + [RevokeOlder(me)];
    }

    /** delete from secret_versions where version is ours */
    method DeleteVersionRow(me: nat, kek: Kek, version: nat)
      requires Ready(me, kek, RotateDelete(version))
      modifies `tables, `agents, `log
      ensures Ready(me, kek, Over) && log == old(log) + [DeleteVersion(me)] && Forward(old(tables), tables)
      ensures tables == old(tables).(rows := old(tables).rows - {version})
    {
      hide Created, After, Forward;
      Logged(config, start, log, View(), DeleteVersion(me));
      tables := tables.(rows := tables.rows - {version});
      agents := agents[me := Agent(kek, Over)];
      log := log + [DeleteVersion(me)];
    }

    /** update secrets set status = 'revoked', and then every version that is not revoked yet */
    method MarkRevoked(me: nat, kek: Kek)
      requires Ready(me, kek, RevokeStatus)
      modifies `tables, `agents, `log
      ensures Ready(me, kek, RevokeRows) && log == old(log) + [SetRevoked(me)] && Forward(old(tables), tables)
      ensures tables.status == Revoked && tables.rows == old(tables).rows
    {
      hide Created, After, Forward;
      Logged(config, start, log, View(), SetRevoked(me));
      tables := tables.(status := Revoked);
      agents := agents[me := Agent(kek, RevokeRows)];
      log := log + [SetRevoked(me)];
    }

    method RevokeEveryRow(me: nat, kek: Kek)
      requires Ready(me, kek, RevokeRows)
      modifies `tables, `agents, `log
      ensures Ready(me, kek, Over) && log == old(log) + [RevokeAll(me)] && Forward(old(tables), tables)
      ensures forall v :: v in tables.rows ==> tables.rows[v].revoked
    {
      hide Created, After, Forward;
      Logged(config, start, log, View(), RevokeAll(me));
      tables := tables.(rows := map v | v in tables.rows :: tables.rows[v].(revoked := true));
      agents := agents[me := Agent(kek, Over)];
      log := log + [RevokeAll(me)];
    }

    lemma Kept()
      requires Valid()
      ensures Inv(config, View())
    {
      hide Created, Inv;
      StartKeeps(config, start);
      HistoryKeeps(config, start, log);
    }

    /** The other callers' steps until our next call, or our end. */
    method Elsewhere(me: nat, kek: Kek, ghost pc: Pc) returns (alive: bool)
      requires Ready(me, kek, pc)
      modifies `tables, `agents, `abandoned, `log, `script
      ensures Valid() && old(log) <= log && Forward(old(tables), tables)
      ensures if alive then Ready(me, kek, pc) else me !in agents
      ensures old(script) == [] ==> alive && script == [] && View() == old(View())
      ensures Steady(old(script)) ==> alive && Steady(script) && abandoned == old(abandoned)
    {
      hide Apply, Enabled, Created, After;
      alive := true;
      if script != [] {
        var events := script[0].events;
        alive := script[0].alive;
        assert script[0] in script && forall m :: m in script[1..] ==> m in script;
        script := script[1..];
        for i := 0 to |events|
          invariant Ready(me, kek, pc) && old(log) <= log && Forward(old(tables), tables)
          invariant script == old(script)[1..] && ((forall e :: e in events ==> !e.Stop?) ==> abandoned == old(abandoned))
        {
          if Enabled(config, World(tables, agents, abandoned), events[i]) && events[i].a != me {
            NotMine(config, View(), events[i], me);
            OnlyStopsAbandon(config, View(), events[i]);
            Take(events[i]);
          }
        }
        if !alive {
          Halt(me);
        }
      }
    }

    /** The call ends, whether or not it finished its work. */
    method Halt(me: nat)
      requires Valid() && me in agents
      modifies `tables, `agents, `abandoned, `log
      ensures Valid() && log == old(log) + [Stop(me)] && me !in agents && tables == old(tables)
      ensures abandoned == (old(abandoned) || Busy(old(agents)[me].pc))
    {
      hide Created, After;
      assert Enabled(config, View(), Stop(me));
      Take(Stop(me));
    }

    lemma Mine(me: nat)
      requires Valid() && me in agents
      ensures AgentOk(config, tables, agents[me]) && RowsOk(config, tables)
    {
      hide Created, RowsOk, AgentOk, Accounted, OneOwner;
      Kept();
    }

    lemma RowsBelow(me: nat)
      requires Valid() && me in agents
      ensures forall v :: v in tables.rows ==> v <= tables.current + 1
    {
      hide Created, AgentOk;
      Mine(me);
    }

    /**
     * Rotation: insert the next version, swap it in, revoke what came before; a version that cannot be swapped in is
     * taken back out. A rotation that answers has revoked all older versions; with nobody else at work it answers by the
     * secret, the value and the version number it finds.
     */
    method Rotate(me: nat, value: string, kek: Kek, dek: Dek, nonce: nat, fails: bool) returns (r: Answer<nat>)
      requires Valid() && me !in agents && InBook(config.book, kek)
      modifies `tables, `agents, `abandoned, `log, `script
      ensures Valid() && old(log) <= log && Forward(old(tables), tables) && me !in agents
      ensures r.Ok? ==> old(tables).current < r.value <= tables.current
      ensures r.Ok? ==> r.value in tables.committed && tables.committed[r.value] == value
      ensures r.Ok? ==> forall v :: v in tables.rows && v < r.value ==> tables.rows[v].revoked
      ensures Steady(old(script)) ==> !r.Cut? && abandoned == old(abandoned)
      ensures old(script) == [] ==> if r.Ok? then Rotated(old(tables), tables, r.value) else Untouched(old(tables), tables)
      ensures old(script) == [] ==> (r == Err(Unavailable) <==> old(tables).status.Revoked?)
      ensures old(script) == [] ==> (r == Err(Invalid) <==> old(tables).status.Active? && !Fits(value))
      ensures old(script) == [] && old(tables).status.Active? && Fits(value) ==>
        (if fails || old(tables).current + 1 in old(tables).rows then r == Err(Conflict) else r.Ok?)
    {
      hide Created, After, Apply, Enabled, Aad, InBook, Rotated;
      r := Cut;
      Begin(me, kek, RotateStart(value));
      var alive := Elsewhere(me, kek, RotateStart(value));
      if alive {
        var active, version := LoadForRotation(me, kek, value);
        if !active {
          Halt(me);
          return Err(Unavailable);
        }
        r := RotateLoaded(me, kek, version, value, dek, nonce, fails);
      }
    }

    method Begin(me: nat, kek: Kek, pc: Pc)
      requires Valid() && me !in agents && InBook(config.book, kek)
      requires pc.RotateStart? || pc.RevokeStart? || pc.ResolveStart?
      modifies `tables, `agents, `abandoned, `log
      ensures Ready(me, kek, pc) && log == old(log) + [Spawn(me, Agent(kek, pc))] && tables == old(tables)
      ensures abandoned == old(abandoned)
    {
      hide Created, After, InBook, Forward;
      Take(Spawn(me, Agent(kek, pc)));
    }

    method LoadForRotation(me: nat, kek: Kek, value: string) returns (active: bool, version: nat)
      requires Ready(me, kek, RotateStart(value))
      modifies `tables, `agents, `abandoned, `log
      ensures Ready(me, kek, if active then RotateInsert(version, value) else Over)
      ensures log == old(log) + [SecretProtocol.Load(me)] && tables == old(tables) && abandoned == old(abandoned)
      ensures version == tables.current + 1 && active == tables.status.Active?
    {
      hide Created, After, Forward;
      active, version := tables.status.Active?, tables.current + 1;
      Take(SecretProtocol.Load(me));
    }

    /** From the sealing of the new value on. */
    method RotateLoaded(me: nat, kek: Kek, version: nat, value: string, dek: Dek, nonce: nat, fails: bool) returns (r: Answer<nat>)
      requires Ready(me, kek, RotateInsert(version, value))
      modifies `tables, `agents, `abandoned, `log, `script
      ensures Valid() && old(log) <= log && Forward(old(tables), tables) && me !in agents
      ensures r.Ok? ==> old(tables).current < r.value <= tables.current
      ensures r.Ok? ==> r.value in tables.committed && tables.committed[r.value] == value
      ensures r.Ok? ==> forall v :: v in tables.rows && v < r.value ==> tables.rows[v].revoked
      ensures Steady(old(script)) ==> !r.Cut? && abandoned == old(abandoned)
      ensures old(script) == [] ==> if r.Ok? then Rotated(old(tables), tables, r.value) else Untouched(old(tables), tables)
      ensures r.Err? ==> r.error.Invalid? || r.error.Conflict?
      ensures old(script) == [] ==> !r.Cut? && (r == Err(Invalid) <==> !Fits(value))
      ensures old(script) == [] && old(tables).status.Active? && version == old(tables).current + 1 && Fits(value) ==>
        (r.Ok? <==> !fails && version !in old(tables).rows)
    {
      hide Created, After, Apply, Enabled, Aad, InBook, Steady, Rotated, Untouched;
      var sealed := Seal(value, Aad(config, version), kek, dek, nonce);
      if sealed.None? {
        Halt(me);
        SameTables(tables);
        return Err(Invalid);
      }
      var alive := Elsewhere(me, kek, RotateInsert(version, value));
      if !alive { return Cut; }
      r := RotateSealed(me, kek, version, value, sealed.value, dek, nonce, fails);
    }

    /** The new value is sealed; insert it as the next version. */
    method RotateSealed(me: nat, kek: Kek, version: nat, value: string, sealed: Sealed, ghost dek: Dek, ghost nonce: nat, fails: bool)
      returns (r: Answer<nat>)
      requires Ready(me, kek, RotateInsert(version, value)) && Seal(value, Aad(config, version), kek, dek, nonce) == Some(sealed)
      modifies `tables, `agents, `abandoned, `log, `script
      ensures Valid() && old(log) <= log && Forward(old(tables), tables) && me !in agents
      ensures r.Ok? ==> old(tables).current < r.value <= tables.current
      ensures r.Ok? ==> r.value in tables.committed && tables.committed[r.value] == value
      ensures r.Ok? ==> forall v :: v in tables.rows && v < r.value ==> tables.rows[v].revoked
      ensures Steady(old(script)) ==> !r.Cut? && abandoned == old(abandoned)
      ensures old(script) == [] ==> if r.Ok? then Rotated(old(tables), tables, r.value) else Untouched(old(tables), tables)
      ensures (r.Err? ==> r.error.Conflict?) && (old(script) == [] ==> !r.Cut?)
      ensures old(script) == [] && old(tables).status.Active? && version == old(tables).current + 1 ==>
        (r.Ok? <==> !fails && version !in old(tables).rows)
    {
      hide Created, After, Apply, Enabled, Aad, InBook, Seal, Steady;
      RowsBelow(me);
      var inserted := InsertVersion(me, kek, version, value, sealed, dek, nonce);
      if !inserted {
        Halt(me);
        return Err(Conflict);
      }
      var alive := Elsewhere(me, kek, RotateSwap(version, value));
      if !alive { return Cut; }
      r := RotateInserted(me, kek, version, value, fails);
      TakenBackOut(old(tables).rows, version, Row(old(tables).nextId, sealed, false));
    }

    /** The new version is in; make it the current one or take it back out. */
    method RotateInserted(me: nat, kek: Kek, version: nat, value: string, fails: bool) returns (r: Answer<nat>)
      requires Ready(me, kek, RotateSwap(version, value))
      modifies `tables, `agents, `abandoned, `log, `script
      ensures Valid() && old(log) <= log && Forward(old(tables), tables) && me !in agents
      ensures r.Ok? ==> old(tables).current < r.value == version <= tables.current
      ensures r.Ok? ==> r.value in tables.committed && tables.committed[r.value] == value
      ensures r.Ok? ==> forall v :: v in tables.rows && v < r.value ==> tables.rows[v].revoked
      ensures r.Err? ==> r.error.Conflict? && version !in tables.rows
      ensures Steady(old(script)) ==> !r.Cut? && abandoned == old(abandoned)
      ensures old(script) == [] ==>
        !r.Cut? && (r.Ok? <==> !fails && old(tables).current + 1 == version && old(tables).status.Active?)
      ensures old(script) == [] && r.Ok? ==> tables.status == old(tables).status && tables.current == version
      ensures old(script) == [] && r.Ok? ==> tables.rows.Keys == old(tables).rows.Keys
      ensures old(script) == [] && r.Ok? ==> forall v :: v in tables.rows && v >= version ==> tables.rows[v] == old(tables).rows[v]
      ensures old(script) == [] && r.Err? ==> tables == old(tables).(rows := old(tables).rows - {version})
    {
      hide Created, After, Apply, Enabled, Aad, Seal, InBook;
      var swapped := SwapVersion(me, kek, version, value, fails);
      var alive := Elsewhere(me, kek, if swapped then RotateRevoke(version) else RotateDelete(version));
      if !alive { return Cut; }
      if swapped {
        RevokeBelow(me, kek, version);
        r := Ok(version);
      } else {
        DeleteVersionRow(me, kek, version);
        r := Err(Conflict);
      }
      Halt(me);
    }

    /** Revocation marks the secret first and its versions afterwards. */
    method Revoke(me: nat, kek: Kek) returns (r: Answer<()>)
      requires Valid() && me !in agents && InBook(config.book, kek)
      modifies `tables, `agents, `abandoned, `log, `script
      ensures Valid() && old(log) <= log && Forward(old(tables), tables) && me !in agents
      ensures r.Ok? ==> tables.status == Revoked
      ensures r.Ok? || r.Cut?
      ensures old(script) == [] ==> r.Ok?
      ensures old(script) == [] && old(tables).status.Active? ==> forall v :: v in tables.rows ==> tables.rows[v].revoked
      ensures old(script) == [] && old(tables).status.Revoked? ==> tables == old(tables)
    {
      hide Created, After, Apply, Enabled, Aad, InBook;
      Begin(me, kek, RevokeStart);
      var alive := Elsewhere(me, kek, RevokeStart);
      if !alive { return Cut; }
      var done := LoadForRevocation(me, kek);
      if done {
        Halt(me);
        return Ok(());
      }
      r := RevokeLoaded(me, kek);
    }

    method RevokeLoaded(me: nat, kek: Kek) returns (r: Answer<()>)
      requires Ready(me, kek, RevokeStatus)
      modifies `tables, `agents, `abandoned, `log, `script
      ensures Valid() && old(log) <= log && Forward(old(tables), tables) && me !in agents
      ensures r.Ok? ==> tables.status == Revoked && forall v :: v in tables.rows ==> tables.rows[v].revoked
      ensures (r.Ok? || r.Cut?) && (old(script) == [] ==> r.Ok?)
    {
      hide Created, After, Apply, Enabled, Aad, InBook;
      var alive := Elsewhere(me, kek, RevokeStatus);
      if !alive { return Cut; }
      MarkRevoked(me, kek);
      alive := Elsewhere(me, kek, RevokeRows);
      if !alive { return Cut; }
      RevokeEveryRow(me, kek);
      Halt(me);
      return Ok(());
    }

    method LoadForRevocation(me: nat, kek: Kek) returns (done: bool)
      requires Ready(me, kek, RevokeStart)
      modifies `tables, `agents, `abandoned, `log
      ensures Ready(me, kek, if done then Over else RevokeStatus)
      ensures log == old(log) + [SecretProtocol.Load(me)] && tables == old(tables) && done == tables.status.Revoked?
    {
      hide Created, After, Forward;
      done := tables.status.Revoked?;
      Take(SecretProtocol.Load(me));
    }

    method LoadForResolve(me: nat, kek: Kek) returns (active: bool, version: nat)
      requires Ready(me, kek, ResolveStart)
      modifies `tables, `agents, `abandoned, `log
      ensures Ready(me, kek, if active then ResolveRow(version) else Over)
      ensures log == old(log) + [SecretProtocol.Load(me)] && tables == old(tables) && abandoned == old(abandoned)
      ensures version == tables.current && active == tables.status.Active?
    {
      hide Created, After, Forward;
      active, version := tables.status.Active?, tables.current;
      Take(SecretProtocol.Load(me));
    }

    /** select from secret_versions, then unseal */
    method ReadVersion(me: nat, kek: Kek, version: nat) returns (value: Option<string>)
      requires Ready(me, kek, ResolveRow(version))
      modifies `agents, `log
      ensures Ready(me, kek, if value.Some? then Resolved(version, value.value) else Over)
      ensures log == old(log) + [ReadRow(me)]
      ensures version in tables.committed && version in tables.rows
      ensures value == if Knows(kek, tables.rows[version].sealed) then Some(tables.committed[version]) else None
    {
      hide Created, After, Forward, Aad, Unseal, InBook, Knows, Holds;
      Logged(config, start, log, View(), ReadRow(me));
      Mine(me);
      HeldIsRead(config.book, tables.rows[version].sealed, Aad(config, version), tables.committed[version],
                 Aad(config, version), kek);
      value := Unseal(tables.rows[version].sealed, Aad(config, version), kek);
      agents := agents[me := Agent(kek, if value.Some? then Resolved(version, value.value) else Over)];
      log := log + [ReadRow(me)];
    }

    /**
     * Resolution. Whatever it answers was the value of a version that was current during the call; it refuses a purpose
     * that trims to nothing, a worker without the lease, a revoked and an expired secret, and a key it does not have.
     */
    method Resolve(me: nat, kek: Kek, purpose: string, bound: bool, expiresAt: Option<int>, now: int)
      returns (r: Answer<(nat, string)>)
      requires Valid() && me !in agents && InBook(config.book, kek)
      modifies `tables, `agents, `abandoned, `log, `script
      ensures Valid() && old(log) <= log && Forward(old(tables), tables) && me !in agents
      ensures r.Ok? ==> old(tables).current <= r.value.0 <= tables.current
      ensures r.Ok? ==> r.value.0 in tables.committed && tables.committed[r.value.0] == r.value.1
      ensures r.Ok? ==> Lexical.Trim(purpose) != "" && bound && !Expired(expiresAt, now)
      ensures r.Ok? ==> old(tables).status == Active
      ensures r == Err(Invalid) <==> Lexical.Trim(purpose) == ""
      ensures Lexical.Trim(purpose) == "" ==> log == old(log) && tables == old(tables)
      ensures r == Err(Denied) ==> !bound
      ensures r.Ok? || r == Err(Unreadable) ==> bound && old(tables).status.Active? && !Expired(expiresAt, now)
      ensures old(script) == [] ==> !r.Cut? && tables == old(tables)
      ensures old(script) == [] && Lexical.Trim(purpose) != "" ==>
        (r == Err(Denied) <==> !bound) && (r == Err(Unavailable) <==> bound && (tables.status.Revoked? || Expired(expiresAt, now)))
      ensures old(script) == [] && Lexical.Trim(purpose) != "" && bound && tables.status.Active? && !Expired(expiresAt, now) ==>
        tables.current in tables.rows && (r.Ok? <==> Knows(kek, tables.rows[tables.current].sealed))
    {
      hide Created, After, Apply, Enabled, Aad, InBook, Knows, Lexical.Trim;
      if Lexical.Trim(purpose) == "" {
        return Err(Invalid);
      }
      Begin(me, kek, ResolveStart);
      var alive := Elsewhere(me, kek, ResolveStart);
      if !alive { return Cut; }
      var active, version := LoadForResolve(me, kek);
      if !bound || !active || Expired(expiresAt, now) {
        Halt(me);
        return Err(if !bound then Denied else Unavailable);
      }
      r := ResolveLoaded(me, kek, version);
    }

    /** The secret may be resolved: read its row and open it. */
    method ResolveLoaded(me: nat, kek: Kek, version: nat) returns (r: Answer<(nat, string)>)
      requires Ready(me, kek, ResolveRow(version))
      modifies `tables, `agents, `abandoned, `log, `script
      ensures Valid() && old(log) <= log && Forward(old(tables), tables) && me !in agents
      ensures r.Ok? ==> r.value.0 == version && version in tables.committed && tables.committed[version] == r.value.1
      ensures r.Ok? || r.Cut? || r == Err(Unreadable)
      ensures old(script) == [] ==> !r.Cut? && tables == old(tables) && version in tables.rows
      ensures old(script) == [] ==> (r.Ok? <==> Knows(kek, tables.rows[version].sealed))
    {
      hide Created, After, Apply, Enabled, Aad, InBook, Knows;
      var alive := Elsewhere(me, kek, ResolveRow(version));
      if !alive { return Cut; }
      var value := ReadVersion(me, kek, version);
      Halt(me);
      return if value.Some? then Ok((version, value.value)) else Err(Unreadable);
    }
  }

  /** A live secret as the index on names and the one on bindings see it. */
  datatype Listing = Listing(foldedName: string, binding: Option<string>)

  const MAX_NAME := 200

  /** The secrets of one workspace and their first versions. */
  class Registry {
    const workspace: string
    const book: KeyBook
    var secrets: map<string, Listing>
    var versions: map<string, Sealed>

    constructor (workspace: string, book: KeyBook)
      ensures this.workspace == workspace && this.book == book && secrets == map[] && versions == map[]
    {
      this.workspace, this.book := workspace, book;
      secrets, versions := map[], map[];
    }

    predicate Taken(listing: Listing)
      reads this
    {
      exists id :: id in secrets &&
        (secrets[id].foldedName == listing.foldedName || (listing.binding.Some? && secrets[id].binding == listing.binding))
    }

    /**
     * Creation writes the secret and then its first version, and takes the secret back out if the second write fails:
     * only a process that stops in between leaves a secret without a version.
     */
    method Create(id: string, listing: Listing, kindKnown: bool, value: string, kek: Kek, dek: Dek, nonce: nat,
                  refused: bool, dies: bool) returns (r: Answer<string>)
      requires id !in secrets && id !in versions && InBook(book, kek)
      modifies this
      ensures r.Ok? ==> r.value == id && secrets == old(secrets)[id := listing]
      ensures r.Ok? ==> id in versions && versions == old(versions)[id := versions[id]]
      ensures r.Ok? ==> Holds(book, versions[id], SecretAad(workspace, id, 1), value)
      ensures r.Err? ==> secrets == old(secrets) && versions == old(versions)
      ensures r.Cut? ==> secrets == old(secrets)[id := listing] && versions == old(versions)
      ensures r == Err(Invalid) <==> !(kindKnown && Fits(value) && 1 <= |listing.foldedName| <= MAX_NAME)
      ensures r == Err(Conflict) <==> kindKnown && Fits(value) && 1 <= |listing.foldedName| <= MAX_NAME && old(Taken(listing))
      ensures r.Ok? <==> r != Err(Invalid) && r != Err(Conflict) && !refused && !dies
    {
      hide Holds, Wrap, SecretAad;
      var aad := SecretAad(workspace, id, 1);
      var sealed := Seal(value, aad, kek, dek, nonce);
      if !kindKnown || sealed.None? || |listing.foldedName| < 1 || |listing.foldedName| > MAX_NAME {
        return Err(Invalid);
      }
      if Taken(listing) {
        return Err(Conflict);
      }
      secrets := secrets[id := listing];
      if dies {
        return Cut;
      }
      if refused {
        secrets := secrets - {id};
        return Err(Unavailable);
      }
      versions := versions[id := sealed.value];
      SealUnseal(book, value, aad, aad, kek, kek, dek, nonce);
      return Ok(id);
    }
  }

  /** A step taken from the end of a history extends it, and takes nothing back. */
  lemma Logged(c: Config, start: World, log: seq<Event>, w: World, e: Event)
    requires Created(c, start) && After(c, start, log) == Some(w) && Enabled(c, w, e)
    ensures After(c, start, log + [e]) == Some(Apply(c, w, e)) && Forward(w.db, Apply(c, w, e).db)
  {
    hide Created, Inv, Enabled, Apply, Forward;
    StartKeeps(c, start);
    HistoryKeeps(c, start, log);
    StepForward(c, w, e);
    Extend(c, start, log, e);
  }

  lemma TakenBackOut(rows: map<nat, Row>, version: nat, row: Row)
    requires version !in rows
    ensures rows[version := row] - {version} == rows
  {
  }

  lemma SameTables(t: Tables)
    ensures Untouched(t, t)
  {
  }

  lemma OnlyStopsAbandon(c: Config, w: World, e: Event)
    requires Enabled(c, w, e)
    ensures !e.Stop? ==> Apply(c, w, e).abandoned == w.abandoned
  {
  }

  lemma NotMine(c: Config, w: World, e: Event, me: nat)
    requires Enabled(c, w, e) && e.a != me && me in w.agents
    ensures var x := Apply(c, w, e); me in x.agents && x.agents[me] == w.agents[me]
  {
  }
}
