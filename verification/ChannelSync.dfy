/** Bringing the projected channels in line with the accounts the gateway reports. */
module ChannelSync {
  import opened Options

  /** What a channel shows of its account. */
  datatype Face = Face(platform: string, username: Option<string>, displayName: Option<string>, picture: Option<string>, active: bool)

  datatype Account = Account(
    id: string, platform: string, username: Option<string>, displayName: Option<string>, picture: Option<string>, status: string)

  datatype Channel = Channel(id: nat, ref: string, face: Face)

  datatype Update = Update(channelId: nat, face: Face)

  datatype Create = Create(ref: string, face: Face)

  datatype Plan = Plan(creates: seq<Create>, updates: seq<Update>, deactivate: seq<nat>, unsupported: seq<string>)

  const MANUAL := "manual:"

  predicate IsManual(ref: string) {
    MANUAL <= ref
  }

  function Desired(a: Account): Face {
    Face(a.platform, a.username, if a.displayName.Some? then a.displayName else a.username, a.picture, a.status == "active")
  }

  /** The account can be projected: a connector knows its platform, and its id is not one of the manual ones. */
  predicate Projectable(platforms: set<string>, a: Account) {
    a.platform in platforms && !IsManual(a.id)
  }

  /** The gateway channel of an account; of several, the map keeps the last. */
  function ByRef(channels: seq<Channel>, ref: string): (c: Option<Channel>)
    ensures c.Some? ==> c.value in channels && c.value.ref == ref && !IsManual(ref)
    ensures c.None? ==> forall i :: 0 <= i < |channels| ==> channels[i].ref != ref || IsManual(ref)
  {
    if channels == [] then None
    else
      var last := channels[|channels| - 1];
      if last.ref == ref && !IsManual(ref) then Some(last) else ByRef(channels[..|channels| - 1], ref)
  }

  predicate Observed(accounts: seq<Account>, ref: string) {
    exists i :: 0 <= i < |accounts| && accounts[i].id == ref
  }

  predicate Stale(accounts: seq<Account>, c: Channel) {
    !IsManual(c.ref) && c.face.active && !Observed(accounts, c.ref)
  }

  function Creates(platforms: set<string>, accounts: seq<Account>, channels: seq<Channel>): seq<Create> {
    if accounts == [] then []
    else
      var a := accounts[|accounts| - 1];
      Creates(platforms, accounts[..|accounts| - 1], channels)
      + if Projectable(platforms, a) && ByRef(channels, a.id).None? then [Create(a.id, Desired(a))] else []
  }

  /** The account's channel shows something else. */
  predicate Differs(channels: seq<Channel>, a: Account) {
    ByRef(channels, a.id).Some? && ByRef(channels, a.id).value.face != Desired(a)
  }

  function Updates(platforms: set<string>, accounts: seq<Account>, channels: seq<Channel>): seq<Update> {
    if accounts == [] then []
    else
      var a := accounts[|accounts| - 1];
      Updates(platforms, accounts[..|accounts| - 1], channels)
      + if Projectable(platforms, a) && Differs(channels, a) then [Update(ByRef(channels, a.id).value.id, Desired(a))] else []
  }

  function Unsupported(platforms: set<string>, accounts: seq<Account>): seq<string> {
    if accounts == [] then []
    else
      var a := accounts[|accounts| - 1];
      Unsupported(platforms, accounts[..|accounts| - 1]) + if Projectable(platforms, a) then [] else [a.id]
  }

  function StaleIds(accounts: seq<Account>, channels: seq<Channel>): seq<nat> {
    if channels == [] then []
    else
      var c := channels[|channels| - 1];
      StaleIds(accounts, channels[..|channels| - 1]) + if Stale(accounts, c) then [c.id] else []
  }

  function PlanOf(platforms: set<string>, accounts: seq<Account>, channels: seq<Channel>): Plan {
    Plan(Creates(platforms, accounts, channels), Updates(platforms, accounts, channels), StaleIds(accounts, channels),
         Unsupported(platforms, accounts))
  }

  /** `planGatewayChannelSync` */
  method PlanSync(platforms: set<string>, accounts: seq<Account>, channels: seq<Channel>) returns (plan: Plan)
    ensures plan == PlanOf(platforms, accounts, channels)
  {
    var creates: seq<Create>, updates: seq<Update>, unsupported: seq<string>, stale: seq<nat> := [], [], [], [];
    var observed: set<string> := {};
    for n := 0 to |accounts|
      invariant creates == Creates(platforms, accounts[..n], channels) && updates == Updates(platforms, accounts[..n], channels)
      invariant unsupported == Unsupported(platforms, accounts[..n])
      invariant forall ref :: ref in observed <==> exists i :: 0 <= i < n && accounts[i].id == ref
    {
      var a := accounts[n];
      assert accounts[..n + 1][..n] == accounts[..n];
      observed := observed + {a.id};
      if !(a.platform in platforms) || IsManual(a.id) {
        unsupported := unsupported + [a.id];
      } else {
        var existing := ByRef(channels, a.id);
        if existing.None? {
          creates := creates + [Create(a.id, Desired(a))];
        } else if existing.value.face != Desired(a) {
          updates := updates + [Update(existing.value.id, Desired(a))];
        }
      }
    }
    assert accounts[..|accounts|] == accounts;
    for n := 0 to |channels|
      invariant stale == StaleIds(accounts, channels[..n])
    {
      var c := channels[n];
      assert channels[..n + 1][..n] == channels[..n];
      if !IsManual(c.ref) && c.face.active && c.ref !in observed {
        stale := stale + [c.id];
      }
    }
    assert channels[..|channels|] == channels;
    return Plan(creates, updates, stale, unsupported);
  }

  // ---------------------------------------------------------------------------
  // Carrying a plan out
  // ---------------------------------------------------------------------------

  ghost predicate DistinctAccounts(accounts: seq<Account>) {
    forall i, j :: 0 <= i < j < |accounts| ==> accounts[i].id != accounts[j].id
  }

  ghost predicate DistinctChannels(channels: seq<Channel>) {
    forall i, j :: 0 <= i < j < |channels| ==> channels[i].id != channels[j].id
  }

  function WithUpdate(channels: seq<Channel>, u: Update): (r: seq<Channel>)
    ensures |r| == |channels|
    ensures forall i :: 0 <= i < |r| ==> r[i] == if channels[i].id == u.channelId then channels[i].(face := u.face) else channels[i]
  {
    if channels == [] then []
    else
      WithUpdate(channels[..|channels| - 1], u)
      + [if channels[|channels| - 1].id == u.channelId then channels[|channels| - 1].(face := u.face) else channels[|channels| - 1]]
  }

  function WithUpdates(channels: seq<Channel>, us: seq<Update>): (r: seq<Channel>)
    ensures |r| == |channels|
    ensures forall i :: 0 <= i < |r| ==> r[i].id == channels[i].id && r[i].ref == channels[i].ref
    ensures forall i :: 0 <= i < |r| && (forall u :: u in us ==> u.channelId != channels[i].id) ==> r[i] == channels[i]
    decreases |us|
  {
    if us == [] then channels else WithUpdate(WithUpdates(channels, us[..|us| - 1]), us[|us| - 1])
  }

  function Deactivated(channels: seq<Channel>, ids: seq<nat>): (r: seq<Channel>)
    ensures |r| == |channels|
    ensures forall i :: 0 <= i < |r| ==>
      r[i] == if channels[i].id in ids then channels[i].(face := channels[i].face.(active := false)) else channels[i]
  {
    if channels == [] then []
    else
      var c := channels[|channels| - 1];
      Deactivated(channels[..|channels| - 1], ids) + [if c.id in ids then c.(face := c.face.(active := false)) else c]
  }

  /** Inserted rows get ids no channel has. */
  function Inserted(creates: seq<Create>, newId: nat): (r: seq<Channel>)
    ensures |r| == |creates| && forall i :: 0 <= i < |r| ==> r[i] == Channel(newId + i, creates[i].ref, creates[i].face)
  {
    seq(|creates|, i requires 0 <= i < |creates| => Channel(newId + i, creates[i].ref, creates[i].face))
  }

  /** The channels after the plan: rows inserted, then updated, then deactivated. */
  function Applied(channels: seq<Channel>, plan: Plan, newId: nat): seq<Channel> {
    Deactivated(WithUpdates(channels + Inserted(plan.creates, newId), plan.updates), plan.deactivate)
  }

  predicate Corrects(platforms: set<string>, channels: seq<Channel>, a: Account, u: Update) {
    Projectable(platforms, a) && Differs(channels, a) && u == Update(ByRef(channels, a.id).value.id, Desired(a))
  }

  lemma {:induction false} UpdatesAre(platforms: set<string>, accounts: seq<Account>, channels: seq<Channel>, u: Update)
    requires u in Updates(platforms, accounts, channels)
    ensures exists a :: a in accounts && Corrects(platforms, channels, a, u)
  {
    var rest, a := accounts[..|accounts| - 1], accounts[|accounts| - 1];
    if u in Updates(platforms, rest, channels) {
      UpdatesAre(platforms, rest, channels, u);
      var b :| b in rest && Corrects(platforms, channels, b, u);
      assert b in accounts;
    } else {
      assert a in accounts && Corrects(platforms, channels, a, u);
    }
  }

  lemma {:induction false} CreatesAre(platforms: set<string>, accounts: seq<Account>, channels: seq<Channel>, x: Create)
    requires x in Creates(platforms, accounts, channels)
    ensures exists a :: a in accounts && Projectable(platforms, a) && ByRef(channels, a.id).None? && x == Create(a.id, Desired(a))
  {
    var rest, a := accounts[..|accounts| - 1], accounts[|accounts| - 1];
    if x in Creates(platforms, rest, channels) {
      CreatesAre(platforms, rest, channels, x);
      var b :| b in rest && Projectable(platforms, b) && ByRef(channels, b.id).None? && x == Create(b.id, Desired(b));
      assert b in accounts;
    } else {
      assert a in accounts;
    }
  }

  lemma {:induction false} StaleAre(accounts: seq<Account>, channels: seq<Channel>, id: nat)
    ensures id in StaleIds(accounts, channels) <==> exists c :: c in channels && Stale(accounts, c) && c.id == id
  {
    if channels != [] {
      var rest, c := channels[..|channels| - 1], channels[|channels| - 1];
      StaleAre(accounts, rest, id);
      assert forall d :: d in channels <==> d in rest || d == c;
    }
  }

  lemma {:induction false} UpdatesHave(platforms: set<string>, accounts: seq<Account>, channels: seq<Channel>, a: Account)
    requires a in accounts && Projectable(platforms, a)
    ensures Differs(channels, a) ==> Update(ByRef(channels, a.id).value.id, Desired(a)) in Updates(platforms, accounts, channels)
    ensures ByRef(channels, a.id).None? ==> Create(a.id, Desired(a)) in Creates(platforms, accounts, channels)
  {
    var rest, last := accounts[..|accounts| - 1], accounts[|accounts| - 1];
    if a in rest {
      UpdatesHave(platforms, rest, channels, a);
    }
  }

  lemma {:induction false} UnsupportedAre(platforms: set<string>, accounts: seq<Account>, ref: string)
    ensures ref in Unsupported(platforms, accounts) <==> exists a :: a in accounts && !Projectable(platforms, a) && a.id == ref
  {
    if accounts != [] {
      var rest, last := accounts[..|accounts| - 1], accounts[|accounts| - 1];
      UnsupportedAre(platforms, rest, ref);
      assert forall b :: b in accounts <==> b in rest || b == last;
    }
  }

  /** The plan holds what is needed and nothing else, entry by entry. */
  lemma PlanIsExact(platforms: set<string>, accounts: seq<Account>, channels: seq<Channel>, x: Create, u: Update, id: nat, ref: string)
    ensures var plan := PlanOf(platforms, accounts, channels);
      && (x in plan.creates <==>
            exists a :: a in accounts && Projectable(platforms, a) && ByRef(channels, a.id).None? && x == Create(a.id, Desired(a)))
      && (u in plan.updates <==> exists a :: a in accounts && Corrects(platforms, channels, a, u))
      && (id in plan.deactivate <==> exists c :: c in channels && Stale(accounts, c) && c.id == id)
      && (ref in plan.unsupported <==> exists a :: a in accounts && (a.platform !in platforms || MANUAL <= a.id) && a.id == ref)
  {
    hide Desired, ByRef;
    StaleAre(accounts, channels, id);
    UnsupportedAre(platforms, accounts, ref);
    if x in Creates(platforms, accounts, channels) {
      CreatesAre(platforms, accounts, channels, x);
    }
    if u in Updates(platforms, accounts, channels) {
      UpdatesAre(platforms, accounts, channels, u);
    }
    forall a | a in accounts && Projectable(platforms, a)
      ensures ByRef(channels, a.id).None? ==> Create(a.id, Desired(a)) in Creates(platforms, accounts, channels)
      ensures Differs(channels, a) ==> Update(ByRef(channels, a.id).value.id, Desired(a)) in Updates(platforms, accounts, channels)
    {
      UpdatesHave(platforms, accounts, channels, a);
    }
  }

  lemma {:induction false} UpdateWins(channels: seq<Channel>, us: seq<Update>, u: Update, i: nat)
    requires u in us && i < |channels| && channels[i].id == u.channelId
    requires forall v :: v in us && v.channelId == u.channelId ==> v == u
    ensures WithUpdates(channels, us)[i] == channels[i].(face := u.face)
    decreases |us|
  {
    var rest, last := us[..|us| - 1], us[|us| - 1];
    assert last in us;
    if u in rest {
      UpdateWins(channels, rest, u, i);
    }
  }

  ghost predicate Setting(accounts: seq<Account>, channels: seq<Channel>, newId: nat) {
    DistinctAccounts(accounts) && DistinctChannels(channels) && forall i :: 0 <= i < |channels| ==> channels[i].id < newId
  }

  lemma SameAccount(accounts: seq<Account>, a: Account, b: Account)
    requires DistinctAccounts(accounts) && a in accounts && b in accounts && a.id == b.id
    ensures a == b
  {
  }

  lemma SameChannel(channels: seq<Channel>, c: Channel, d: Channel)
    requires DistinctChannels(channels) && c in channels && d in channels && c.id == d.id
    ensures c == d
  {
  }

  /** An update belongs to a channel that is the projection of an observed account. */
  lemma UpdatedIsObserved(platforms: set<string>, accounts: seq<Account>, channels: seq<Channel>, u: Update, c: Channel)
    requires DistinctChannels(channels) && u in Updates(platforms, accounts, channels) && c in channels && c.id == u.channelId
    ensures !IsManual(c.ref) && Observed(accounts, c.ref)
    ensures exists a :: a in accounts && a.id == c.ref && Corrects(platforms, channels, a, u)
  {
    UpdatesAre(platforms, accounts, channels, u);
    var a :| a in accounts && Corrects(platforms, channels, a, u);
    SameChannel(channels, c, ByRef(channels, a.id).value);
    var i :| 0 <= i < |accounts| && accounts[i] == a;
  }

  /** What the plan makes of a channel that was there. */
  lemma OldChannel(platforms: set<string>, accounts: seq<Account>, channels: seq<Channel>, newId: nat, i: nat)
    requires Setting(accounts, channels, newId) && i < |channels|
    ensures var d := Applied(channels, PlanOf(platforms, accounts, channels), newId)[i];
      var c := channels[i];
      && d.id == c.id && d.ref == c.ref && (IsManual(c.ref) ==> d == c)
      && (Stale(accounts, c) ==> !d.face.active) && (!Observed(accounts, c.ref) && !c.face.active ==> d == c)
      && (forall a :: a in accounts && Projectable(platforms, a) && ByRef(channels, a.id) == Some(c) ==> d.face == Desired(a))
  {
    var plan := PlanOf(platforms, accounts, channels);
    var all := channels + Inserted(plan.creates, newId);
    var c := channels[i];
    assert c in channels;
    StaleAre(accounts, channels, c.id);
    if c.id in plan.deactivate {
      var e :| e in channels && Stale(accounts, e) && e.id == c.id;
      SameChannel(channels, c, e);
    }
    forall u | u in plan.updates && u.channelId == c.id
      ensures !IsManual(c.ref) && Observed(accounts, c.ref)
    {
      UpdatedIsObserved(platforms, accounts, channels, u, c);
    }
    forall a | a in accounts && Projectable(platforms, a) && ByRef(channels, a.id) == Some(c)
      ensures WithUpdates(all, plan.updates)[i].face == Desired(a) && Observed(accounts, c.ref)
    {
      ProjectedChannel(platforms, accounts, channels, all, i, a);
    }
  }

  lemma ProjectedChannel(platforms: set<string>, accounts: seq<Account>, channels: seq<Channel>, all: seq<Channel>, i: nat, a: Account)
    requires DistinctAccounts(accounts) && DistinctChannels(channels) && i < |channels| <= |all| && all[i] == channels[i]
    requires a in accounts && Projectable(platforms, a) && ByRef(channels, a.id) == Some(channels[i])
    ensures WithUpdates(all, Updates(platforms, accounts, channels))[i].face == Desired(a) && Observed(accounts, channels[i].ref)
  {
    hide Updates, WithUpdates, ByRef, Desired;
    var us := Updates(platforms, accounts, channels);
    var n :| 0 <= n < |accounts| && accounts[n] == a;
    UpdatesHave(platforms, accounts, channels, a);
    forall v | v in us && v.channelId == channels[i].id
      ensures Differs(channels, a) && v == Update(channels[i].id, Desired(a))
    {
      UpdatedIsObserved(platforms, accounts, channels, v, channels[i]);
      var b :| b in accounts && b.id == channels[i].ref && Corrects(platforms, channels, b, v);
      SameAccount(accounts, a, b);
    }
    if Differs(channels, a) {
      UpdateWins(all, us, Update(channels[i].id, Desired(a)), i);
    }
  }

  /** Inserted rows are as planned. */
  lemma NewChannel(platforms: set<string>, accounts: seq<Account>, channels: seq<Channel>, newId: nat, j: nat)
    requires Setting(accounts, channels, newId) && j < |Creates(platforms, accounts, channels)|
    ensures var plan := PlanOf(platforms, accounts, channels);
      Applied(channels, plan, newId)[|channels| + j] == Channel(newId + j, plan.creates[j].ref, plan.creates[j].face)
  {
    var plan := PlanOf(platforms, accounts, channels);
    var id := newId + j;
    StaleAre(accounts, channels, id);
    forall u | u in plan.updates
      ensures u.channelId != id
    {
      UpdatesAre(platforms, accounts, channels, u);
    }
  }

  lemma {:induction false} LastIs(channels: seq<Channel>, ref: string, i: nat)
    requires i < |channels| && channels[i].ref == ref && !IsManual(ref)
    requires forall j :: i < j < |channels| ==> channels[j].ref != ref
    ensures ByRef(channels, ref) == Some(channels[i])
    decreases |channels|
  {
    if i < |channels| - 1 {
      LastIs(channels[..|channels| - 1], ref, i);
    }
  }

  lemma {:induction false} LastOf(channels: seq<Channel>, ref: string) returns (i: nat)
    requires ByRef(channels, ref).Some?
    ensures i < |channels| && ByRef(channels, ref) == Some(channels[i])
    ensures forall j :: i < j < |channels| ==> channels[j].ref != ref
    decreases |channels|
  {
    i := |channels| - 1;
    if channels[i].ref != ref {
      i := LastOf(channels[..|channels| - 1], ref);
    }
  }

  /** An inserted row with the account's id shows what the account should show. */
  lemma InsertedFace(platforms: set<string>, accounts: seq<Account>, channels: seq<Channel>, newId: nat, a: Account, k: nat)
    requires Setting(accounts, channels, newId) && a in accounts && Projectable(platforms, a)
    requires |channels| <= k < |Applied(channels, PlanOf(platforms, accounts, channels), newId)|
    ensures var d := Applied(channels, PlanOf(platforms, accounts, channels), newId)[k];
      !IsManual(d.ref) && Observed(accounts, d.ref) && (d.ref == a.id ==> ByRef(channels, a.id).None? && d.face == Desired(a))
  {
    hide Applied, Creates;
    var plan := PlanOf(platforms, accounts, channels);
    AppliedLength(channels, plan, newId);
    var j := k - |channels|;
    NewChannel(platforms, accounts, channels, newId, j);
    assert plan.creates[j] in plan.creates;
    CreatesAre(platforms, accounts, channels, plan.creates[j]);
    var b :| b in accounts && Projectable(platforms, b) && ByRef(channels, b.id).None? && plan.creates[j] == Create(b.id, Desired(b));
    var n :| 0 <= n < |accounts| && accounts[n] == b;
    if b.id == a.id {
      SameAccount(accounts, a, b);
    }
  }

  /** After the plan, every account that can be projected has its channel, and it shows what it should. */
  lemma AccountIsProjected(platforms: set<string>, accounts: seq<Account>, channels: seq<Channel>, newId: nat, a: Account)
    requires Setting(accounts, channels, newId) && a in accounts && Projectable(platforms, a)
    ensures var after := Applied(channels, PlanOf(platforms, accounts, channels), newId);
      ByRef(after, a.id).Some? && ByRef(after, a.id).value.face == Desired(a)
  {
    if ByRef(channels, a.id).Some? {
      StillProjected(platforms, accounts, channels, newId, a);
    } else {
      NewlyProjected(platforms, accounts, channels, newId, a);
    }
  }

  /** Column by column: the channel shows the account's fields, and it is active exactly if the account is. */
  lemma ChannelShowsAccount(platforms: set<string>, accounts: seq<Account>, channels: seq<Channel>, newId: nat, a: Account)
    requires Setting(accounts, channels, newId) && a in accounts && a.platform in platforms && !(MANUAL <= a.id)
    ensures var shown := ByRef(Applied(channels, PlanOf(platforms, accounts, channels), newId), a.id);
      && shown.Some? && shown.value.ref == a.id
      && (shown.value.face.active <==> a.status == "active")
      && shown.value.face.platform == a.platform && shown.value.face.username == a.username
      && shown.value.face.picture == a.picture
      && (a.displayName.Some? ==> shown.value.face.displayName == a.displayName)
      && (a.displayName.None? ==> shown.value.face.displayName == a.username)
  {
    hide Applied, PlanOf, ByRef;
    AccountIsProjected(platforms, accounts, channels, newId, a);
    var all := Applied(channels, PlanOf(platforms, accounts, channels), newId);
    RefOf(all, a.id);
  }

  lemma RefOf(channels: seq<Channel>, ref: string)
    ensures ByRef(channels, ref).Some? ==> ByRef(channels, ref).value.ref == ref
  {
  }

  lemma StillProjected(platforms: set<string>, accounts: seq<Account>, channels: seq<Channel>, newId: nat, a: Account)
    requires Setting(accounts, channels, newId) && a in accounts && Projectable(platforms, a) && ByRef(channels, a.id).Some?
    ensures var after := Applied(channels, PlanOf(platforms, accounts, channels), newId);
      ByRef(after, a.id).Some? && ByRef(after, a.id).value.face == Desired(a)
  {
    hide Applied, ByRef, PlanOf;
    var plan := PlanOf(platforms, accounts, channels);
    var after := Applied(channels, plan, newId);
    AppliedLength(channels, plan, newId);
    var i := LastOf(channels, a.id);
    OldChannel(platforms, accounts, channels, newId, i);
    forall j | i < j < |after|
      ensures after[j].ref != a.id
    {
      if j < |channels| {
        OldChannel(platforms, accounts, channels, newId, j);
      } else {
        InsertedFace(platforms, accounts, channels, newId, a, j);
      }
    }
    LastIs(after, a.id, i);
  }

  lemma AppliedLength(channels: seq<Channel>, plan: Plan, newId: nat)
    ensures |Applied(channels, plan, newId)| == |channels| + |plan.creates|
  {
  }

  lemma NewlyProjected(platforms: set<string>, accounts: seq<Account>, channels: seq<Channel>, newId: nat, a: Account)
    requires Setting(accounts, channels, newId) && a in accounts && Projectable(platforms, a) && ByRef(channels, a.id).None?
    ensures var after := Applied(channels, PlanOf(platforms, accounts, channels), newId);
      ByRef(after, a.id).Some? && ByRef(after, a.id).value.face == Desired(a)
  {
    hide Applied, ByRef, Creates;
    var plan := PlanOf(platforms, accounts, channels);
    var after := Applied(channels, plan, newId);
    AppliedLength(channels, plan, newId);
    UpdatesHave(platforms, accounts, channels, a);
    var j :| 0 <= j < |plan.creates| && plan.creates[j] == Create(a.id, Desired(a));
    NewChannel(platforms, accounts, channels, newId, j);
    assert after[|channels| + j].ref == a.id;
    var i := LastOf(after, a.id);
    forall k | 0 <= k < |channels|
      ensures after[k].ref != a.id
    {
      OldChannel(platforms, accounts, channels, newId, k);
    }
    InsertedFace(platforms, accounts, channels, newId, a, i);
  }

  lemma {:induction false} NothingToChange(platforms: set<string>, accounts: seq<Account>, channels: seq<Channel>)
    requires forall a :: a in accounts && Projectable(platforms, a) ==>
      ByRef(channels, a.id).Some? && ByRef(channels, a.id).value.face == Desired(a)
    ensures Creates(platforms, accounts, channels) == [] && Updates(platforms, accounts, channels) == []
  {
    if accounts != [] {
      NothingToChange(platforms, accounts[..|accounts| - 1], channels);
      assert accounts[|accounts| - 1] in accounts;
    }
  }

  lemma {:induction false} NothingStale(accounts: seq<Account>, channels: seq<Channel>)
    requires forall i :: 0 <= i < |channels| ==> !Stale(accounts, channels[i])
    ensures StaleIds(accounts, channels) == []
  {
    if channels != [] {
      NothingStale(accounts, channels[..|channels| - 1]);
    }
  }

  /** One sync settles everything: planning again finds nothing to create, update or deactivate. */
  lemma SyncConverges(platforms: set<string>, accounts: seq<Account>, channels: seq<Channel>, newId: nat)
    requires Setting(accounts, channels, newId)
    ensures var after := Applied(channels, PlanOf(platforms, accounts, channels), newId);
      PlanOf(platforms, accounts, after) == Plan([], [], [], Unsupported(platforms, accounts))
  {
    hide Applied, ByRef, Creates, Updates, StaleIds;
    var plan := PlanOf(platforms, accounts, channels);
    var after := Applied(channels, plan, newId);
    forall a | a in accounts && Projectable(platforms, a)
      ensures ByRef(after, a.id).Some? && ByRef(after, a.id).value.face == Desired(a)
    {
      AccountIsProjected(platforms, accounts, channels, newId, a);
    }
    NothingToChange(platforms, accounts, after);
    AppliedLength(channels, plan, newId);
    forall i | 0 <= i < |after|
      ensures !Stale(accounts, after[i])
    {
      if i < |channels| {
        OldChannel(platforms, accounts, channels, newId, i);
      } else {
        InsertedIsObserved(platforms, accounts, channels, newId, i);
      }
    }
    NothingStale(accounts, after);
  }

  lemma InsertedIsObserved(platforms: set<string>, accounts: seq<Account>, channels: seq<Channel>, newId: nat, k: nat)
    requires Setting(accounts, channels, newId)
    requires |channels| <= k < |Applied(channels, PlanOf(platforms, accounts, channels), newId)|
    ensures var d := Applied(channels, PlanOf(platforms, accounts, channels), newId)[k];
      !IsManual(d.ref) && Observed(accounts, d.ref)
  {
    hide Applied, Creates;
    var plan := PlanOf(platforms, accounts, channels);
    AppliedLength(channels, plan, newId);
    assert plan.creates[k - |channels|] in plan.creates;
    CreatesAre(platforms, accounts, channels, plan.creates[k - |channels|]);
    var b :| b in accounts && Projectable(platforms, b) && plan.creates[k - |channels|] == Create(b.id, Desired(b));
    InsertedFace(platforms, accounts, channels, newId, b, k);
  }

  /** Channels an operator registered by hand stay as they are, and none is added. */
  lemma ManualChannelsStay(platforms: set<string>, accounts: seq<Account>, channels: seq<Channel>, newId: nat, i: nat)
    requires Setting(accounts, channels, newId)
    requires i < |Applied(channels, PlanOf(platforms, accounts, channels), newId)|
    requires IsManual(Applied(channels, PlanOf(platforms, accounts, channels), newId)[i].ref)
    ensures i < |channels| && Applied(channels, PlanOf(platforms, accounts, channels), newId)[i] == channels[i]
  {
    hide Applied;
    if i < |channels| {
      OldChannel(platforms, accounts, channels, newId, i);
    } else {
      InsertedIsObserved(platforms, accounts, channels, newId, i);
    }
  }
}
