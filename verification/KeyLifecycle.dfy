/** Key creation, rotation, revocation and authentication by concurrent requests, one commit at a time. */
module KeyLifecycle {
  import opened Options
  import opened ApiKeys

  /** A rotation request: it has read its key, or committed the replacement, or is over. */
  datatype Rotation =
    | Loaded(oldId: nat, days: Option<int>)
    | Inserted(oldId: nat, newId: nat)
    | Over(oldId: nat, newId: nat)
    | Abandoned

  datatype State = State(now: int, keys: seq<ApiKey>, rotations: map<nat, Rotation>)

  datatype Action =
    | Create(project: nat, hash: nat, days: Option<int>)
    | Load(id: nat, project: nat, keyId: nat)
    | Insert(id: nat, hash: nat)
    | DisableOld(id: nat)
    | Abandon(id: nat)
    | Revoke(project: nat, keyId: nat)
    | Use(keyId: nat)
    | Tick(elapsed: int)

  function Init(start: int): State {
    State(start, [], map[])
  }

  predicate FreshHash(keys: seq<ApiKey>, hash: nat) {
    forall i :: 0 <= i < |keys| ==> keys[i].hash != hash
  }

  predicate Enabled(s: State, a: Action) {
    match a
    case Create(_, hash, _) => FreshHash(s.keys, hash)
    case Load(id, project, keyId) => id !in s.rotations && keyId < |s.keys| && s.keys[keyId].project == project
    case Insert(id, hash) =>
      && id in s.rotations && s.rotations[id].Loaded? && s.rotations[id].oldId < |s.keys|
      && FreshHash(s.keys, hash)
    case DisableOld(id) => id in s.rotations && s.rotations[id].Inserted? && s.rotations[id].oldId < |s.keys|
    case Abandon(id) => id in s.rotations
    case Revoke(project, keyId) => keyId < |s.keys| && s.keys[keyId].project == project
    case Use(keyId) => keyId < |s.keys| && Active(s.keys[keyId], s.now)
    case Tick(elapsed) => 0 < elapsed
  }

  function Disable(keys: seq<ApiKey>, id: nat): seq<ApiKey>
    requires id < |keys|
  {
    keys[id := keys[id].(enabled := false)]
  }

  function Next(s: State, a: Action): State
    requires Enabled(s, a)
  {
    match a
    case Create(project, hash, days) =>
      s.(keys := s.keys + [ApiKey(project, hash, true, ExpiryFrom(days, s.now), None)])
    case Load(id, _, keyId) =>
      s.(rotations := s.rotations[id := Loaded(keyId, InheritedDays(s.keys[keyId].expiresAt, s.now))])
    case Insert(id, hash) =>
      var Loaded(oldId, days) := s.rotations[id];
      s.(keys := s.keys + [ApiKey(s.keys[oldId].project, hash, true, ExpiryFrom(days, s.now), None)],
         rotations := s.rotations[id := Inserted(oldId, |s.keys|)])
    case DisableOld(id) =>
      var Inserted(oldId, newId) := s.rotations[id];
      s.(keys := Disable(s.keys, oldId), rotations := s.rotations[id := Over(oldId, newId)])
    case Abandon(id) => s.(rotations := s.rotations[id := Abandoned])
    case Revoke(_, keyId) => s.(keys := Disable(s.keys, keyId))
    case Use(keyId) =>
      if Stale(s.keys[keyId].lastUsedAt, s.now) then
        s.(keys := s.keys[keyId := s.keys[keyId].(lastUsedAt := Some(s.now))])
      else s
    case Tick(elapsed) => s.(now := s.now + elapsed)
  }

  predicate CanRun(s: State, acts: seq<Action>)
    decreases |acts|
  {
    acts == [] || (Enabled(s, acts[0]) && CanRun(Next(s, acts[0]), acts[1..]))
  }

  function Run(s: State, acts: seq<Action>): State
    requires CanRun(s, acts)
    decreases |acts|
  {
    if acts == [] then s else Run(Next(s, acts[0]), acts[1..])
  }

  // ---- The handlers are runs of the protocol ----

  /** A lookup by hash: it finds a key exactly when some key of that hash may be used now, and uses it. */
  method LookUp(table: KeyTable, hash: nat, now: int, ghost s: State) returns (found: Option<nat>, ghost t: State)
    requires table.keys == s.keys && now == s.now && UniqueHashes(s.keys)
    modifies table
    ensures found.None? <==> forall i: nat :: i < |s.keys| && s.keys[i].hash == hash ==> !Enabled(s, Use(i))
    ensures found.None? ==> t == s
    ensures found.Some? ==> Enabled(s, Use(found.value)) && t == Next(s, Use(found.value))
    ensures table.keys == t.keys
  {
    found := table.ProjectFromKey(hash, now, true);
    t := if found.Some? then Next(s, Use(found.value)) else s;
  }

  /** A new key. */
  method CreateKey(table: KeyTable, project: nat, hash: nat, days: Option<int>, now: int, ghost s: State)
    returns (id: nat)
    requires table.keys == s.keys && now == s.now && FreshHash(s.keys, hash)
    modifies table
    ensures Enabled(s, Create(project, hash, days)) && table.keys == Next(s, Create(project, hash, days)).keys
    ensures id == |s.keys|
  {
    id := table.CreateKeyRecord(project, hash, days, now);
  }

  ghost predicate Leads(s: State, t: State) {
    exists acts :: CanRun(s, acts) && Run(s, acts) == t
  }

  lemma {:induction false} RunOneMore(s: State, acts: seq<Action>, a: Action)
    requires CanRun(s, acts) && Enabled(Run(s, acts), a)
    ensures CanRun(s, acts + [a]) && Run(s, acts + [a]) == Next(Run(s, acts), a)
    decreases |acts|
  {
    if acts == [] {
      assert acts + [a] == [a] && [a][1..] == [];
    } else {
      RunOneMore(Next(s, acts[0]), acts[1..], a);
      assert (acts + [a])[1..] == acts[1..] + [a];
    }
  }

  lemma LeadsOn(s: State, t: State, a: Action)
    requires Leads(s, t) && Enabled(t, a)
    ensures Leads(s, Next(t, a))
  {
    var acts :| CanRun(s, acts) && Run(s, acts) == t;
    RunOneMore(s, acts, a);
  }

  /** A rotation with nothing else committed meanwhile: the key is read, time passes, the replacement is inserted and
      the old key disabled. */
  method Rotate(table: KeyTable, id: nat, project: nat, keyId: nat, newHash: nat, now: int, elapsed: nat,
                ghost s: State)
    returns (replacement: Option<nat>, ghost t: State)
    requires table.keys == s.keys && now == s.now && id !in s.rotations && FreshHash(s.keys, newHash)
    modifies table
    ensures replacement.Some? <==> Enabled(s, Load(id, project, keyId))
    ensures table.keys == t.keys && Leads(s, t)
    ensures replacement.None? ==> t == s
    ensures replacement.Some? ==>
              && t.now == s.now + elapsed
              && t.rotations == s.rotations[id := Over(keyId, replacement.value)]
  {
    ghost var between;
    replacement, between := table.RotateApiKey(project, keyId, newHash, now, now + elapsed);
    assert CanRun(s, []) && Run(s, []) == s;
    t := s;
    if replacement.Some? {
      t := Rotated(s, id, project, keyId, newHash, elapsed);
    }
  }

  lemma Rotated(s: State, id: nat, project: nat, keyId: nat, newHash: nat, elapsed: nat) returns (t: State)
    requires Enabled(s, Load(id, project, keyId)) && FreshHash(s.keys, newHash) && Leads(s, s)
    ensures Leads(s, t)
    ensures t == State(s.now + elapsed, RotatedKeys(s, keyId, newHash, elapsed),
                       s.rotations[id := Over(keyId, |s.keys|)])
  {
    LeadsOn(s, s, Load(id, project, keyId));
    t := Next(s, Load(id, project, keyId));
    if 0 < elapsed {
      LeadsOn(s, t, Tick(elapsed));
      t := Next(t, Tick(elapsed));
    }
    LeadsOn(s, t, Insert(id, newHash));
    t := Next(t, Insert(id, newHash));
    LeadsOn(s, t, DisableOld(id));
    t := Next(t, DisableOld(id));
  }

  /** The table after a whole rotation. */
  function RotatedKeys(s: State, keyId: nat, newHash: nat, elapsed: nat): seq<ApiKey>
    requires keyId < |s.keys|
  {
    var key := s.keys[keyId];
    Disable(s.keys + [ApiKey(key.project, newHash, true, RotatedExpiry(key.expiresAt, s.now, s.now + elapsed), None)],
            keyId)
  }

  /** A revocation. */
  method RevokeKey(table: KeyTable, project: nat, keyId: nat, ghost s: State) returns (found: bool)
    requires table.keys == s.keys
    modifies table
    ensures found <==> Enabled(s, Revoke(project, keyId))
    ensures table.keys == if found then Next(s, Revoke(project, keyId)).keys else s.keys
  {
    found := table.RevokeApiKey(project, keyId);
  }

  /** No two keys ever have the same hash, so a lookup has one key to find. */
  lemma {:induction false} HashesStayUnique(s: State, acts: seq<Action>)
    requires UniqueHashes(s.keys) && CanRun(s, acts)
    ensures UniqueHashes(Run(s, acts).keys)
    decreases |acts|
  {
    if acts != [] {
      assert UniqueHashes(Next(s, acts[0]).keys);
      HashesStayUnique(Next(s, acts[0]), acts[1..]);
    }
  }

  // ---- Keys only ever lose their powers ----

  /** Every key is still there with the same owner, hash and expiry, and is enabled only if it was. */
  ghost predicate OnlyDisables(before: seq<ApiKey>, after: seq<ApiKey>) {
    && |before| <= |after|
    && forall i :: 0 <= i < |before| ==>
         && after[i].project == before[i].project && after[i].hash == before[i].hash
         && after[i].expiresAt == before[i].expiresAt
         && (after[i].enabled ==> before[i].enabled)
  }

  /** No action re-enables a disabled key, moves it to another project or extends it, in any run from any state; so once
      a key is disabled, or its expiry has come, no later lookup finds it. */
  lemma {:induction false} DisabledForever(s: State, acts: seq<Action>)
    requires CanRun(s, acts)
    ensures var t := Run(s, acts);
      && s.now <= t.now && OnlyDisables(s.keys, t.keys)
      && forall i: nat :: i < |s.keys| ==>
           (!s.keys[i].enabled || (s.keys[i].expiresAt.Some? && s.keys[i].expiresAt.value <= s.now) ==>
              !Enabled(t, Use(i)))
    decreases |acts|
  {
    if acts != [] {
      var u := Next(s, acts[0]);
      assert OnlyDisables(s.keys, u.keys) && s.now <= u.now;
      DisabledForever(u, acts[1..]);
    }
  }

  // ---- Rotation never locks a project out ----

  predicate Revokes(a: Action) { a.Revoke? }

  predicate NoRevocation(acts: seq<Action>) {
    forall i :: 0 <= i < |acts| ==> !Revokes(acts[i])
  }

  /** The youngest key of a project. */
  predicate Youngest(keys: seq<ApiKey>, id: nat) {
    id < |keys| && forall j :: id < j < |keys| ==> keys[j].project != keys[id].project
  }

  /** A rotation's replacement is a younger key of the same project. */
  ghost predicate RotationOk(s: State, r: Rotation) {
    match r
    case Loaded(oldId, days) => oldId < |s.keys| && (days.Some? ==> 1 <= days.value)
    case Inserted(oldId, newId) =>
      oldId < newId < |s.keys| && s.keys[oldId].project == s.keys[newId].project
    case Over(oldId, newId) =>
      && oldId < newId < |s.keys| && s.keys[oldId].project == s.keys[newId].project
      && !s.keys[oldId].enabled
    case Abandoned => true
  }

  ghost predicate RotationsOk(s: State) {
    forall id :: id in s.rotations ==> RotationOk(s, s.rotations[id])
  }

  ghost predicate YoungestEnabled(keys: seq<ApiKey>) {
    forall id: nat :: Youngest(keys, id) ==> keys[id].enabled
  }

  lemma StepKeepsRotations(s: State, a: Action)
    requires RotationsOk(s) && Enabled(s, a)
    ensures RotationsOk(Next(s, a))
  {
    var t := Next(s, a);
    forall id | id in t.rotations ensures RotationOk(t, t.rotations[id]) {
      assert id in s.rotations ==> RotationOk(s, s.rotations[id]);
    }
  }

  lemma StepKeepsYoungest(s: State, a: Action)
    requires RotationsOk(s) && YoungestEnabled(s.keys) && Enabled(s, a) && !Revokes(a)
    ensures YoungestEnabled(Next(s, a).keys)
  {
    var t := Next(s, a);
    forall id: nat | Youngest(t.keys, id) ensures t.keys[id].enabled {
      if id < |s.keys| {
        assert forall j :: id < j < |s.keys| ==> t.keys[j].project == s.keys[j].project;
        assert Youngest(s.keys, id);
        if a.DisableOld? {
          assert RotationOk(s, s.rotations[a.id]);
          assert s.rotations[a.id].newId < |t.keys|;
        }
      }
    }
  }

  lemma {:induction false} RunKeepsRotations(s: State, acts: seq<Action>)
    requires RotationsOk(s) && CanRun(s, acts)
    ensures RotationsOk(Run(s, acts))
    ensures YoungestEnabled(s.keys) && NoRevocation(acts) ==> YoungestEnabled(Run(s, acts).keys)
    decreases |acts|
  {
    if acts != [] {
      StepKeepsRotations(s, acts[0]);
      if YoungestEnabled(s.keys) && NoRevocation(acts) {
        assert !Revokes(acts[0]);
        StepKeepsYoungest(s, acts[0]);
      }
      RunKeepsRotations(Next(s, acts[0]), acts[1..]);
    }
  }

  lemma {:induction false} YoungestExists(keys: seq<ApiKey>, project: nat, from: nat) returns (id: nat)
    requires from < |keys| && keys[from].project == project
    ensures Youngest(keys, id) && keys[id].project == project && from <= id
    decreases |keys| - from
  {
    if j :| from < j < |keys| && keys[j].project == project {
      id := YoungestExists(keys, project, j);
    } else {
      id := from;
    }
  }

  /** However many rotations of however many keys interleave, crash halfway or hit the same key, and whatever is created
      meanwhile: as long as nothing is revoked, every project that ever had a key has an enabled one, namely its
      youngest. */
  lemma RotationsNeverLockOut(start: int, acts: seq<Action>, keyId: nat) returns (enabled: nat)
    requires CanRun(Init(start), acts) && NoRevocation(acts)
    requires keyId < |Run(Init(start), acts).keys|
    ensures var keys := Run(Init(start), acts).keys;
      && keyId <= enabled < |keys| && keys[enabled].project == keys[keyId].project
      && keys[enabled].enabled && Youngest(keys, enabled)
  {
    RunKeepsRotations(Init(start), acts);
    var keys := Run(Init(start), acts).keys;
    enabled := YoungestExists(keys, keys[keyId].project, keyId);
  }

  /** Both commits of one rotation, with anything in between: the insert leaves the project with an active key; the
      disabling of the old one leaves the replacement exactly as it is, so active if it was, and the old key then fails
      authentication. */
  lemma RotationCommitsKeepAccess(start: int, acts: seq<Action>, id: nat, hash: nat)
    requires CanRun(Init(start), acts)
    ensures var s := Run(Init(start), acts);
      && (Enabled(s, Insert(id, hash)) ==>
            var t := Next(s, Insert(id, hash));
            var oldId := s.rotations[id].oldId;
            && Active(t.keys[|s.keys|], t.now) && t.keys[|s.keys|].project == s.keys[oldId].project
            && (t.keys[|s.keys|].expiresAt.None? <==> s.rotations[id].days.None?))
      && (Enabled(s, DisableOld(id)) ==>
            var t := Next(s, DisableOld(id));
            var Inserted(oldId, newId) := s.rotations[id];
            && t.now == s.now && !Active(t.keys[oldId], t.now)
            && newId < |s.keys| && t.keys[newId] == s.keys[newId]
            && s.keys[newId].project == s.keys[oldId].project)
  {
    RunKeepsRotations(Init(start), acts);
    var s := Run(Init(start), acts);
    assert id in s.rotations ==> RotationOk(s, s.rotations[id]);
  }

  // ---- Access through a whole rotation ----

  /** The commit disables this key: a revocation of it, or the second commit of a rotation of it. */
  predicate Disables(s: State, a: Action, key: nat) {
    || (a.Revoke? && a.keyId == key)
    || (a.DisableOld? && a.id in s.rotations && s.rotations[a.id].Inserted? && s.rotations[a.id].oldId == key)
  }

  /** No action of the run disables the key. */
  predicate Spared(s: State, acts: seq<Action>, key: nat)
    requires CanRun(s, acts)
    decreases |acts|
  {
    acts == [] || (!Disables(s, acts[0], key) && Spared(Next(s, acts[0]), acts[1..], key))
  }

  /** The key and the rotation that made it, at any later time. */
  ghost predicate Replacement(s: State, id: nat, oldId: nat, newId: nat, project: nat, expiresAt: Option<int>) {
    && newId < |s.keys|
    && s.keys[newId].enabled && s.keys[newId].project == project && s.keys[newId].expiresAt == expiresAt
    && id in s.rotations
    && s.rotations[id] in {Inserted(oldId, newId), Over(oldId, newId), Abandoned}
  }

  lemma {:induction false} ReplacementLasts(s: State, acts: seq<Action>, id: nat, oldId: nat, newId: nat, project: nat,
                                            expiresAt: Option<int>)
    requires CanRun(s, acts) && Spared(s, acts, newId) && Replacement(s, id, oldId, newId, project, expiresAt)
    ensures Replacement(Run(s, acts), id, oldId, newId, project, expiresAt) && s.now <= Run(s, acts).now
    decreases |acts|
  {
    if acts != [] {
      ReplacementLasts(Next(s, acts[0]), acts[1..], id, oldId, newId, project, expiresAt);
    }
  }

  /** No commit inside a rotation leaves the project without an active key: from the insert on, and through whatever
      else is committed meanwhile, the replacement is active for at least a day, or for good if the old key does not
      expire, unless it is itself revoked or rotated; so it is when the second commit disables the old key. */
  lemma RotationKeepsAccess(start: int, acts: seq<Action>, id: nat, hash: nat, more: seq<Action>)
    requires CanRun(Init(start), acts) && Enabled(Run(Init(start), acts), Insert(id, hash))
    requires var s := Run(Init(start), acts);
      CanRun(Next(s, Insert(id, hash)), more) && Spared(Next(s, Insert(id, hash)), more, |s.keys|)
    ensures var s := Run(Init(start), acts);
      var t := Run(Next(s, Insert(id, hash)), more);
      var Loaded(oldId, days) := s.rotations[id];
      && |s.keys| < |t.keys| && t.keys[|s.keys|].project == s.keys[oldId].project
      && (days.None? || t.now < s.now + DAY ==>
            && Active(t.keys[|s.keys|], t.now)
            && (Enabled(t, DisableOld(id)) ==>
                  var u := Next(t, DisableOld(id));
                  Active(u.keys[|s.keys|], u.now) && !u.keys[oldId].enabled))
  {
    RunKeepsRotations(Init(start), acts);
    var s := Run(Init(start), acts);
    assert RotationOk(s, s.rotations[id]);
    var Loaded(oldId, days) := s.rotations[id];
    var expiresAt := ExpiryFrom(days, s.now);
    assert days.Some? ==> s.now + DAY <= expiresAt.value;
    ReplacementLasts(Next(s, Insert(id, hash)), more, id, oldId, |s.keys|, s.keys[oldId].project, expiresAt);
  }
}
