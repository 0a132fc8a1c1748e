/**
 API keys: creation, rotation (two commits), revocation and throttled authentication. Times are in microseconds.
 The first part is the program's own code on a mutable table; the second interleaves its commits.
 */
module ApiKeys {
  import opened Options

  const DAY := 86400000000
  const LAST_USED_UPDATE_INTERVAL := 60000000

  datatype ApiKey = ApiKey(project: nat, hash: nat, enabled: bool, expiresAt: Option<int>, lastUsedAt: Option<int>)

  predicate Unexpired(key: ApiKey, now: int) {
    key.expiresAt.Some? ==> now < key.expiresAt.value
  }

  predicate Active(key: ApiKey, now: int) {
    key.enabled && Unexpired(key, now)
  }

  /** Whole days in a duration, rounded towards minus infinity. */
  function WholeDays(duration: int): (days: int)
    ensures days * DAY <= duration < (days + 1) * DAY
  {
    duration / DAY
  }

  /** The lifetime in days a rotation gives the replacement of a key read at `readAt`. */
  function InheritedDays(expiresAt: Option<int>, readAt: int): Option<int> {
    match expiresAt
    case None => None
    case Some(e) =>
      var remaining := WholeDays(e - readAt) + 1;
      Some(if remaining < 1 then 1 else remaining)
  }

  function ExpiryFrom(days: Option<int>, now: int): Option<int> {
    match days
    case None => None
    case Some(d) => Some(now + d * DAY)
  }

  /** The expiry of the replacement, read at one time and created at another. */
  function RotatedExpiry(expiresAt: Option<int>, readAt: int, createdAt: int): Option<int> {
    ExpiryFrom(InheritedDays(expiresAt, readAt), createdAt)
  }

  /** Whether an accepted lookup writes `last_used_at`. */
  predicate Stale(lastUsedAt: Option<int>, now: int) {
    lastUsedAt.None? || LAST_USED_UPDATE_INTERVAL <= now - lastUsedAt.value
  }

  ghost predicate UniqueHashes(keys: seq<ApiKey>) {
    forall i, j :: 0 <= i < j < |keys| ==> keys[i].hash != keys[j].hash
  }

  /** The API key table; ids are positions, in order of creation. */
  class KeyTable {
    var keys: seq<ApiKey>

    method CreateKeyRecord(project: nat, hash: nat, expiresInDays: Option<int>, now: int) returns (id: nat)
      modifies this
      ensures id == |old(keys)|
      ensures keys == old(keys) + [ApiKey(project, hash, true, ExpiryFrom(expiresInDays, now), None)]
    {
      var expiresAt := if expiresInDays.None? then None else Some(now + expiresInDays.value * DAY);
      id := |keys|;
      keys := keys + [ApiKey(project, hash, true, expiresAt, None)];
    }

    /** Replacement first, then the old key is disabled. `between` is the table after the first commit. An unknown key
        (or one of another project) changes nothing. */
    method RotateApiKey(project: nat, keyId: nat, newHash: nat, readAt: int, createdAt: int)
      returns (replacement: Option<nat>, ghost between: seq<ApiKey>)
      modifies this
      ensures replacement.Some? <==> keyId < |old(keys)| && old(keys)[keyId].project == project
      ensures replacement.None? ==> keys == between == old(keys)
      ensures replacement.Some? ==>
                var expiresAt := RotatedExpiry(old(keys)[keyId].expiresAt, readAt, createdAt);
                var newKey := ApiKey(project, newHash, true, expiresAt, None);
                && replacement == Some(|old(keys)|)
                && between == old(keys) + [newKey]
                && keys == between[keyId := old(keys)[keyId].(enabled := false)]
    {
      if |keys| <= keyId || keys[keyId].project != project {
        return None, keys;
      }
      var key := keys[keyId];
      var days: Option<int> := None;
      if key.expiresAt.Some? {
        var remaining := WholeDays(key.expiresAt.value - readAt) + 1;
        days := Some(if remaining < 1 then 1 else remaining);
      }
      var id := CreateKeyRecord(project, newHash, days, createdAt);
      between := keys;
      keys := keys[keyId := keys[keyId].(enabled := false)];
      replacement := Some(id);
    }

    method RevokeApiKey(project: nat, keyId: nat) returns (found: bool)
      modifies this
      ensures found <==> keyId < |old(keys)| && old(keys)[keyId].project == project
      ensures keys == if found then old(keys)[keyId := old(keys)[keyId].(enabled := false)] else old(keys)
    {
      found := keyId < |keys| && keys[keyId].project == project;
      if found {
        keys := keys[keyId := keys[keyId].(enabled := false)];
      }
    }

    /** Finds the key of that hash if it is enabled and has no expiry or a later one, and notes its use at most once per
        interval (`commits` says whether the write goes through). */
    method ProjectFromKey(hash: nat, now: int, commits: bool) returns (found: Option<nat>)
      requires UniqueHashes(keys)
      modifies this
      ensures found.None? <==>
                forall i :: 0 <= i < |old(keys)| && old(keys)[i].hash == hash && old(keys)[i].enabled ==>
                  old(keys)[i].expiresAt.Some? && old(keys)[i].expiresAt.value <= now
      ensures found.None? ==> keys == old(keys)
      ensures found.Some? ==>
                && found.value < |old(keys)|
                && var key := old(keys)[found.value];
                   && key.hash == hash && key.enabled && (key.expiresAt == None || now < key.expiresAt.value)
                   && keys == if Stale(key.lastUsedAt, now) && commits
                              then old(keys)[found.value := key.(lastUsedAt := Some(now))] else old(keys)
      ensures UniqueHashes(keys)
    {
      found := None;
      for i := 0 to |keys|
        invariant found.None? && keys == old(keys)
        invariant forall j :: 0 <= j < i && keys[j].hash == hash ==> !Active(keys[j], now)
      {
        if keys[i].hash == hash && keys[i].enabled && (keys[i].expiresAt.None? || now < keys[i].expiresAt.value) {
          found := Some(i);
          break;
        }
      }
      if found.Some? {
        var key := keys[found.value];
        var stale := key.lastUsedAt.None? || now - key.lastUsedAt.value >= LAST_USED_UPDATE_INTERVAL;
        if stale && commits {
          keys := keys[found.value := key.(lastUsedAt := Some(now))];
        }
      }
    }
  }

  /** Successive lookups of one active key in clock order: the row ends with the `last_used_at` that `LastUsed` says,
      which is less than an interval old, and nothing else in the table changes. */
  method UseKey(table: KeyTable, id: nat, times: seq<int>)
    requires UniqueHashes(table.keys) && id < |table.keys| && Monotone(times)
    requires forall k :: 0 <= k < |times| ==> Active(table.keys[id], times[k])
    modifies table
    ensures var key := old(table.keys)[id];
      table.keys == old(table.keys)[id := key.(lastUsedAt := LastUsed(key.lastUsedAt, times))]
    ensures times != [] ==>
              && table.keys[id].lastUsedAt.Some?
              && times[|times| - 1] - table.keys[id].lastUsedAt.value < LAST_USED_UPDATE_INTERVAL
  {
    ghost var key := table.keys[id];
    for i := 0 to |times|
      invariant table.keys == old(table.keys)[id := key.(lastUsedAt := LastUsed(key.lastUsedAt, times[..i]))]
      invariant UniqueHashes(table.keys)
    {
      assert times[..i + 1][..i] == times[..i];
      assert Active(table.keys[id], times[i]);
      var found := table.ProjectFromKey(table.keys[id].hash, times[i], true);
      assert found == Some(id);
    }
    assert times[..|times|] == times;
    LastWriteIsStored(key.lastUsedAt, times);
  }

  // ---- Expiry across rotations ----

  /** A non-expiring key stays non-expiring. A key rotated before it expires gets an expiry later than its own by the
      time between the two clock reads plus more than nothing and at most one day; an expired one gets one day. */
  lemma RotationExtendsByAtMostADay(expiresAt: Option<int>, readAt: int, createdAt: int)
    ensures RotatedExpiry(expiresAt, readAt, createdAt).None? <==> expiresAt.None?
    ensures expiresAt.Some? ==>
              var e := expiresAt.value; var renewed := RotatedExpiry(expiresAt, readAt, createdAt).value;
              && (readAt < e ==> e + (createdAt - readAt) < renewed <= e + (createdAt - readAt) + 24 * 3600 * 1000000)
              && (e <= readAt ==> renewed == createdAt + 24 * 3600 * 1000000)
  {
  }

  /** One rotation of a chain: when the old key was read and when the new one was created. */
  datatype Turn = Turn(readAt: int, createdAt: int)

  /** The expiry after rotating again and again. */
  function ChainExpiry(expiresAt: Option<int>, turns: seq<Turn>): Option<int> {
    if turns == [] then expiresAt
    else
      var n := |turns| - 1;
      RotatedExpiry(ChainExpiry(expiresAt, turns[..n]), turns[n].readAt, turns[n].createdAt)
  }

  /** Every rotation reads its key before that key expires, and creates the replacement no earlier. */
  ghost predicate InTime(expiresAt: int, turns: seq<Turn>) {
    forall k :: 0 <= k < |turns| ==>
      && turns[k].readAt <= turns[k].createdAt
      && ChainExpiry(Some(expiresAt), turns[..k]).Some?
      && turns[k].readAt < ChainExpiry(Some(expiresAt), turns[..k]).value
  }

  function Delays(turns: seq<Turn>): int {
    if turns == [] then 0 else Delays(turns[..|turns| - 1]) + (turns[|turns| - 1].createdAt - turns[|turns| - 1].readAt)
  }

  /** A chain of n timely rotations moves the expiry forward, by at most n days plus the time the rotations took. */
  lemma {:induction false} RotationChain(expiresAt: int, turns: seq<Turn>)
    requires InTime(expiresAt, turns)
    ensures ChainExpiry(Some(expiresAt), turns).Some?
    ensures var last := ChainExpiry(Some(expiresAt), turns).value;
      && expiresAt + Delays(turns) <= last <= expiresAt + |turns| * DAY + Delays(turns)
      && (turns != [] ==> expiresAt + Delays(turns) < last)
      && 0 <= Delays(turns)
  {
    if turns != [] {
      var n := |turns| - 1;
      forall k | 0 <= k < n ensures turns[..n][..k] == turns[..k] {}
      RotationChain(expiresAt, turns[..n]);
      RotationExtendsByAtMostADay(ChainExpiry(Some(expiresAt), turns[..n]), turns[n].readAt, turns[n].createdAt);
    }
  }

  lemma {:induction false} NonExpiringChain(turns: seq<Turn>)
    ensures ChainExpiry(None, turns) == None
  {
    if turns != [] {
      NonExpiringChain(turns[..|turns| - 1]);
    }
  }

  // ---- Throttled bookkeeping ----

  /** `last_used_at` after accepted lookups at these times. */
  function LastUsed(before: Option<int>, times: seq<int>): Option<int> {
    if times == [] then before
    else
      var n := |times| - 1;
      var last := LastUsed(before, times[..n]);
      if Stale(last, times[n]) then Some(times[n]) else last
  }

  /** The times at which they wrote it. */
  function Writes(before: Option<int>, times: seq<int>): seq<int> {
    if times == [] then []
    else
      var n := |times| - 1;
      Writes(before, times[..n]) + (if Stale(LastUsed(before, times[..n]), times[n]) then [times[n]] else [])
  }

  ghost predicate Monotone(times: seq<int>) {
    forall i, j :: 0 <= i < j < |times| ==> times[i] <= times[j]
  }

  /** The last write is what is stored, and it is recent. */
  lemma {:induction false} LastWriteIsStored(before: Option<int>, times: seq<int>)
    requires Monotone(times)
    ensures var writes := Writes(before, times);
      && LastUsed(before, times) == (if writes == [] then before else Some(writes[|writes| - 1]))
      && (times != [] ==> LastUsed(before, times).Some?
                          && times[|times| - 1] - LastUsed(before, times).value < LAST_USED_UPDATE_INTERVAL)
  {
    if times != [] {
      var n := |times| - 1;
      LastWriteIsStored(before, times[..n]);
      assert 0 < n ==> times[..n][n - 1] == times[n - 1];
    }
  }

  /** Every write falls in the span of the lookups. */
  lemma {:induction false} WritesAreInSpan(before: Option<int>, times: seq<int>)
    requires Monotone(times)
    ensures times == [] ==> Writes(before, times) == []
    ensures forall w :: w in Writes(before, times) ==> times != [] && times[0] <= w <= times[|times| - 1]
  {
    if times != [] {
      var n := |times| - 1;
      var earlier := times[..n];
      WritesAreInSpan(before, earlier);
      forall w | w in Writes(before, times) ensures times[0] <= w <= times[n] {
        if w in Writes(before, earlier) {
          assert earlier[0] == times[0] && earlier[n - 1] == times[n - 1];
        }
      }
    }
  }

  /** Two writes are an interval apart. */
  lemma {:induction false} WritesAreSpaced(before: Option<int>, times: seq<int>)
    requires Monotone(times)
    ensures var writes := Writes(before, times);
      forall k :: 0 <= k < |writes| - 1 ==> LAST_USED_UPDATE_INTERVAL <= writes[k + 1] - writes[k]
  {
    if times != [] {
      var n := |times| - 1;
      WritesAreSpaced(before, times[..n]);
      LastWriteIsStored(before, times[..n]);
    }
  }

  lemma {:induction false} SpacedWrites(writes: seq<int>)
    requires writes != []
    requires forall k :: 0 <= k < |writes| - 1 ==> LAST_USED_UPDATE_INTERVAL <= writes[k + 1] - writes[k]
    ensures (|writes| - 1) * LAST_USED_UPDATE_INTERVAL <= writes[|writes| - 1] - writes[0]
  {
    if 1 < |writes| {
      SpacedWrites(writes[..|writes| - 1]);
    }
  }

  /** Over any lookups of one key in clock order: writes are at least a minute apart, so at most one more than the
      minutes in the span; and after every accepted lookup the stored time is less than a minute old. */
  lemma ThrottleBound(before: Option<int>, times: seq<int>)
    requires times != [] && Monotone(times)
    ensures var writes := Writes(before, times); var span := times[|times| - 1] - times[0];
      && |writes| <= span / 60000000 + 1
      && (forall k :: 0 <= k < |writes| - 1 ==> 60000000 <= writes[k + 1] - writes[k])
    ensures LastUsed(before, times).Some? && times[|times| - 1] - LastUsed(before, times).value < 60000000
  {
    LastWriteIsStored(before, times);
    WritesAreInSpan(before, times);
    WritesAreSpaced(before, times);
    var writes := Writes(before, times);
    if writes != [] {
      SpacedWrites(writes);
      var span := times[|times| - 1] - times[0];
      assert writes[0] in writes && writes[|writes| - 1] in writes;
      assert (|writes| - 1) * LAST_USED_UPDATE_INTERVAL <= span;
    }
  }
}
