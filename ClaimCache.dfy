/** The anti-duplicate claim cache of the visitor page: the module-level map
    `usedCombinations` from claim keys to claim records, its copy under the
    browser storage key `turnoUsedCombinations`, the expiry sweep, the commit
    of a followers claim, and the two read-only scans over it (the used-units
    counter and the earliest-timestamp search). */
module ClaimCache {
  import opened Wrappers
  import opened Text
  import opened ClaimKeys

  /** Two hours in milliseconds: how long a followers claim blocks its key. */
  const ResetWindow: int := 2 * 60 * 60 * 1000

  /** A stored value. Storage is JSON, so a value is whatever was written there. */
  datatype Entry =
    | Flag(flag: bool)                   // the legacy encoding: a bare boolean
    | Record(timestamp: int, used: bool) // `{timestamp, used}`
    | Untimed                            // any other value: an object without a timestamp, null, a string, a number

  type Store = map<string, Entry>

  /** `entry && entry.timestamp`: a record whose timestamp is not `0`. */
  predicate Stamped(e: Entry) {
    e.Record? && e.timestamp != 0
  }

  /** The sweep deletes a followers-marked, stamped entry older than the window. */
  predicate Expired(key: string, e: Entry, now: int) {
    Contains(key, FollowersMarker) && Stamped(e) && now - e.timestamp > ResetWindow
  }

  /** The sweep turns a legacy boolean under a followers-marked key into a fresh record. */
  function Upgraded(key: string, e: Entry, now: int): Entry {
    if Contains(key, FollowersMarker) && e.Flag? then Record(now, true) else e
  }

  /** The cache after an expiry sweep at time `now`. */
  function Swept(m: Store, now: int): (r: Store)
    ensures r.Keys <= m.Keys
    ensures forall k :: k in r ==> !Expired(k, r[k], now) && !(Contains(k, FollowersMarker) && r[k].Flag?)
  {
    map k | k in m && !Expired(k, m[k], now) :: Upgraded(k, m[k], now)
  }

  /** The duplicate test of the mission picker: the key holds a stamped record. */
  predicate IsClaimed(m: Store, key: string) {
    key in m && Stamped(m[key])
  }

  /** A key the usage counter and the earliest-timestamp search take into account. */
  predicate Counted(m: Store, prefix: string, k: string) {
    k in m && StartsWith(k, prefix) && Stamped(m[k])
  }

  /** What one key adds to the used-units sum (a key whose count is `NaN` adds
      nothing here; `UsedUnits` accounts for it). */
  function Units(m: Store, prefix: string, k: string): nat {
    if Counted(m, prefix, k) then KeyUnits(k).GetOr(0) else 0
  }

  /** The sum of `Units` over a set of keys. */
  ghost function SumUnits(m: Store, prefix: string, keys: set<string>): nat
    decreases keys
  {
    if keys == {} then 0
    else
      var k :| k in keys;
      Units(m, prefix, k) + SumUnits(m, prefix, keys - {k})
  }

  /** Some counted key ends in something `parseInt` reads as `NaN`. */
  ghost predicate HasNaN(m: Store, prefix: string) {
    exists k :: Counted(m, prefix, k) && KeyUnits(k).None?
  }

  /** The value the usage counter computes: the sum of the trailing counts of
      the counted keys, or `None` for `NaN`. */
  ghost function UsedUnits(m: Store, prefix: string): Option<nat> {
    if HasNaN(m, prefix) then None else Some(SumUnits(m, prefix, m.Keys))
  }

  /** `r` is the smallest timestamp among the counted keys, or `None` if there are none. */
  ghost predicate IsEarliest(m: Store, prefix: string, r: Option<int>) {
    && (r.None? <==> forall k :: !Counted(m, prefix, k))
    && (r.Some? ==>
          && (exists k :: Counted(m, prefix, k) && m[k].timestamp == r.value)
          && (forall k :: Counted(m, prefix, k) ==> r.value <= m[k].timestamp))
  }

  // ---------------------------------------------------------------------------
  // The cache object

  class Cache {
    /** `usedCombinations`. */
    var entries: Store
    /** The JSON copy under the storage key `turnoUsedCombinations`. */
    var stored: Store

    /** Memory and storage agree once every operation has finished. */
    predicate Valid()
      reads this
    {
      stored == entries
    }

    /** Page load: the parsed storage value, or `{}` when the key is absent. */
    constructor Load(saved: Option<Store>)
      ensures Valid()
      ensures entries == if saved.Some? then saved.value else map[]
    {
      entries := if saved.Some? then saved.value else map[];
      stored := entries;
    }

    /** `cleanupExpiredEntries`: every key of the snapshot is visited once; the
        whole map is written back to storage afterwards. */
    method CleanupExpired(now: int)
      modifies this
      ensures Valid()
      ensures entries == Swept(old(entries), now)
      ensures forall k :: k in entries <==> k in old(entries) && !Expired(k, old(entries)[k], now)
      ensures forall k :: k in entries ==> entries[k] == Upgraded(k, old(entries)[k], now)
    {
      ghost var m0 := entries;
      var keys := entries.Keys;
      while keys != {}
        invariant keys <= m0.Keys && entries.Keys <= m0.Keys
        invariant forall k :: k in keys ==> k in entries && entries[k] == m0[k]
        invariant forall k :: k in m0 && k !in keys ==>
                    (k in entries <==> !Expired(k, m0[k], now))
        invariant forall k :: k in entries && k !in keys ==> entries[k] == Upgraded(k, m0[k], now)
        decreases keys
      {
        var k :| k in keys;
        if Contains(k, FollowersMarker) {
          var e := entries[k];
          if e.Flag? {
            entries := entries[k := Record(now, true)];
          } else if e.Record? && e.timestamp != 0 {
            if now - e.timestamp > ResetWindow {
              entries := entries - {k};
            }
          }
        }
        keys := keys - {k};
      }
      stored := entries;
      assert entries == Swept(m0, now);
    }

    /** `usedCombinations[key] = value`: memory only, storage is written by `Persist`. */
    method Put(key: string, value: Entry)
      modifies this
      ensures entries == old(entries)[key := value] && stored == old(stored)
    {
      entries := entries[key := value];
    }

    /** `localStorage.setItem('turnoUsedCombinations', JSON.stringify(usedCombinations))`. */
    method Persist()
      modifies this
      ensures Valid() && entries == old(entries)
    {
      stored := entries;
    }
  }

  // ---------------------------------------------------------------------------
  // Read-only scans

  /** The loop of `updateFollowersUsageCounter`: add `parseInt` of the last
      `_` segment of every key under `prefix` that holds a stamped record. */
  method SumUsedUnits(m: Store, prefix: string) returns (total: Option<nat>)
    ensures total == UsedUnits(m, prefix)
  {
    var sum: nat := 0;
    var nan := false;
    var keys := m.Keys;
    while keys != {}
      invariant keys <= m.Keys
      invariant sum + SumUnits(m, prefix, keys) == SumUnits(m, prefix, m.Keys)
      invariant nan <==> exists k :: k !in keys && Counted(m, prefix, k) && KeyUnits(k).None?
      decreases keys
    {
      var k :| k in keys;
      SumUnitsRemove(m, prefix, keys, k);
      if StartsWith(k, prefix) {
        var e := m[k];
        if e.Record? && e.timestamp != 0 {
          var units := KeyUnits(k);
          if units.None? {
            nan := true;
          } else {
            sum := sum + units.value;
          }
        }
      }
      keys := keys - {k};
    }
    total := if nan then None else Some(sum);
  }

  /** The loop of `showDuplicateModal`: the smallest timestamp among the keys
      under `prefix` that hold a stamped record. */
  method EarliestTimestamp(m: Store, prefix: string) returns (r: Option<int>)
    ensures IsEarliest(m, prefix, r)
  {
    r := None;
    var keys := m.Keys;
    while keys != {}
      invariant keys <= m.Keys
      invariant r.None? <==> forall k :: k !in keys ==> !Counted(m, prefix, k)
      invariant r.Some? ==>
                  && (exists k :: k !in keys && Counted(m, prefix, k) && m[k].timestamp == r.value)
                  && (forall k :: k !in keys && Counted(m, prefix, k) ==> r.value <= m[k].timestamp)
      decreases keys
    {
      var k :| k in keys;
      if StartsWith(k, prefix) {
        var e := m[k];
        if e.Record? && e.timestamp != 0 {
          if r.None? || e.timestamp < r.value {
            r := Some(e.timestamp);
          }
        }
      }
      keys := keys - {k};
    }
  }

  // ---------------------------------------------------------------------------
  // Lemmas about the sum

  /** The sum does not depend on which key it takes first. */
  lemma {:induction false} SumUnitsRemove(m: Store, prefix: string, keys: set<string>, k: string)
    requires k in keys
    ensures SumUnits(m, prefix, keys) == Units(m, prefix, k) + SumUnits(m, prefix, keys - {k})
    decreases keys
  {
    var j :| j in keys && SumUnits(m, prefix, keys) == Units(m, prefix, j) + SumUnits(m, prefix, keys - {j});
    if j != k {
      SumUnitsRemove(m, prefix, keys - {j}, k);
      SumUnitsRemove(m, prefix, keys - {k}, j);
      assert keys - {j} - {k} == keys - {k} - {j};
    }
  }

  /** Keys that add nothing make the sum zero. */
  lemma {:induction false} SumUnitsZero(m: Store, prefix: string, keys: set<string>)
    requires forall k :: k in keys ==> Units(m, prefix, k) == 0
    ensures SumUnits(m, prefix, keys) == 0
    decreases keys
  {
    if keys != {} {
      var k :| k in keys;
      SumUnitsRemove(m, prefix, keys, k);
      SumUnitsZero(m, prefix, keys - {k});
    }
  }

  /** The sum over keys on which two stores agree is the same for both. */
  lemma {:induction false} SumUnitsFrame(m: Store, m': Store, prefix: string, keys: set<string>)
    requires forall k :: k in keys ==> Units(m, prefix, k) == Units(m', prefix, k)
    ensures SumUnits(m, prefix, keys) == SumUnits(m', prefix, keys)
    decreases keys
  {
    if keys != {} {
      var k :| k in keys;
      SumUnitsRemove(m, prefix, keys, k);
      SumUnitsRemove(m', prefix, keys, k);
      SumUnitsFrame(m, m', prefix, keys - {k});
    }
  }

  // ---------------------------------------------------------------------------
  // Properties of the throttle

  /** A user with no key under the prefix has used nothing. */
  lemma UnseenUserUsesNothing(m: Store, prefix: string)
    requires forall k :: k in m ==> !StartsWith(k, prefix)
    ensures UsedUnits(m, prefix) == Some(0)
  {
    SumUnitsZero(m, prefix, m.Keys);
  }

  /** Writing a key that was not counted adds what it now counts to the sum. */
  lemma {:induction false} SumAfterWrite(m: Store, prefix: string, key: string, v: Entry)
    requires !Counted(m, prefix, key)
    ensures SumUnits(m[key := v], prefix, m[key := v].Keys) == Units(m[key := v], prefix, key) + SumUnits(m, prefix, m.Keys)
  {
    var m' := m[key := v];
    var rest := m.Keys - {key};
    assert m'.Keys == rest + {key};
    SumUnitsRemove(m', prefix, m'.Keys, key);
    assert m'.Keys - {key} == rest;
    SumUnitsFrame(m, m', prefix, rest);
    if key in m {
      SumUnitsRemove(m, prefix, m.Keys, key);
    } else {
      assert m.Keys == rest;
    }
  }

  /** Writing a key with a readable count neither creates nor removes a `NaN`
      elsewhere. */
  lemma NaNAfterWrite(m: Store, prefix: string, key: string, v: Entry)
    requires !Counted(m, prefix, key) && KeyUnits(key).Some?
    ensures HasNaN(m[key := v], prefix) <==> HasNaN(m, prefix)
  {
    var m' := m[key := v];
    if HasNaN(m', prefix) {
      var k :| Counted(m', prefix, k) && KeyUnits(k).None?;
      assert Counted(m, prefix, k);
    }
    if HasNaN(m, prefix) {
      var k :| Counted(m, prefix, k) && KeyUnits(k).None?;
      assert Counted(m', prefix, k);
    }
  }

  /** Writing a fresh record under a key of the prefix that held no claim adds
      the key's count to the used units. */
  lemma WriteAddsUnits(m: Store, prefix: string, key: string, count: nat, now: int)
    requires now != 0 && !IsClaimed(m, key)
    requires StartsWith(key, prefix) && KeyUnits(key) == Some(count)
    ensures UsedUnits(m[key := Record(now, true)], prefix)
         == if UsedUnits(m, prefix).None? then None else Some(UsedUnits(m, prefix).value + count)
  {
    var m' := m[key := Record(now, true)];
    SumAfterWrite(m, prefix, key, Record(now, true));
    NaNAfterWrite(m, prefix, key, Record(now, true));
    assert Units(m', prefix, key) == count;
  }

  /** Committing a followers claim on a key that is not claimed adds its count
      to the user's used units (and keeps a `NaN` a `NaN`). */
  lemma CommitAddsUnits(m: Store, platform: string, username: string, count: nat, now: int)
    requires now != 0
    requires !IsClaimed(m, ClaimKey(platform, username, Followers, count))
    ensures var prefix := TypePrefix(platform, username, Followers);
            var m' := m[ClaimKey(platform, username, Followers, count) := Record(now, true)];
            UsedUnits(m', prefix) == if UsedUnits(m, prefix).None? then None else Some(UsedUnits(m, prefix).value + count)
  {
    KeyAnatomy(platform, username, Followers, count);
    WriteAddsUnits(m, TypePrefix(platform, username, Followers), ClaimKey(platform, username, Followers, count), count, now);
  }

  /** The sum over two distinct keys. */
  lemma SumOfTwo(m: Store, prefix: string, k1: string, k2: string)
    requires k1 != k2 && m.Keys == {k1, k2}
    ensures SumUnits(m, prefix, m.Keys) == Units(m, prefix, k1) + Units(m, prefix, k2)
  {
    SumUnitsRemove(m, prefix, {k1, k2}, k1);
    assert {k1, k2} - {k1} == {k2};
    SumUnitsRemove(m, prefix, {k2}, k2);
    assert {k2} - {k2} == {};
  }

  /** Two stamped records under two keys of the prefix: their counts add up. */
  lemma TwoKeysAddUp(prefix: string, k1: string, k2: string, c1: nat, c2: nat, t1: int, t2: int)
    requires k1 != k2 && t1 != 0 && t2 != 0
    requires StartsWith(k1, prefix) && KeyUnits(k1) == Some(c1)
    requires StartsWith(k2, prefix) && KeyUnits(k2) == Some(c2)
    ensures UsedUnits(map[k1 := Record(t1, true), k2 := Record(t2, true)], prefix) == Some(c1 + c2)
  {
    var m := map[k1 := Record(t1, true), k2 := Record(t2, true)];
    SumOfTwo(m, prefix, k1, k2);
    assert !HasNaN(m, prefix);
  }

  /** Two active claims with different counts for one user: their counts add up. */
  lemma TwoClaimsAddUp(platform: string, username: string, c1: nat, c2: nat, t1: int, t2: int)
    requires c1 != c2 && t1 != 0 && t2 != 0
    ensures var k1 := ClaimKey(platform, username, Followers, c1);
            var k2 := ClaimKey(platform, username, Followers, c2);
            UsedUnits(map[k1 := Record(t1, true), k2 := Record(t2, true)],
                      TypePrefix(platform, username, Followers)) == Some(c1 + c2)
  {
    KeyAnatomy(platform, username, Followers, c1);
    KeyAnatomy(platform, username, Followers, c2);
    KeyCountDetermined(platform, username, Followers, c1, c2);
    TwoKeysAddUp(TypePrefix(platform, username, Followers),
                 ClaimKey(platform, username, Followers, c1), ClaimKey(platform, username, Followers, c2),
                 c1, c2, t1, t2);
  }

  /** Alice's two active claims of 10 and 20 followers on instagram: 30 used. */
  lemma AliceUsesThirty(t1: int, t2: int)
    requires t1 != 0 && t2 != 0
    ensures var k10 := ClaimKey("instagram", "alice", Followers, 10);
            var k20 := ClaimKey("instagram", "alice", Followers, 20);
            UsedUnits(map[k10 := Record(t1, true), k20 := Record(t2, true)],
                      TypePrefix("instagram", "alice", Followers)) == Some(30)
  {
    TwoClaimsAddUp("instagram", "alice", 10, 20, t1, t2);
  }

  /** A claim recorded at `t` blocks its key through the sweep for the whole
      window, the instant `now == t + ResetWindow` included. */
  lemma ClaimHoldsWithinWindow(m: Store, key: string, t: int, now: int)
    requires t != 0 && now - t <= ResetWindow
    ensures IsClaimed(Swept(m[key := Record(t, true)], now), key)
  {
  }

  /** Once the window has passed, the sweep frees a followers key again. */
  lemma ClaimLapsesAfterWindow(m: Store, platform: string, username: string, count: nat, t: int, now: int)
    requires t != 0 && now - t > ResetWindow
    ensures !IsClaimed(Swept(m[ClaimKey(platform, username, Followers, count) := Record(t, true)], now),
                       ClaimKey(platform, username, Followers, count))
  {
    FollowersKeyMarked(platform, username, count);
  }

  /** A legacy boolean, `true` or `false`, under a followers key becomes a
      fresh record and survives the sweep that converts it. */
  lemma LegacyRevived(m: Store, key: string, now: int)
    requires key in m && m[key].Flag? && Contains(key, FollowersMarker)
    ensures key in Swept(m, now) && Swept(m, now)[key] == Record(now, true)
  {
  }

  /** Keys without the followers marker and entries without a timestamp are
      left as they are. */
  lemma SweepLeavesOthers(m: Store, key: string, now: int)
    requires key in m
    requires !Contains(key, FollowersMarker) || m[key].Untimed? || (m[key].Record? && m[key].timestamp == 0)
    ensures key in Swept(m, now) && Swept(m, now)[key] == m[key]
  {
  }

  /** Sweeping twice at the same instant changes nothing more. */
  lemma SweepIdempotent(m: Store, now: int)
    ensures Swept(Swept(m, now), now) == Swept(m, now)
  {
    var s := Swept(m, now);
    assert forall k :: k in s ==> !Expired(k, s[k], now) && Upgraded(k, s[k], now) == s[k];
  }
}
