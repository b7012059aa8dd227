/** registerInMap: the controller's multimaps from a broadcast action or content URI to the
    tiles registered for it, each list in registration order and without repeats. Tiles are
    identified by their creation number (ArrayList.contains compares tile objects by
    identity). */
module TileRegistry {

  type Registry<K> = map<K, seq<nat>>

  predicate NoDup(s: seq<nat>) {
    forall i, j :: 0 <= i < j < |s| ==> s[i] != s[j]
  }

  /** Every list in the registry is free of repeats and non-empty. */
  predicate Valid<K(!new)>(m: Registry<K>) {
    forall k :: k in m ==> NoDup(m[k]) && |m[k]| > 0
  }

  /** registerInMap(item, tile, map). */
  function Register<K(!new)>(m: Registry<K>, key: K, tile: nat): (m': Registry<K>)
    ensures key in m' && tile in m'[key]
    ensures key in m && tile in m[key] ==> m' == m
    ensures key in m && tile !in m[key] ==> m'[key] == m[key] + [tile]
    ensures key !in m ==> m'[key] == [tile]
    ensures forall k :: k != key ==> (k in m' <==> k in m)
    ensures forall k :: k != key && k in m ==> m'[k] == m[k]
  {
    if key in m then
      if tile in m[key] then m else m[key := m[key] + [tile]]
    else
      m[key := [tile]]
  }

  /** Registration keeps every list free of repeats. */
  lemma RegisterKeepsValid<K(!new)>(m: Registry<K>, key: K, tile: nat)
    requires Valid(m)
    ensures Valid(Register(m, key, tile))
  {
    var m' := Register(m, key, tile);
    if key in m && tile !in m[key] {
      var s := m[key] + [tile];
      assert m'[key] == s;
      forall i, j | 0 <= i < j < |s|
        ensures s[i] != s[j]
      {
        if j == |s| - 1 {
          assert s[i] == m[key][i];
        }
      }
    }
  }

  /** Registering the same tile for the same key twice is the same as registering it once. */
  lemma RegisterIdempotent<K(!new)>(m: Registry<K>, key: K, tile: nat)
    ensures Register(Register(m, key, tile), key, tile) == Register(m, key, tile)
  {
  }

  /** Registers one tile for every key of a list, in order. */
  function RegisterAll<K(!new)>(m: Registry<K>, keys: seq<K>, tile: nat): Registry<K>
    decreases |keys|
  {
    if |keys| == 0 then m else RegisterAll(Register(m, keys[0], tile), keys[1..], tile)
  }

  /** After registering a tile for a list of keys, a tile is listed under a key exactly when
      it was before or it is the new tile and the key is one of the list; the lists already
      there only grow at their ends. */
  lemma {:induction false} RegisterAllSpec<K(!new)>(m: Registry<K>, keys: seq<K>, tile: nat)
    ensures var m' := RegisterAll(m, keys, tile);
      (forall k :: k in m' <==> k in m || k in keys)
      && (forall k, t :: (k in m' && t in m'[k]) <==> (t == tile && k in keys) || (k in m && t in m[k]))
      && (forall k :: k in m ==> m[k] <= m'[k])
    decreases |keys|
  {
    if |keys| > 0 {
      var m1 := Register(m, keys[0], tile);
      RegisterAllSpec(m1, keys[1..], tile);
      assert forall k :: k in keys <==> k == keys[0] || k in keys[1..];
      var m' := RegisterAll(m, keys, tile);
      forall k | k in m
        ensures m[k] <= m'[k]
      {
        assert m[k] <= m1[k];
      }
    }
  }

  lemma {:induction false} RegisterAllKeepsValid<K(!new)>(m: Registry<K>, keys: seq<K>, tile: nat)
    requires Valid(m)
    ensures Valid(RegisterAll(m, keys, tile))
    decreases |keys|
  {
    if |keys| > 0 {
      RegisterKeepsValid(m, keys[0], tile);
      RegisterAllKeepsValid(Register(m, keys[0], tile), keys[1..], tile);
    }
  }

  /** Every list is non-empty and strictly increasing, with every tile below a bound: when
      tiles are numbered in creation order, each list is in creation order. */
  predicate Ordered<K(!new)>(m: Registry<K>, bound: nat) {
    forall k :: k in m ==>
      |m[k]| > 0
      && (forall i, j :: 0 <= i < j < |m[k]| ==> m[k][i] < m[k][j])
      && (forall i :: 0 <= i < |m[k]| ==> m[k][i] < bound)
  }

  lemma OrderedIsValid<K(!new)>(m: Registry<K>, bound: nat)
    requires Ordered(m, bound)
    ensures Valid(m)
  {
    forall k | k in m
      ensures NoDup(m[k])
    {
      var s := m[k];
      forall i, j | 0 <= i < j < |s|
        ensures s[i] != s[j]
      {
        assert s[i] < s[j];
      }
    }
  }

  lemma OrderedRaise<K(!new)>(m: Registry<K>, bound: nat, bound': nat)
    requires Ordered(m, bound) && bound <= bound'
    ensures Ordered(m, bound')
  {
  }

  /** Registering the newest tile keeps every list in creation order. */
  lemma RegisterKeepsOrder<K(!new)>(m: Registry<K>, key: K, tile: nat)
    requires Ordered(m, tile + 1)
    ensures Ordered(Register(m, key, tile), tile + 1)
  {
    var m' := Register(m, key, tile);
    if key in m && tile !in m[key] {
      var s := m[key];
      assert forall i :: 0 <= i < |s| ==> s[i] < tile;
      assert m'[key] == s + [tile];
    }
  }

  lemma {:induction false} RegisterAllKeepsOrder<K(!new)>(m: Registry<K>, keys: seq<K>, tile: nat)
    requires Ordered(m, tile + 1)
    ensures Ordered(RegisterAll(m, keys, tile), tile + 1)
    decreases |keys|
  {
    if |keys| > 0 {
      RegisterKeepsOrder(m, keys[0], tile);
      RegisterAllKeepsOrder(Register(m, keys[0], tile), keys[1..], tile);
    }
  }

  /** Tile t is listed under key k. */
  predicate Listed<K(!new)>(m: Registry<K>, k: K, t: nat) {
    k in m && t in m[k]
  }

  /** Some registration i made tile t register for key k. */
  predicate Made<K(==)>(ids: seq<nat>, keys: seq<seq<K>>, k: K, t: nat) {
    exists i :: 0 <= i < |ids| && i < |keys| && ids[i] == t && k in keys[i]
  }

  /** The registry holds exactly the registrations made: tile ids[i] under every key of
      keys[i], and nothing else. */
  ghost predicate Tracks<K(!new)>(m: Registry<K>, ids: seq<nat>, keys: seq<seq<K>>) {
    |ids| == |keys| && forall k, t :: Listed(m, k, t) <==> Made(ids, keys, k, t)
  }

  /** Registering one more tile for its keys keeps the registry exact. */
  lemma RegisterAllTracks<K(!new)>(m: Registry<K>, ids: seq<nat>, keys: seq<seq<K>>, tile: nat, newKeys: seq<K>)
    requires Tracks(m, ids, keys)
    ensures Tracks(RegisterAll(m, newKeys, tile), ids + [tile], keys + [newKeys])
  {
    RegisterAllSpec(m, newKeys, tile);
    var m' := RegisterAll(m, newKeys, tile);
    var ids' := ids + [tile];
    var keys' := keys + [newKeys];
    forall k, t
      ensures Listed(m', k, t) <==> Made(ids', keys', k, t)
    {
      if Listed(m', k, t) {
        if t == tile && k in newKeys {
          assert ids'[|ids|] == t && k in keys'[|ids|];
        } else {
          assert Listed(m, k, t);
          var i :| 0 <= i < |ids| && i < |keys| && ids[i] == t && k in keys[i];
          assert ids'[i] == t && k in keys'[i];
        }
      }
      if Made(ids', keys', k, t) {
        var i :| 0 <= i < |ids'| && i < |keys'| && ids'[i] == t && k in keys'[i];
        if i < |ids| {
          assert ids[i] == t && k in keys[i];
          assert Made(ids, keys, k, t);
        }
      }
    }
  }
}
