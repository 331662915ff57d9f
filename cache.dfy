/**
 * `RedisCache`: a mutable mapping from logical keys to Python values, kept
 * in a Redis server under a key prefix. Each method issues the same store
 * commands, in the same order and with the same error handling, as the
 * adapter, and is proved to agree with the corresponding function of
 * `CacheOps`, whose lemmas state what the cache guarantees.
 */
module Cache {

  import opened Common
  import opened Sentinels
  import opened Store
  import opened Signing
  import opened CacheOps

  class RedisCache {
    const cfg: CacheConfig
    const codec: Codec
    const store: RedisStore

    constructor (cfg: CacheConfig, codec: Codec, store: RedisStore)
      ensures this.cfg == cfg && this.codec == codec && this.store == store
    {
      this.cfg := cfg;
      this.codec := codec;
      this.store := store;
    }

    /** `set_negative`: a tombstone under the key for the negative TTL. */
    method SetNegative(key: string, fSet: bool) returns (raised: Option<Raised>)
      modifies store
      ensures (raised, store.entries) == SetNegativeOp(cfg, codec, old(store.entries), key, fSet)
    {
      var data := Serl(cfg, codec, PyCacheMiss);
      if data.None? {
        return Some(ValueError);
      }
      var ignored := store.SetEx(AddPrefix(cfg, key), cfg.negativeTtl, data.value, fSet);
      raised := None;
    }

    /** `cache[key]`: EMPTY on any failure; an undecodable entry is deleted. */
    method GetItem(key: string, fGet: bool, fDel: bool) returns (r: PyValue)
      modifies store
      ensures (r, store.entries) == GetItemOp(cfg, codec, old(store.entries), key, fGet, fDel)
    {
      var pk := AddPrefix(cfg, key);
      var reply := store.Get(pk, fGet);
      if reply.RedisError? || reply.value.None? {
        return PyEmpty;
      }
      match Decode(cfg, codec, reply.value.value)
      case Tombstone =>
        r := PyEmpty;
      case Value(v) =>
        r := v;
      case Corrupt =>
        var ignored := store.Delete([pk], fDel);
        r := PyEmpty;
    }

    /** `cache[key] = value`: written with the default TTL; failures are logged, not raised. */
    method SetItem(key: string, value: PyValue, fSet: bool)
      modifies store
      ensures store.entries == SetItemOp(cfg, codec, old(store.entries), key, value, fSet)
    {
      var data := Serl(cfg, codec, value);
      if data.Some? {
        var ignored := store.SetEx(AddPrefix(cfg, key), cfg.defaultTtl, data.value, fSet);
      }
    }

    /** `del cache[key]`. */
    method DelItem(key: string, fDel: bool) returns (raised: Option<Raised>)
      modifies store
      ensures (raised, store.entries) == DelItemOp(cfg, old(store.entries), key, fDel)
    {
      var reply := store.Delete([AddPrefix(cfg, key)], fDel);
      if reply.RedisError? || reply.value == 0 {
        raised := Some(KeyError);
      } else {
        raised := None;
      }
    }

    /**
     * `iter(cache)`: a scan of the namespace pattern; the scanned keys that
     * really carry the prefix are yielded without it, in scan order and as
     * often as the scan returns them. A store error ends the iteration
     * silently, after whatever was already yielded.
     */
    method Iter(failAfter: Option<nat>) returns (keys: seq<string>, ghost scanned: seq<string>)
      ensures KeySet(scanned) <= MatchingKeys(store.entries, Pattern(cfg))
      ensures failAfter.None? ==> KeySet(scanned) == MatchingKeys(store.entries, Pattern(cfg))
      ensures failAfter.Some? ==> |scanned| <= failAfter.value
      ensures keys == StripAll(cfg.pref, scanned)
      ensures KeySet(keys) <= IterKeys(cfg, store.entries)
      ensures failAfter.None? ==> KeySet(keys) == IterKeys(cfg, store.entries)
      ensures Distinct(scanned) ==> Distinct(keys)
    {
      var found, failed := store.Scan(Pattern(cfg), failAfter);
      scanned := found;
      keys := StripPrefixes(cfg.pref, found);
      StripAllKeys(cfg.pref, scanned);
      StripAllWithin(cfg, store.entries, scanned);
      if Distinct(scanned) {
        StripAllDistinct(cfg.pref, scanned);
      }
    }

    /**
     * `len(cache)`: one for every key the scan returns, repeats included, so
     * at least the number of keys the namespace pattern matches, and exactly
     * that when the scan repeats none; 0 on error.
     */
    method Len(failAfter: Option<nat>) returns (n: nat, ghost scanned: seq<string>)
      ensures failAfter.Some? ==> n == 0
      ensures failAfter.None? ==> n == |scanned| && KeySet(scanned) == MatchingKeys(store.entries, Pattern(cfg))
      ensures failAfter.None? ==> n >= |MatchingKeys(store.entries, Pattern(cfg))|
      ensures failAfter.None? && Distinct(scanned) ==> n == |MatchingKeys(store.entries, Pattern(cfg))|
    {
      var found, failed := store.Scan(Pattern(cfg), failAfter);
      scanned := found;
      if failed {
        return 0, scanned;
      }
      KeySetBound(found);
      if Distinct(found) {
        DistinctCardinality(found);
      }
      n := |found|;
    }

    /** `key in cache`. */
    method Contains(key: PyValue, fExists: bool) returns (b: bool)
      ensures b == ContainsOp(cfg, store.entries, key, fExists)
    {
      if !key.PyStr? {
        return false;
      }
      var reply := store.Exists(AddPrefix(cfg, key.s), fExists);
      b := reply.Reply? && reply.value > 0;
    }

    /** `cache.get(key, default)`. */
    method Get(key: string, default: PyValue, fGet: bool, fDel: bool) returns (r: PyValue)
      modifies store
      ensures (r, store.entries) == GetOp(cfg, codec, old(store.entries), key, default, fGet, fDel)
    {
      r := GetItem(key, fGet, fDel);
      if r.PyEmpty? {
        r := default;
      }
    }

    /** `cache.setdefault(key, default)`. */
    method SetDefault(key: string, default: PyValue, fGet: bool, fDel: bool, fSet: bool) returns (r: Result<PyValue, Raised>)
      modifies store
      ensures (r, store.entries) == SetDefaultOp(cfg, codec, old(store.entries), key, default, fGet, fDel, fSet)
    {
      var pk := AddPrefix(cfg, key);
      var reply := store.Get(pk, fGet);
      if reply.RedisError? {
        return Ok(default);
      }
      if reply.value.Some? {
        match Decode(cfg, codec, reply.value.value)
        case Tombstone =>
          return Ok(default);
        case Value(v) =>
          return Ok(v);
        case Corrupt =>
          var ignored := store.Delete([pk], fDel);
      }
      if !default.PyNone? {
        SetItem(key, default, fSet);
        r := Ok(default);
      } else {
        var raised := SetNegative(key, fSet);
        if raised.Some? {
          r := Err(raised.value);
        } else {
          r := Ok(PyNone);
        }
      }
    }

    /**
     * `cache.clear()`: deletes every key the namespace pattern matches. The
     * keys are collected before the DEL, so a scan error deletes nothing.
     */
    method Clear(failAfter: Option<nat>, fDel: bool)
      modifies store
      ensures store.entries == ClearOp(cfg, old(store.entries), failAfter.Some?, fDel)
    {
      var found, failed := store.Scan(Pattern(cfg), failAfter);
      if failed || found == [] {
        if !failed {
          assert MatchingKeys(store.entries, Pattern(cfg)) == KeySet(found);
        }
        return;
      }
      var ignored := store.Delete(found, fDel);
    }

    /** `cache.pop(key, default)`. */
    method Pop(key: string, default: PyValue, fGet: bool, fDel: bool) returns (r: PyValue)
      modifies store
      ensures (r, store.entries) == PopOp(cfg, codec, old(store.entries), key, default, fGet, fDel)
    {
      var pk := AddPrefix(cfg, key);
      var reply := store.Get(pk, fGet);
      if reply.RedisError? || reply.value.None? {
        return default;
      }
      var deleted := store.Delete([pk], fDel);
      if deleted.RedisError? || deleted.value == 0 {
        return default;
      }
      match Decode(cfg, codec, reply.value.value)
      case Value(v) =>
        r := v;
      case _ =>
        r := default;
    }

    /**
     * `cache.popitem()`: pops the scanned keys in order until one holds a
     * value other than None; KeyError when none does. A scan error after
     * some keys leaves their pops done and raises KeyError.
     */
    method PopItem(failAfter: Option<nat>, popFault: string -> (bool, bool)) returns (r: Result<(string, PyValue), Raised>, ghost scanned: seq<string>)
      modifies store
      ensures KeySet(scanned) <= MatchingKeys(old(store.entries), Pattern(cfg))
      ensures failAfter.None? ==> KeySet(scanned) == MatchingKeys(old(store.entries), Pattern(cfg))
      ensures failAfter.Some? ==> |scanned| <= failAfter.value
      ensures (r, store.entries) == PopItemOp(cfg, codec, old(store.entries), scanned, popFault)
    {
      var found, failed := store.Scan(Pattern(cfg), failAfter);
      scanned := found;
      var i := 0;
      while i < |found|
        invariant 0 <= i <= |found|
        invariant PopItemOp(cfg, codec, old(store.entries), found, popFault)
               == PopItemOp(cfg, codec, store.entries, found[i..], popFault)
      {
        assert found[i..][1..] == found[i + 1..];
        var k := found[i];
        if StartsWith(k, cfg.pref) {
          var key := k[|cfg.pref|..];
          var v := Pop(key, PyNone, popFault(key).0, popFault(key).1);
          if !v.PyNone? {
            return Ok((key, v)), scanned;
          }
        }
        i := i + 1;
      }
      r := Err(KeyError);
    }

    /** `cache.set(key, value)`: the same as item assignment. */
    method Set(key: string, value: PyValue, fSet: bool)
      modifies store
      ensures store.entries == SetItemOp(cfg, codec, old(store.entries), key, value, fSet)
    {
      SetItem(key, value, fSet);
    }

    /** `cache.setx(key, value, ttl)`. */
    method SetX(key: string, value: PyValue, ttl: Option<int>, fSet: bool)
      modifies store
      ensures store.entries == SetXOp(cfg, codec, old(store.entries), key, value, ttl, fSet)
    {
      var data := Serl(cfg, codec, value);
      if data.None? {
        return;
      }
      if ttl.Some? {
        var ignored := store.SetEx(AddPrefix(cfg, key), ttl.value, data.value, fSet);
      } else {
        var ignored := store.Set(AddPrefix(cfg, key), data.value, fSet);
      }
    }

    /** `cache.ttl(key)`. */
    method Ttl(key: string, fTtl: bool) returns (r: Option<int>)
      ensures r == TtlOp(cfg, store.entries, key, fTtl)
    {
      var reply := store.Ttl(AddPrefix(cfg, key), fTtl);
      if reply.RedisError? || reply.value == -1 || reply.value == -2 {
        r := None;
      } else {
        r := Some(reply.value);
      }
    }

    /** `cache.expire(key, ttl)`. */
    method Expire(key: string, ttl: Option<int>, fCmd: bool)
      modifies store
      ensures store.entries == ExpireOp(cfg, old(store.entries), key, ttl, fCmd)
    {
      if ttl.Some? {
        var ignored := store.Expire(AddPrefix(cfg, key), ttl.value, fCmd);
      } else {
        var ignored := store.Persist(AddPrefix(cfg, key), fCmd);
      }
    }

    /** `cache.incr(key, amount)`. */
    method Incr(key: string, amount: int, fCmd: bool) returns (n: int)
      modifies store
      ensures (n, store.entries) == IncrOp(cfg, old(store.entries), key, amount, fCmd)
    {
      var reply := store.IncrBy(AddPrefix(cfg, key), amount, fCmd);
      n := if reply.RedisError? then 0 else reply.value;
    }

    /** `cache.decr(key, amount)`. */
    method Decr(key: string, amount: int, fCmd: bool) returns (n: int)
      modifies store
      ensures (n, store.entries) == DecrOp(cfg, old(store.entries), key, amount, fCmd)
    {
      var reply := store.DecrBy(AddPrefix(cfg, key), amount, fCmd);
      n := if reply.RedisError? then 0 else reply.value;
    }

    /** `cache.keys()`: the iterated keys as a list. */
    method Keys(failAfter: Option<nat>) returns (keys: seq<string>)
      ensures KeySet(keys) <= IterKeys(cfg, store.entries)
      ensures failAfter.None? ==> KeySet(keys) == IterKeys(cfg, store.entries)
    {
      ghost var scanned;
      keys, scanned := Iter(failAfter);
    }

    /** `cache.values()`: `get` of every iterated key, keeping the results that are not None. */
    method Values(failAfter: Option<nat>, getFault: string -> (bool, bool)) returns (vals: seq<PyValue>, ghost keys: seq<string>)
      modifies store
      ensures KeySet(keys) <= IterKeys(cfg, old(store.entries))
      ensures failAfter.None? ==> KeySet(keys) == IterKeys(cfg, old(store.entries))
      ensures (vals, store.entries) == ValuesOp(cfg, codec, old(store.entries), keys, getFault)
    {
      var ks;
      ghost var scanned;
      ks, scanned := Iter(failAfter);
      keys := ks;
      vals := GetValues(ks, getFault);
    }

    /** The loop of `values()` over the iterated keys. */
    method GetValues(ks: seq<string>, getFault: string -> (bool, bool)) returns (vals: seq<PyValue>)
      modifies store
      ensures (vals, store.entries) == ValuesOp(cfg, codec, old(store.entries), ks, getFault)
    {
      vals := [];
      var i := 0;
      ghost var whole := ValuesOp(cfg, codec, store.entries, ks, getFault);
      assert ks[0..] == ks;
      while i < |ks|
        invariant 0 <= i <= |ks|
        invariant whole.0 == vals + ValuesOp(cfg, codec, store.entries, ks[i..], getFault).0
        invariant whole.1 == ValuesOp(cfg, codec, store.entries, ks[i..], getFault).1
      {
        ghost var m := store.entries;
        var key := ks[i];
        var v := Get(key, PyNone, getFault(key).0, getFault(key).1);
        ValuesStep(cfg, codec, m, ks, i, getFault);
        ghost var rest := ValuesOp(cfg, codec, store.entries, ks[i + 1..], getFault).0;
        var found := if v.PyNone? then [] else [v];
        AppendAssoc(vals, found, rest);
        vals := vals + found;
        i := i + 1;
      }
      assert ks[i..] == [];
      assert whole.1 == store.entries;
      assert whole.0 == vals;
      assert whole == ValuesOp(cfg, codec, old(store.entries), ks, getFault);
    }

    /** `cache.items()`: (key, value) pairs of `get` on every iterated key, keeping those not None. */
    method Items(failAfter: Option<nat>, getFault: string -> (bool, bool)) returns (items: seq<(string, PyValue)>, ghost keys: seq<string>)
      modifies store
      ensures KeySet(keys) <= IterKeys(cfg, old(store.entries))
      ensures failAfter.None? ==> KeySet(keys) == IterKeys(cfg, old(store.entries))
      ensures (items, store.entries) == ItemsOp(cfg, codec, old(store.entries), keys, getFault)
    {
      var ks;
      ghost var scanned;
      ks, scanned := Iter(failAfter);
      keys := ks;
      items := GetItems(ks, getFault);
    }

    /** The loop of `items()` over the iterated keys. */
    method GetItems(ks: seq<string>, getFault: string -> (bool, bool)) returns (items: seq<(string, PyValue)>)
      modifies store
      ensures (items, store.entries) == ItemsOp(cfg, codec, old(store.entries), ks, getFault)
    {
      items := [];
      var i := 0;
      ghost var whole := ItemsOp(cfg, codec, store.entries, ks, getFault);
      assert ks[0..] == ks;
      while i < |ks|
        invariant 0 <= i <= |ks|
        invariant whole.0 == items + ItemsOp(cfg, codec, store.entries, ks[i..], getFault).0
        invariant whole.1 == ItemsOp(cfg, codec, store.entries, ks[i..], getFault).1
      {
        ghost var m := store.entries;
        var key := ks[i];
        var v := Get(key, PyNone, getFault(key).0, getFault(key).1);
        ItemsStep(cfg, codec, m, ks, i, getFault);
        ghost var rest := ItemsOp(cfg, codec, store.entries, ks[i + 1..], getFault).0;
        var found := if v.PyNone? then [] else [(key, v)];
        AppendAssoc(items, found, rest);
        items := items + found;
        i := i + 1;
      }
      assert ks[i..] == [];
      assert whole.1 == store.entries;
      assert whole.0 == items;
      assert whole == ItemsOp(cfg, codec, old(store.entries), ks, getFault);
    }
  }

  /** The loop of `__iter__` over the scanned keys. */
  method StripPrefixes(pref: string, found: seq<string>) returns (keys: seq<string>)
    ensures keys == StripAll(pref, found)
  {
    keys := [];
    var i := 0;
    while i < |found|
      invariant 0 <= i <= |found|
      invariant keys + StripAll(pref, found[i..]) == StripAll(pref, found)
    {
      StripAllStep(pref, found, i);
      var k := found[i];
      var kept := if StartsWith(k, pref) then [k[|pref|..]] else [];
      AppendAssoc(keys, kept, StripAll(pref, found[i + 1..]));
      keys := keys + kept;
      i := i + 1;
    }
    assert found[i..] == [];
  }

  lemma StripAllStep(pref: string, found: seq<string>, i: nat)
    requires i < |found|
    ensures StripAll(pref, found[i..])
         == (if StartsWith(found[i], pref) then [found[i][|pref|..]] else []) + StripAll(pref, found[i + 1..])
  {
    assert found[i..][0] == found[i] && found[i..][1..] == found[i + 1..];
  }

  lemma AppendAssoc<T>(a: seq<T>, b: seq<T>, c: seq<T>)
    ensures a + (b + c) == (a + b) + c
  {
  }

  /** A sequence has at least as many elements as its set. */
  lemma {:induction false} KeySetBound(s: seq<string>)
    ensures |KeySet(s)| <= |s|
  {
    if s != [] {
      KeySetBound(s[1..]);
      assert KeySet(s) == {s[0]} + KeySet(s[1..]) by {
        forall x | x in KeySet(s)
          ensures x in {s[0]} + KeySet(s[1..])
        {
          var j :| 0 <= j < |s| && s[j] == x;
          if j > 0 {
            assert s[1..][j - 1] == x;
          }
        }
      }
    }
  }

  /** A sequence without repetitions has as many elements as its set. */
  lemma {:induction false} DistinctCardinality(s: seq<string>)
    requires Distinct(s)
    ensures |KeySet(s)| == |s|
  {
    if s != [] {
      var rest := s[1..];
      assert Distinct(rest) by {
        forall i, j | 0 <= i < j < |rest|
          ensures rest[i] != rest[j]
        {
          assert rest[i] == s[i + 1] && rest[j] == s[j + 1];
        }
      }
      DistinctCardinality(rest);
      assert s[0] !in rest by {
        forall j | 0 <= j < |rest|
          ensures rest[j] != s[0]
        {
          assert rest[j] == s[j + 1];
        }
      }
      assert KeySet(s) == {s[0]} + KeySet(rest) by {
        assert s == [s[0]] + rest;
      }
    }
  }
}
