/**
 * What each `RedisCache` operation does, as a function of the server's map
 * before the call: the value returned and the map afterwards. Every store call
 * the operation makes has its own fault flag. The class in cache.dfy runs the
 * same calls one by one against the server object and is proved to agree with
 * these functions; the lemmas here state the cache's guarantees.
 */
module CacheOps {

  import opened Common
  import opened Sentinels
  import opened Store
  import opened Signing

  /** The exceptions the cache lets reach its caller. */
  datatype Raised = KeyError | ValueError

  /** How a stored payload reads back. */
  datatype Decoded = Tombstone | Value(v: PyValue) | Corrupt

  /** `add_prefix`: the physical key of a logical key. */
  function AddPrefix(cfg: CacheConfig, key: string): (pk: string)
    ensures StartsWith(pk, cfg.pref) && pk[|cfg.pref|..] == key
  {
    cfg.pref + key
  }

  /** The SCAN pattern of the namespace. */
  function Pattern(cfg: CacheConfig): string
  {
    cfg.pref + "*"
  }

  function Decode(cfg: CacheConfig, c: Codec, data: Bytes): Decoded
  {
    match Deserl(cfg, c, data)
    case None => Corrupt
    case Some(v) => if v.PyCacheMiss? then Tombstone else Value(v)
  }

  /** How the entry under a logical key reads, without touching the store. */
  function Classify(cfg: CacheConfig, c: Codec, m: Entries, key: string): Option<Decoded>
  {
    var pk := AddPrefix(cfg, key);
    if pk in m then Some(Decode(cfg, c, m[pk].data)) else None
  }

  // ---------------------------------------------------------------------
  // Writes

  /** `__setitem__` / `set`: SETEX with the default TTL; every failure is swallowed. */
  function SetItemOp(cfg: CacheConfig, c: Codec, m: Entries, key: string, v: PyValue, fSet: bool): Entries
  {
    match Serl(cfg, c, v)
    case None => m
    case Some(b) => SetExCmd(m, AddPrefix(cfg, key), cfg.defaultTtl, b, fSet).1
  }

  /** `set_negative`: the serialised CACHE_MISS with the negative TTL; a serialisation error escapes. */
  function SetNegativeOp(cfg: CacheConfig, c: Codec, m: Entries, key: string, fSet: bool): (Option<Raised>, Entries)
  {
    match Serl(cfg, c, PyCacheMiss)
    case None => (Some(ValueError), m)
    case Some(b) => (None, SetExCmd(m, AddPrefix(cfg, key), cfg.negativeTtl, b, fSet).1)
  }

  /** `setx`: SETEX when a TTL is given, a plain SET (no expiry) otherwise. */
  function SetXOp(cfg: CacheConfig, c: Codec, m: Entries, key: string, v: PyValue, ttl: Option<int>, fSet: bool): Entries
  {
    match Serl(cfg, c, v)
    case None => m
    case Some(b) =>
      if ttl.Some? then SetExCmd(m, AddPrefix(cfg, key), ttl.value, b, fSet).1
      else SetCmd(m, AddPrefix(cfg, key), b, fSet).1
  }

  // ---------------------------------------------------------------------
  // Reads

  /**
   * `__getitem__`: a verified real value, or EMPTY for a missing key, a
   * tombstone, a store error, or an undecodable entry (which is deleted first).
   */
  function GetItemOp(cfg: CacheConfig, c: Codec, m: Entries, key: string, fGet: bool, fDel: bool): (PyValue, Entries)
  {
    var pk := AddPrefix(cfg, key);
    match GetCmd(m, pk, fGet)
    case RedisError => (PyEmpty, m)
    case Reply(None) => (PyEmpty, m)
    case Reply(Some(data)) =>
      match Decode(cfg, c, data)
      case Tombstone => (PyEmpty, m)
      case Value(v) => (v, m)
      case Corrupt => (PyEmpty, DelCmd(m, [pk], fDel).1)
  }

  /** `get`: the default instead of EMPTY. */
  function GetOp(cfg: CacheConfig, c: Codec, m: Entries, key: string, default: PyValue, fGet: bool, fDel: bool): (PyValue, Entries)
  {
    var (r, m') := GetItemOp(cfg, c, m, key, fGet, fDel);
    (if r.PyEmpty? then default else r, m')
  }

  /** `__contains__`: EXISTS on the physical key, so a tombstone counts; never raises. */
  function ContainsOp(cfg: CacheConfig, m: Entries, key: PyValue, fExists: bool): bool
  {
    if !key.PyStr? then false
    else
      match ExistsCmd(m, AddPrefix(cfg, key.s), fExists)
      case RedisError => false
      case Reply(n) => n > 0
  }

  /** `ttl`: "no expiry" (-1) and "no key" (-2) both read as None, as does an error. */
  function TtlOp(cfg: CacheConfig, m: Entries, key: string, fTtl: bool): Option<int>
  {
    match TtlCmd(m, AddPrefix(cfg, key), fTtl)
    case RedisError => None
    case Reply(t) => if t == -1 || t == -2 then None else Some(t)
  }

  /** `__iter__` over scanned keys: those that really start with the prefix, with it stripped. */
  function StripAll(pref: string, scanned: seq<string>): (keys: seq<string>)
    ensures forall k :: k in keys ==> exists s :: s in scanned && StartsWith(s, pref) && k == s[|pref|..]
    ensures forall s :: s in scanned && StartsWith(s, pref) ==> s[|pref|..] in keys
  {
    if scanned == [] then []
    else
      var k := scanned[0];
      (if StartsWith(k, pref) then [k[|pref|..]] else []) + StripAll(pref, scanned[1..])
  }

  /** The logical keys of the namespace. */
  function IterKeys(cfg: CacheConfig, m: Entries): set<string>
  {
    set k | k in MatchingKeys(m, Pattern(cfg)) && StartsWith(k, cfg.pref) :: k[|cfg.pref|..]
  }

  // ---------------------------------------------------------------------
  // Removal

  /** `__delitem__`: KeyError when nothing was deleted or the store failed. */
  function DelItemOp(cfg: CacheConfig, m: Entries, key: string, fDel: bool): (Option<Raised>, Entries)
  {
    match DelCmd(m, [AddPrefix(cfg, key)], fDel)
    case (RedisError, m') => (Some(KeyError), m')
    case (Reply(n), m') => (if n == 0 then Some(KeyError) else None, m')
  }

  /**
   * `pop`: GET, then DEL, then decode. Only a real value is returned; a
   * tombstone or an undecodable entry is deleted all the same.
   */
  function PopOp(cfg: CacheConfig, c: Codec, m: Entries, key: string, default: PyValue, fGet: bool, fDel: bool): (PyValue, Entries)
  {
    var pk := AddPrefix(cfg, key);
    match GetCmd(m, pk, fGet)
    case RedisError => (default, m)
    case Reply(None) => (default, m)
    case Reply(Some(data)) =>
      match DelCmd(m, [pk], fDel)
      case (RedisError, _) => (default, m)
      case (Reply(n), m') =>
        if n == 0 then (default, m')
        else
          match Decode(cfg, c, data)
          case Value(v) => (v, m')
          case _ => (default, m')
  }

  /**
   * `popitem` over the scanned keys, in scan order: pop each key of the
   * namespace until one yields something other than None.
   */
  function PopItemOp(cfg: CacheConfig, c: Codec, m: Entries, scanned: seq<string>, popFault: string -> (bool, bool)): (Result<(string, PyValue), Raised>, Entries)
  {
    if scanned == [] then (Err(KeyError), m)
    else
      var k := scanned[0];
      if StartsWith(k, cfg.pref) then
        var key := k[|cfg.pref|..];
        var (v, m') := PopOp(cfg, c, m, key, PyNone, popFault(key).0, popFault(key).1);
        if !v.PyNone? then (Ok((key, v)), m')
        else PopItemOp(cfg, c, m', scanned[1..], popFault)
      else PopItemOp(cfg, c, m, scanned[1..], popFault)
  }

  /** `clear`: DEL of every scanned key of the namespace, if there is any. */
  function ClearOp(cfg: CacheConfig, m: Entries, fScan: bool, fDel: bool): Entries
  {
    if fScan || MatchingKeys(m, Pattern(cfg)) == {} then m
    else if fDel then m
    else m - MatchingKeys(m, Pattern(cfg))
  }

  /**
   * `setdefault`: a real value is returned untouched; a tombstone gives the
   * default and stays; otherwise (absent, or undecodable and deleted) the
   * default is written with the default TTL, or a fresh tombstone when the
   * default is None.
   */
  function SetDefaultOp(cfg: CacheConfig, c: Codec, m: Entries, key: string, default: PyValue, fGet: bool, fDel: bool, fSet: bool): (Result<PyValue, Raised>, Entries)
  {
    var pk := AddPrefix(cfg, key);
    match GetCmd(m, pk, fGet)
    case RedisError => (Ok(default), m)
    case Reply(None) => SetDefaultMissing(cfg, c, m, key, default, fSet)
    case Reply(Some(data)) =>
      match Decode(cfg, c, data)
      case Tombstone => (Ok(default), m)
      case Value(v) => (Ok(v), m)
      case Corrupt => SetDefaultMissing(cfg, c, DelCmd(m, [pk], fDel).1, key, default, fSet)
  }

  function SetDefaultMissing(cfg: CacheConfig, c: Codec, m: Entries, key: string, default: PyValue, fSet: bool): (Result<PyValue, Raised>, Entries)
  {
    if !default.PyNone? then (Ok(default), SetItemOp(cfg, c, m, key, default, fSet))
    else
      var (raised, m') := SetNegativeOp(cfg, c, m, key, fSet);
      if raised.Some? then (Err(raised.value), m') else (Ok(PyNone), m')
  }

  // ---------------------------------------------------------------------
  // Expiry and counters

  /** `expire`: EXPIRE when a TTL is given, PERSIST otherwise; errors are swallowed. */
  function ExpireOp(cfg: CacheConfig, m: Entries, key: string, ttl: Option<int>, fCmd: bool): Entries
  {
    if ttl.Some? then ExpireCmd(m, AddPrefix(cfg, key), ttl.value, fCmd).1
    else PersistCmd(m, AddPrefix(cfg, key), fCmd).1
  }

  /** `incr`: INCRBY; any error reads as 0. */
  function IncrOp(cfg: CacheConfig, m: Entries, key: string, amount: int, fCmd: bool): (int, Entries)
  {
    match IncrByCmd(m, AddPrefix(cfg, key), amount, fCmd)
    case (RedisError, m') => (0, m')
    case (Reply(n), m') => (n, m')
  }

  /** `decr`: DECRBY; any error reads as 0. */
  function DecrOp(cfg: CacheConfig, m: Entries, key: string, amount: int, fCmd: bool): (int, Entries)
  {
    match DecrByCmd(m, AddPrefix(cfg, key), amount, fCmd)
    case (RedisError, m') => (0, m')
    case (Reply(n), m') => (n, m')
  }

  // ---------------------------------------------------------------------
  // values() and items(): `get` on every iterated key, keeping non-None results

  function ValuesOp(cfg: CacheConfig, c: Codec, m: Entries, keys: seq<string>, getFault: string -> (bool, bool)): (seq<PyValue>, Entries)
  {
    if keys == [] then ([], m)
    else
      var (v, m1) := GetOp(cfg, c, m, keys[0], PyNone, getFault(keys[0]).0, getFault(keys[0]).1);
      var (rest, m2) := ValuesOp(cfg, c, m1, keys[1..], getFault);
      ((if v.PyNone? then [] else [v]) + rest, m2)
  }

  function ItemsOp(cfg: CacheConfig, c: Codec, m: Entries, keys: seq<string>, getFault: string -> (bool, bool)): (seq<(string, PyValue)>, Entries)
  {
    if keys == [] then ([], m)
    else
      var (v, m1) := GetOp(cfg, c, m, keys[0], PyNone, getFault(keys[0]).0, getFault(keys[0]).1);
      var (rest, m2) := ItemsOp(cfg, c, m1, keys[1..], getFault);
      ((if v.PyNone? then [] else [(keys[0], v)]) + rest, m2)
  }

  // ---------------------------------------------------------------------
  // Guarantees

  /** Stripping the prefix of a key of the namespace and adding it back gives the key. */
  lemma PrefixRestored(cfg: CacheConfig, k: string)
    requires StartsWith(k, cfg.pref)
    ensures AddPrefix(cfg, k[|cfg.pref|..]) == k
  {
    assert k == k[..|cfg.pref|] + k[|cfg.pref|..];
  }

  /** A lookup returns a real value stored under the key, or EMPTY; only a corrupt entry is removed. */
  lemma GetItemSound(cfg: CacheConfig, c: Codec, m: Entries, key: string, fGet: bool, fDel: bool)
    ensures var (r, m') := GetItemOp(cfg, c, m, key, fGet, fDel);
      && (r.PyEmpty? || Classify(cfg, c, m, key) == Some(Value(r)))
      && (!fGet && Classify(cfg, c, m, key).Some? && Classify(cfg, c, m, key).value.Value? ==> r == Classify(cfg, c, m, key).value.v)
      && (m' == m || Classify(cfg, c, m, key) == Some(Corrupt))
  {
    var pk := AddPrefix(cfg, key);
    if !fGet && pk in m {
      assert GetCmd(m, pk, fGet) == Reply(Some(m[pk].data));
      assert Classify(cfg, c, m, key) == Some(Decode(cfg, c, m[pk].data));
    } else {
      assert GetItemOp(cfg, c, m, key, fGet, fDel) == (PyEmpty, m);
    }
  }

  /** What was written is read back, and it expires after the default TTL. */
  lemma SetThenGet(cfg: CacheConfig, c: Codec, m: Entries, key: string, v: PyValue, fDel: bool)
    requires CodecOk(c) && Serl(cfg, c, v).Some? && cfg.defaultTtl > 0 && !v.PyCacheMiss?
    ensures var m' := SetItemOp(cfg, c, m, key, v, false);
      && GetItemOp(cfg, c, m', key, false, fDel) == (v, m')
      && TtlOp(cfg, m', key, false) == Some(cfg.defaultTtl)
      && AddPrefix(cfg, key) !in AdvanceClock(m', cfg.defaultTtl)
  {
    SerlDeserlRoundTrip(cfg, c, v);
  }

  /**
   * After `set_negative` the key reads as a miss (EMPTY, or the default of
   * `get`) while `in` still reports it, for the negative TTL.
   */
  lemma NegativeEntryHidesKey(cfg: CacheConfig, c: Codec, m: Entries, key: string, default: PyValue, fDel: bool)
    requires CodecOk(c) && Serl(cfg, c, PyCacheMiss).Some? && cfg.negativeTtl > 0
    ensures var (raised, m') := SetNegativeOp(cfg, c, m, key, false);
      && raised.None?
      && GetItemOp(cfg, c, m', key, false, fDel) == (PyEmpty, m')
      && GetOp(cfg, c, m', key, default, false, fDel) == (default, m')
      && ContainsOp(cfg, m', PyStr(key), false)
      && TtlOp(cfg, m', key, false) == Some(cfg.negativeTtl)
  {
    CacheMissRoundTrip(cfg, c);
  }

  /** An undecodable entry reads as EMPTY and is deleted, so the next lookup finds nothing. */
  lemma CorruptEntrySelfHeals(cfg: CacheConfig, c: Codec, m: Entries, key: string)
    requires Classify(cfg, c, m, key) == Some(Corrupt)
    ensures var (r, m') := GetItemOp(cfg, c, m, key, false, false);
      && r.PyEmpty? && m' == m - {AddPrefix(cfg, key)}
      && Classify(cfg, c, m', key).None?
      && GetItemOp(cfg, c, m', key, false, false) == (PyEmpty, m')
  {
    assert DelCmd(m, [AddPrefix(cfg, key)], false).1 == m - {AddPrefix(cfg, key)} by {
      assert KeySet([AddPrefix(cfg, key)]) == {AddPrefix(cfg, key)};
    }
  }

  /** With signing on, an entry whose tag was altered is never returned: it reads as EMPTY and is deleted. */
  lemma TamperedEntryDeleted(cfg: CacheConfig, c: Codec, m: Entries, key: string, v: PyValue, i: nat, x: byte)
    requires CodecOk(c) && SigningOn(cfg) && Serl(cfg, c, v).Some?
    requires i < TagLength && Serl(cfg, c, v).value[i] != x
    requires AddPrefix(cfg, key) in m && m[AddPrefix(cfg, key)].data == Serl(cfg, c, v).value[i := x]
    ensures GetItemOp(cfg, c, m, key, false, false) == (PyEmpty, m - {AddPrefix(cfg, key)})
  {
    TamperedTagRejected(cfg, c, v, i, x);
    CorruptEntrySelfHeals(cfg, c, m, key);
  }

  /** `setdefault` on a live value returns it and writes nothing. */
  lemma SetDefaultKeepsValue(cfg: CacheConfig, c: Codec, m: Entries, key: string, default: PyValue, v: PyValue, fDel: bool, fSet: bool)
    requires Classify(cfg, c, m, key) == Some(Value(v))
    ensures SetDefaultOp(cfg, c, m, key, default, false, fDel, fSet) == (Ok(v), m)
  {
  }

  /** `setdefault` on a tombstone returns the default and leaves the tombstone as it is. */
  lemma SetDefaultKeepsTombstone(cfg: CacheConfig, c: Codec, m: Entries, key: string, default: PyValue, fDel: bool, fSet: bool)
    requires Classify(cfg, c, m, key) == Some(Tombstone)
    ensures SetDefaultOp(cfg, c, m, key, default, false, fDel, fSet) == (Ok(default), m)
  {
  }

  /** `setdefault` on a missing key stores the default, which the next lookup returns. */
  lemma SetDefaultStoresDefault(cfg: CacheConfig, c: Codec, m: Entries, key: string, default: PyValue, fDel: bool)
    requires CodecOk(c) && Classify(cfg, c, m, key).None?
    requires !default.PyNone? && !default.PyCacheMiss? && Serl(cfg, c, default).Some? && cfg.defaultTtl > 0
    ensures var (r, m') := SetDefaultOp(cfg, c, m, key, default, false, fDel, false);
      && r == Ok(default)
      && GetItemOp(cfg, c, m', key, false, fDel) == (default, m')
  {
    SetThenGet(cfg, c, m, key, default, fDel);
  }

  /** `setdefault` with a None default on a missing key records a tombstone instead. */
  lemma SetDefaultNoneIsNegative(cfg: CacheConfig, c: Codec, m: Entries, key: string, fDel: bool)
    requires CodecOk(c) && Classify(cfg, c, m, key).None?
    requires Serl(cfg, c, PyCacheMiss).Some? && cfg.negativeTtl > 0
    ensures var (r, m') := SetDefaultOp(cfg, c, m, key, PyNone, false, fDel, false);
      && r == Ok(PyNone)
      && Classify(cfg, c, m', key) == Some(Tombstone)
      && TtlOp(cfg, m', key, false) == Some(cfg.negativeTtl)
  {
    CacheMissRoundTrip(cfg, c);
  }

  /** `del cache[key]` raises KeyError exactly when the store fails or the physical key is absent. */
  lemma DelItemRaisesIffAbsent(cfg: CacheConfig, m: Entries, key: string, fDel: bool)
    ensures var (raised, m') := DelItemOp(cfg, m, key, fDel);
      && (raised == Some(KeyError) <==> fDel || AddPrefix(cfg, key) !in m)
      && (!fDel ==> m' == m - {AddPrefix(cfg, key)})
  {
    var pk := AddPrefix(cfg, key);
    assert KeySet([pk]) == {pk};
    if pk in m {
      assert KeySet([pk]) * m.Keys == {pk};
    } else {
      assert KeySet([pk]) * m.Keys == {};
    }
  }

  /** `pop` returns the live value or the default, and removes whatever entry there was. */
  lemma PopRemoves(cfg: CacheConfig, c: Codec, m: Entries, key: string, default: PyValue)
    ensures var (r, m') := PopOp(cfg, c, m, key, default, false, false);
      && r == (if Classify(cfg, c, m, key).Some? && Classify(cfg, c, m, key).value.Value?
               then Classify(cfg, c, m, key).value.v else default)
      && m' == m - {AddPrefix(cfg, key)}
  {
    var pk := AddPrefix(cfg, key);
    assert KeySet([pk]) == {pk};
    if pk in m {
      assert GetCmd(m, pk, false) == Reply(Some(m[pk].data));
      assert KeySet([pk]) * m.Keys == {pk};
      assert DelCmd(m, [pk], false) == (Reply(1), m - {pk});
      var d := Decode(cfg, c, m[pk].data);
      assert Classify(cfg, c, m, key) == Some(d);
      assert PopOp(cfg, c, m, key, default, false, false) == (if d.Value? then d.v else default, m - {pk});
    } else {
      assert GetCmd(m, pk, false) == Reply(None);
      assert m - {pk} == m;
    }
  }

  /** A scanned key `popitem` would return: in the namespace, holding a live value other than None. */
  predicate Poppable(cfg: CacheConfig, c: Codec, m: Entries, k: string)
  {
    && StartsWith(k, cfg.pref)
    && k in m
    && Decode(cfg, c, m[k].data).Value?
    && !Decode(cfg, c, m[k].data).v.PyNone?
  }

  function NoFault(key: string): (bool, bool)
  {
    (false, false)
  }

  /**
   * Without store errors, `popitem` raises KeyError exactly when no scanned key
   * holds a poppable value; otherwise it returns such a value and removes it.
   */
  lemma {:induction false} PopItemFindsPoppable(cfg: CacheConfig, c: Codec, m: Entries, scanned: seq<string>)
    ensures var (r, m') := PopItemOp(cfg, c, m, scanned, NoFault);
      && (r.Err? <==> forall k :: k in scanned ==> !Poppable(cfg, c, m, k))
      && (r.Ok? ==> var (key, v) := r.value;
            AddPrefix(cfg, key) in scanned && Classify(cfg, c, m, key) == Some(Value(v)) && !v.PyNone?
            && AddPrefix(cfg, key) !in m')
  {
    if scanned != [] {
      var k := scanned[0];
      var rest := scanned[1..];
      assert scanned == [k] + rest;
      if StartsWith(k, cfg.pref) {
        var key := k[|cfg.pref|..];
        PrefixRestored(cfg, k);
        PopRemoves(cfg, c, m, key, PyNone);
        var (v, m1) := PopOp(cfg, c, m, key, PyNone, false, false);
        if !v.PyNone? {
          assert Poppable(cfg, c, m, k);
          assert PopItemOp(cfg, c, m, scanned, NoFault) == (Ok((key, v)), m1);
        } else {
          assert !Poppable(cfg, c, m, k);
          assert m1 == m - {k};
          PopItemFindsPoppable(cfg, c, m1, rest);
          forall k2 | k2 in rest
            ensures Poppable(cfg, c, m1, k2) <==> Poppable(cfg, c, m, k2)
          {
          }
          assert PopItemOp(cfg, c, m, scanned, NoFault) == PopItemOp(cfg, c, m1, rest, NoFault);
          assert (forall k2 :: k2 in scanned ==> !Poppable(cfg, c, m, k2)) <==> (forall k2 :: k2 in rest ==> !Poppable(cfg, c, m1, k2));
          var (r, m') := PopItemOp(cfg, c, m1, rest, NoFault);
          if r.Ok? {
            var (key2, v2) := r.value;
            assert AddPrefix(cfg, key2) != k;
          }
        }
      } else {
        assert !Poppable(cfg, c, m, k);
        PopItemFindsPoppable(cfg, c, m, rest);
      }
    }
  }

  /** `clear` removes every key the namespace pattern matches and nothing else. */
  lemma ClearEmptiesNamespace(cfg: CacheConfig, m: Entries)
    ensures var m' := ClearOp(cfg, m, false, false);
      && MatchingKeys(m', Pattern(cfg)) == {}
      && forall k :: k in m && !Glob(Pattern(cfg), k, true) ==> k in m' && m'[k] == m[k]
  {
  }

  /** When the prefix has no glob characters, SCAN's namespace is exactly the keys starting with it. */
  lemma NamespaceIsPrefix(cfg: CacheConfig, m: Entries)
    requires forall i :: 0 <= i < |cfg.pref| ==> !IsGlobMeta(cfg.pref[i])
    ensures MatchingKeys(m, Pattern(cfg)) == set k | k in m && StartsWith(k, cfg.pref)
  {
    forall k | k in m
      ensures Glob(Pattern(cfg), k, true) <==> StartsWith(k, cfg.pref)
    {
      PrefixPatternMatchesStartsWith(cfg.pref, k, true);
    }
  }

  /** Iteration drops only scanned keys outside the literal prefix, so without them it keeps them all. */
  lemma {:induction false} StripAllKeepsPrefixed(pref: string, scanned: seq<string>)
    requires forall i :: 0 <= i < |scanned| ==> StartsWith(scanned[i], pref)
    ensures |StripAll(pref, scanned)| == |scanned|
    ensures forall i :: 0 <= i < |scanned| ==> pref + StripAll(pref, scanned)[i] == scanned[i]
  {
    if scanned != [] {
      var k := scanned[0];
      var tail := scanned[1..];
      forall i | 0 <= i < |tail|
        ensures StartsWith(tail[i], pref)
      {
        assert tail[i] == scanned[i + 1];
      }
      StripAllKeepsPrefixed(pref, tail);
      var rest := StripAll(pref, tail);
      assert StartsWith(k, pref);
      var r := StripAll(pref, scanned);
      assert r == [k[|pref|..]] + rest;
      assert pref + r[0] == scanned[0] by {
        assert k == k[..|pref|] + k[|pref|..];
      }
      forall i | 1 <= i < |scanned|
        ensures pref + r[i] == scanned[i]
      {
        assert r[i] == rest[i - 1];
        assert scanned[i] == tail[i - 1];
      }
    }
  }

  /** No two keys of the namespace strip to the same logical key. */
  lemma StripInjective(pref: string, a: string, b: string)
    requires StartsWith(a, pref) && StartsWith(b, pref) && a[|pref|..] == b[|pref|..]
    ensures a == b
  {
    assert a == a[..|pref|] + a[|pref|..];
    assert b == b[..|pref|] + b[|pref|..];
  }

  /** Iterating over distinct scanned keys gives distinct logical keys. */
  lemma {:induction false} StripAllDistinct(pref: string, scanned: seq<string>)
    requires Distinct(scanned)
    ensures Distinct(StripAll(pref, scanned))
  {
    if scanned != [] {
      var rest := scanned[1..];
      forall i, j | 0 <= i < j < |rest|
        ensures rest[i] != rest[j]
      {
        assert rest[i] == scanned[i + 1] && rest[j] == scanned[j + 1];
      }
      StripAllDistinct(pref, rest);
      var k := scanned[0];
      if StartsWith(k, pref) {
        forall s | s in rest && StartsWith(s, pref)
          ensures s[|pref|..] != k[|pref|..]
        {
          if s[|pref|..] == k[|pref|..] {
            StripInjective(pref, s, k);
          }
        }
        var tail := StripAll(pref, rest);
        assert k[|pref|..] !in tail;
        var keys := StripAll(pref, scanned);
        assert keys == [k[|pref|..]] + tail;
        forall i, j | 0 <= i < j < |keys|
          ensures keys[i] != keys[j]
        {
          assert keys[j] == tail[j - 1];
          if i == 0 {
            assert keys[0] == k[|pref|..];
            assert tail[j - 1] in tail;
          } else {
            assert keys[i] == tail[i - 1];
            assert 0 <= i - 1 < j - 1 < |tail|;
            assert tail[i - 1] != tail[j - 1];
          }
        }
      } else {
        assert StripAll(pref, scanned) == StripAll(pref, rest);
      }
    }
  }

  /** The logical keys iteration yields are the stripped forms of the prefixed scanned keys. */
  lemma StripAllKeys(pref: string, scanned: seq<string>)
    ensures KeySet(StripAll(pref, scanned)) == set k | k in scanned && StartsWith(k, pref) :: k[|pref|..]
  {
    var keys := StripAll(pref, scanned);
    var image := set k | k in scanned && StartsWith(k, pref) :: k[|pref|..];
    forall x | x in keys
      ensures x in image
    {
      var s :| s in scanned && StartsWith(s, pref) && x == s[|pref|..];
    }
  }

  /**
   * A scan returns only matching keys, so iteration yields only logical keys
   * of the namespace; a full scan gives them all.
   */
  lemma StripAllWithin(cfg: CacheConfig, m: Entries, scanned: seq<string>)
    ensures KeySet(scanned) <= MatchingKeys(m, Pattern(cfg)) ==> KeySet(StripAll(cfg.pref, scanned)) <= IterKeys(cfg, m)
    ensures KeySet(scanned) == MatchingKeys(m, Pattern(cfg)) ==> KeySet(StripAll(cfg.pref, scanned)) == IterKeys(cfg, m)
  {
    StripAllKeys(cfg.pref, scanned);
  }

  /**
   * A prefix with a wildcard makes `len` count keys that iteration skips:
   * for a prefix `a` + `?` + `b` or `a` + `*` + `b` with literal `a` and `b`,
   * the key `a` + "x" + `b` matches the pattern `prefix*`, so a full scan
   * returns it and `len` is at least 1, but it does not start with the
   * prefix, so iteration yields nothing.
   */
  lemma LenCountsWhatIterSkips(cfg: CacheConfig, a: string, w: char, b: string, e: Entry)
    requires w == '?' || w == '*'
    requires forall i :: 0 <= i < |a| ==> !IsGlobMeta(a[i])
    requires forall i :: 0 <= i < |b| ==> !IsGlobMeta(b[i])
    requires cfg.pref == a + [w] + b
    ensures var m := map[a + "x" + b := e];
      MatchingKeys(m, Pattern(cfg)) == {a + "x" + b} && IterKeys(cfg, m) == {}
  {
    var k := a + "x" + b;
    var m := map[k := e];
    var tail := [w] + b + "*";
    assert Pattern(cfg) == a + tail;
    assert k == a + ("x" + b);
    GlobLiteral(a, tail, "x" + b, true);
    GlobLiteral(b, "*", [], true);
    assert b + [] == b && Glob("*", [], true);
    assert tail[0] == w && tail[1..] == b + "*";
    assert ("x" + b)[1..] == b;
    if w == '*' {
      assert Glob(tail, b, true) by {
        assert Glob(tail[1..], b, true);
      }
    }
    assert Glob(Pattern(cfg), k, true);
    assert MatchingKeys(m, Pattern(cfg)) == {k};
    assert !StartsWith(k, cfg.pref) by {
      assert |k| == |cfg.pref|;
      assert k[|a|] == 'x' && cfg.pref[|a|] == w;
    }
  }

  /** `setx` with a TTL expires the key after it; without one the key never expires. */
  lemma SetXChoosesExpiry(cfg: CacheConfig, c: Codec, m: Entries, key: string, v: PyValue, dt: nat)
    requires Serl(cfg, c, v).Some?
    ensures forall t :: t > 0 ==> TtlOp(cfg, SetXOp(cfg, c, m, key, v, Some(t), false), key, false) == Some(t)
    ensures TtlOp(cfg, SetXOp(cfg, c, m, key, v, None, false), key, false).None?
    ensures AddPrefix(cfg, key) in AdvanceClock(SetXOp(cfg, c, m, key, v, None, false), dt)
    ensures forall t :: t <= 0 ==> SetXOp(cfg, c, m, key, v, Some(t), false) == m
  {
  }

  /** What `setx` wrote with a positive TTL is read back, and expires after that TTL. */
  lemma SetXThenGet(cfg: CacheConfig, c: Codec, m: Entries, key: string, v: PyValue, t: int)
    requires CodecOk(c) && Serl(cfg, c, v).Some? && t > 0 && !v.PyCacheMiss?
    ensures var m' := SetXOp(cfg, c, m, key, v, Some(t), false);
      && GetItemOp(cfg, c, m', key, false, false) == (v, m')
      && TtlOp(cfg, m', key, false) == Some(t)
  {
    SerlDeserlRoundTrip(cfg, c, v);
  }

  /** `ttl` reads None exactly for a missing key or one without expiry (and on error). */
  lemma TtlNoneIffNoExpiry(cfg: CacheConfig, m: Entries, key: string)
    ensures TtlOp(cfg, m, key, false).None? <==>
      AddPrefix(cfg, key) !in m || m[AddPrefix(cfg, key)].ttl.None?
    ensures TtlOp(cfg, m, key, true).None?
  {
  }

  /** `expire(key, None)` makes an existing key permanent; a positive TTL replaces its expiry. */
  lemma ExpireSetsOrClears(cfg: CacheConfig, m: Entries, key: string, t: int)
    requires AddPrefix(cfg, key) in m
    ensures TtlOp(cfg, ExpireOp(cfg, m, key, None, false), key, false).None?
    ensures AddPrefix(cfg, key) in ExpireOp(cfg, m, key, None, false)
    ensures t > 0 ==> TtlOp(cfg, ExpireOp(cfg, m, key, Some(t), false), key, false) == Some(t)
    ensures t <= 0 ==> AddPrefix(cfg, key) !in ExpireOp(cfg, m, key, Some(t), false)
  {
  }

  /** A fresh counter incremented by `a` reads `a`; decrementing it by `a` again reads 0. */
  lemma IncrDecrCancel(cfg: CacheConfig, m: Entries, key: string, a: int)
    requires AddPrefix(cfg, key) !in m && MinInt64 < a <= MaxInt64
    ensures var (n, m1) := IncrOp(cfg, m, key, a, false);
      n == a && DecrOp(cfg, m1, key, a, false).0 == 0
  {
    IncrAbsentStartsAtZero(m, AddPrefix(cfg, key), a);
    var m1 := IncrOp(cfg, m, key, a, false).1;
    ParseIntBytes(a);
    assert m1[AddPrefix(cfg, key)].data == IntBytes(a);
  }

  /** A store error on any counter command reads as 0. */
  lemma CounterErrorReadsZero(cfg: CacheConfig, m: Entries, key: string, a: int)
    ensures IncrOp(cfg, m, key, a, true) == (0, m)
    ensures DecrOp(cfg, m, key, a, true).0 == 0
  {
  }

  /** One step of `values()`: the first remaining key, then the rest from the resulting map. */
  lemma ValuesStep(cfg: CacheConfig, c: Codec, m: Entries, ks: seq<string>, i: nat, getFault: string -> (bool, bool))
    requires i < |ks|
    ensures var (v, m1) := GetOp(cfg, c, m, ks[i], PyNone, getFault(ks[i]).0, getFault(ks[i]).1);
      ValuesOp(cfg, c, m, ks[i..], getFault)
        == ((if v.PyNone? then [] else [v]) + ValuesOp(cfg, c, m1, ks[i + 1..], getFault).0,
            ValuesOp(cfg, c, m1, ks[i + 1..], getFault).1)
  {
    assert ks[i..][0] == ks[i] && ks[i..][1..] == ks[i + 1..];
  }

  /** One step of `items()`. */
  lemma ItemsStep(cfg: CacheConfig, c: Codec, m: Entries, ks: seq<string>, i: nat, getFault: string -> (bool, bool))
    requires i < |ks|
    ensures var (v, m1) := GetOp(cfg, c, m, ks[i], PyNone, getFault(ks[i]).0, getFault(ks[i]).1);
      ItemsOp(cfg, c, m, ks[i..], getFault)
        == ((if v.PyNone? then [] else [(ks[i], v)]) + ItemsOp(cfg, c, m1, ks[i + 1..], getFault).0,
            ItemsOp(cfg, c, m1, ks[i + 1..], getFault).1)
  {
    assert ks[i..][0] == ks[i] && ks[i..][1..] == ks[i + 1..];
  }

  /** `values()` never reports None and has at most one value per key. */
  lemma {:induction false} ValuesSkipNone(cfg: CacheConfig, c: Codec, m: Entries, keys: seq<string>, getFault: string -> (bool, bool))
    ensures var vs := ValuesOp(cfg, c, m, keys, getFault).0;
      |vs| <= |keys| && forall i :: 0 <= i < |vs| ==> !vs[i].PyNone?
  {
    if keys != [] {
      var (v, m1) := GetOp(cfg, c, m, keys[0], PyNone, getFault(keys[0]).0, getFault(keys[0]).1);
      ValuesSkipNone(cfg, c, m1, keys[1..], getFault);
    }
  }

  /** `items()` pairs only iterated keys with values other than None. */
  lemma {:induction false} ItemsSkipNone(cfg: CacheConfig, c: Codec, m: Entries, keys: seq<string>, getFault: string -> (bool, bool))
    ensures var its := ItemsOp(cfg, c, m, keys, getFault).0;
      |its| <= |keys| && forall i :: 0 <= i < |its| ==> its[i].0 in keys && !its[i].1.PyNone?
  {
    if keys != [] {
      var (v, m1) := GetOp(cfg, c, m, keys[0], PyNone, getFault(keys[0]).0, getFault(keys[0]).1);
      ItemsSkipNone(cfg, c, m1, keys[1..], getFault);
      var its := ItemsOp(cfg, c, m, keys, getFault).0;
      var tail := ItemsOp(cfg, c, m1, keys[1..], getFault).0;
      assert its == (if v.PyNone? then [] else [(keys[0], v)]) + tail;
      forall i | 0 <= i < |its|
        ensures its[i].0 in keys
      {
        if !v.PyNone? && i == 0 {
        } else {
          var j := if v.PyNone? then i else i - 1;
          assert its[i] == tail[j];
          assert tail[j].0 in keys[1..];
        }
      }
    }
  }

  /**
   * What `get(key)` hands to `values()` and `items()` when the store does not
   * fail: a stored value that is neither None nor EMPTY (EMPTY reads as the
   * default, None, and None is dropped).
   */
  function LiveValue(cfg: CacheConfig, c: Codec, m: Entries, key: string): Option<PyValue>
  {
    var pk := AddPrefix(cfg, key);
    if pk in m && Decode(cfg, c, m[pk].data).Value?
       && !Decode(cfg, c, m[pk].data).v.PyNone? && !Decode(cfg, c, m[pk].data).v.PyEmpty?
    then Some(Decode(cfg, c, m[pk].data).v)
    else None
  }

  /** `m` is `m0` less some undecodable entries: what `get` leaves behind. */
  predicate LessCorrupt(cfg: CacheConfig, c: Codec, m0: Entries, m: Entries)
  {
    && (forall pk :: pk in m ==> pk in m0 && m[pk] == m0[pk])
    && (forall pk :: pk in m0 && pk !in m ==> Decode(cfg, c, m0[pk].data).Corrupt?)
  }

  lemma LiveValueKept(cfg: CacheConfig, c: Codec, m0: Entries, m: Entries, key: string)
    requires LessCorrupt(cfg, c, m0, m)
    ensures LiveValue(cfg, c, m, key) == LiveValue(cfg, c, m0, key)
  {
  }

  /** One `get` without store errors reads the live value and drops at most an undecodable entry. */
  lemma GetKeepsLive(cfg: CacheConfig, c: Codec, m0: Entries, m: Entries, key: string)
    requires LessCorrupt(cfg, c, m0, m)
    ensures var (v, m1) := GetOp(cfg, c, m, key, PyNone, false, false);
      && LessCorrupt(cfg, c, m0, m1)
      && (if v.PyNone? then LiveValue(cfg, c, m0, key).None? else LiveValue(cfg, c, m0, key) == Some(v))
  {
    LiveValueKept(cfg, c, m0, m, key);
    var pk := AddPrefix(cfg, key);
    assert KeySet([pk]) == {pk};
  }

  lemma {:induction false} ItemsLiveFrom(cfg: CacheConfig, c: Codec, m0: Entries, m: Entries, keys: seq<string>)
    requires LessCorrupt(cfg, c, m0, m)
    ensures var its := ItemsOp(cfg, c, m, keys, NoFault).0;
      && (forall i :: 0 <= i < |its| ==> its[i].0 in keys && LiveValue(cfg, c, m0, its[i].0) == Some(its[i].1))
      && (forall k :: k in keys && LiveValue(cfg, c, m0, k).Some? ==> (k, LiveValue(cfg, c, m0, k).value) in its)
  {
    if keys != [] {
      var k0 := keys[0];
      var (v, m1) := GetOp(cfg, c, m, k0, PyNone, false, false);
      GetKeepsLive(cfg, c, m0, m, k0);
      ItemsLiveFrom(cfg, c, m0, m1, keys[1..]);
      var tail := ItemsOp(cfg, c, m1, keys[1..], NoFault).0;
      var its := ItemsOp(cfg, c, m, keys, NoFault).0;
      assert its == (if v.PyNone? then [] else [(k0, v)]) + tail;
      forall i | 0 <= i < |its|
        ensures its[i].0 in keys && LiveValue(cfg, c, m0, its[i].0) == Some(its[i].1)
      {
        if v.PyNone? || i > 0 {
          var j := if v.PyNone? then i else i - 1;
          assert its[i] == tail[j];
          assert tail[j].0 in keys[1..];
        }
      }
      forall k | k in keys && LiveValue(cfg, c, m0, k).Some?
        ensures (k, LiveValue(cfg, c, m0, k).value) in its
      {
        if k != k0 {
          assert k in keys[1..] by {
            var j :| 0 <= j < |keys| && keys[j] == k;
            assert keys[1..][j - 1] == k;
          }
        }
      }
    }
  }

  /**
   * Without store errors, `items()` pairs iterated keys with their live
   * values, and every iterated key holding a live value appears with it:
   * exactly the entries `get` would return, less None.
   */
  lemma ItemsAreLive(cfg: CacheConfig, c: Codec, m: Entries, keys: seq<string>)
    ensures var its := ItemsOp(cfg, c, m, keys, NoFault).0;
      && (forall i :: 0 <= i < |its| ==> its[i].0 in keys && LiveValue(cfg, c, m, its[i].0) == Some(its[i].1))
      && (forall k :: k in keys && LiveValue(cfg, c, m, k).Some? ==> (k, LiveValue(cfg, c, m, k).value) in its)
  {
    ItemsLiveFrom(cfg, c, m, m, keys);
  }

  /** `values()` is the value column of `items()` over the same keys, and leaves the same store. */
  lemma {:induction false} ValuesAreItemValues(cfg: CacheConfig, c: Codec, m: Entries, keys: seq<string>, getFault: string -> (bool, bool))
    ensures var (vs, mv) := ValuesOp(cfg, c, m, keys, getFault);
      var (its, mi) := ItemsOp(cfg, c, m, keys, getFault);
      && mv == mi
      && |vs| == |its|
      && forall i :: 0 <= i < |vs| ==> vs[i] == its[i].1
  {
    if keys != [] {
      var (v, m1) := GetOp(cfg, c, m, keys[0], PyNone, getFault(keys[0]).0, getFault(keys[0]).1);
      ValuesAreItemValues(cfg, c, m1, keys[1..], getFault);
      var vt := ValuesOp(cfg, c, m1, keys[1..], getFault).0;
      var it := ItemsOp(cfg, c, m1, keys[1..], getFault).0;
      var vs := ValuesOp(cfg, c, m, keys, getFault).0;
      var its := ItemsOp(cfg, c, m, keys, getFault).0;
      assert vs == (if v.PyNone? then [] else [v]) + vt;
      assert its == (if v.PyNone? then [] else [(keys[0], v)]) + it;
      forall i | 0 <= i < |vs|
        ensures vs[i] == its[i].1
      {
        if v.PyNone? {
          assert vs[i] == vt[i] && its[i] == it[i];
        } else if i > 0 {
          assert vs[i] == vt[i - 1] && its[i] == it[i - 1];
        }
      }
    }
  }
}
