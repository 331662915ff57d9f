/**
 * The networked key-value store behind the cache: a Redis server seen as a
 * map from physical keys to byte strings with an optional remaining
 * time-to-live. Each command is a pure function of the map (its reply and the
 * new map); `RedisStore` is the server object whose methods apply them. Every
 * call takes a `fault` flag: true stands for a connection error or timeout,
 * which reaches the client as `redis.RedisError` and leaves the server as it was.
 */
module Store {

  import opened Common

  datatype Entry = Entry(data: Bytes, ttl: Option<nat>)

  type Entries = map<string, Entry>

  /** A reply, or the RedisError the client raises instead. */
  datatype Reply<+T> = Reply(value: T) | RedisError

  // ---------------------------------------------------------------------
  // MATCH patterns

  /**
   * Glob matching as used by SCAN MATCH (`escapes` = true: a backslash quotes
   * the next character) and by `fnmatch` (`escapes` = false). `*` matches any
   * run of characters, `?` any one character; everything else is literal.
   */
  predicate Glob(p: string, s: string, escapes: bool)
    decreases |p| + |s|
  {
    if p == [] then s == []
    else if p[0] == '*' then Glob(p[1..], s, escapes) || (s != [] && Glob(p, s[1..], escapes))
    else if p[0] == '?' then s != [] && Glob(p[1..], s[1..], escapes)
    else if escapes && p[0] == '\\' && |p| >= 2 then s != [] && s[0] == p[1] && Glob(p[2..], s[1..], escapes)
    else s != [] && s[0] == p[0] && Glob(p[1..], s[1..], escapes)
  }

  predicate IsGlobMeta(c: char)
  {
    c == '*' || c == '?' || c == '[' || c == '\\'
  }

  /** `*` alone matches everything. */
  lemma {:induction false} StarMatchesAll(s: string, escapes: bool)
    ensures Glob("*", s, escapes)
    decreases |s|
  {
    if s != [] {
      StarMatchesAll(s[1..], escapes);
    } else {
      assert Glob("*"[1..], s, escapes);
    }
  }

  /** Literal pattern characters match only themselves, one for one. */
  lemma {:induction false} GlobLiteral(lit: string, rest: string, s: string, escapes: bool)
    requires forall i :: 0 <= i < |lit| ==> !IsGlobMeta(lit[i])
    ensures Glob(lit + rest, lit + s, escapes) == Glob(rest, s, escapes)
    decreases |lit|
  {
    if lit != [] {
      assert (lit + rest)[0] == lit[0] && (lit + rest)[1..] == lit[1..] + rest;
      assert (lit + s)[0] == lit[0] && (lit + s)[1..] == lit[1..] + s;
      GlobLiteral(lit[1..], rest, s, escapes);
    } else {
      assert lit + rest == rest && lit + s == s;
    }
  }

  /**
   * For a prefix free of pattern characters, `prefix*` matches exactly the
   * strings that start with the prefix.
   */
  lemma {:induction false} PrefixPatternMatchesStartsWith(prefix: string, s: string, escapes: bool)
    requires forall i :: 0 <= i < |prefix| ==> !IsGlobMeta(prefix[i])
    ensures Glob(prefix + "*", s, escapes) <==> StartsWith(s, prefix)
    decreases |prefix|
  {
    if prefix == [] {
      assert prefix + "*" == "*";
      StarMatchesAll(s, escapes);
    } else {
      var p := prefix + "*";
      assert p[0] == prefix[0] && p[1..] == prefix[1..] + "*";
      if s != [] {
        PrefixPatternMatchesStartsWith(prefix[1..], s[1..], escapes);
        assert StartsWith(s, prefix) <==> s[0] == prefix[0] && StartsWith(s[1..], prefix[1..]) by {
          if StartsWith(s, prefix) {
            assert s[1..][..|prefix| - 1] == s[..|prefix|][1..];
          }
          if s[0] == prefix[0] && StartsWith(s[1..], prefix[1..]) {
            assert s[..|prefix|] == [s[0]] + s[1..][..|prefix| - 1];
          }
        }
      }
    }
  }

  // ---------------------------------------------------------------------
  // Integers stored as decimal strings (INCRBY / DECRBY)

  const MinInt64: int := -0x8000_0000_0000_0000
  const MaxInt64: int := 0x7FFF_FFFF_FFFF_FFFF

  function CharByte(c: char): byte
    requires c as int < 128
  {
    c as int as byte
  }

  function AsciiBytes(s: string): (b: Bytes)
    requires forall i :: 0 <= i < |s| ==> s[i] as int < 128
    ensures |b| == |s|
    ensures forall i :: 0 <= i < |s| ==> b[i] as int == s[i] as int
  {
    if s == [] then [] else [CharByte(s[0])] + AsciiBytes(s[1..])
  }

  /** The bytes Redis stores for the integer `n`. */
  function IntBytes(n: int): (b: Bytes)
    ensures b != []
  {
    if n < 0 then [CharByte('-')] + AsciiBytes(NatToString(-n)) else AsciiBytes(NatToString(n))
  }

  predicate IsDigitByte(b: byte)
  {
    '0' as int <= b as int <= '9' as int
  }

  function DigitsValue(b: Bytes): nat
  {
    if b == [] then 0
    else DigitsValue(b[..|b| - 1]) * 10 + if IsDigitByte(b[|b| - 1]) then b[|b| - 1] as int - '0' as int else 0
  }

  /** The integer a stored string holds, if it is the canonical decimal form of one. */
  function ParseInt(b: Bytes): (r: Option<int>)
    ensures r.Some? ==> IntBytes(r.value) == b
  {
    if b == [] then None
    else
      var n: int := if b[0] == CharByte('-') then 0 - DigitsValue(b[1..]) as int else DigitsValue(b);
      if IntBytes(n) == b then Some(n) else None
  }

  lemma {:induction false} DigitsValueOfNat(n: nat)
    ensures DigitsValue(AsciiBytes(NatToString(n))) == n
  {
    var b := AsciiBytes(NatToString(n));
    if n >= 10 {
      DigitsValueOfNat(n / 10);
      assert NatToString(n) == NatToString(n / 10) + [DigitChar(n % 10)];
      AsciiBytesAppend(NatToString(n / 10), [DigitChar(n % 10)]);
      assert b[..|b| - 1] == AsciiBytes(NatToString(n / 10));
    }
  }

  lemma {:induction false} AsciiBytesAppend(s: string, t: string)
    requires forall i :: 0 <= i < |s| ==> s[i] as int < 128
    requires forall i :: 0 <= i < |t| ==> t[i] as int < 128
    ensures AsciiBytes(s + t) == AsciiBytes(s) + AsciiBytes(t)
  {
    var l := AsciiBytes(s + t);
    var r := AsciiBytes(s) + AsciiBytes(t);
    assert |l| == |r|;
    forall i | 0 <= i < |l| ensures l[i] == r[i] {
      if i < |s| {
        assert (s + t)[i] == s[i];
      } else {
        assert (s + t)[i] == t[i - |s|];
      }
    }
  }

  /** A signed form parses to `n` when its digits have the value `-n`. */
  lemma ParseSigned(b: Bytes, n: int)
    requires b != [] && b[0] == CharByte('-') && DigitsValue(b[1..]) == -n && IntBytes(n) == b
    ensures ParseInt(b) == Some(n)
  {
  }

  lemma ParseNegativeBytes(n: int)
    requires n < 0
    ensures ParseInt(IntBytes(n)) == Some(n)
  {
    var t := AsciiBytes(NatToString(-n));
    var b := IntBytes(n);
    assert b == [CharByte('-')] + t;
    assert b[1..] == t;
    DigitsValueOfNat(-n);
    ParseSigned(b, n);
  }

  lemma ParseNatBytes(n: nat)
    ensures ParseInt(IntBytes(n)) == Some(n)
  {
    var b := IntBytes(n);
    var s := NatToString(n);
    DigitsValueOfNat(n);
    assert b[0] as int == s[0] as int;
    assert b[0] != CharByte('-');
  }

  /** Reading back the stored form of an integer gives the integer. */
  lemma ParseIntBytes(n: int)
    ensures ParseInt(IntBytes(n)) == Some(n)
  {
    if n < 0 {
      ParseNegativeBytes(n);
    } else {
      ParseNatBytes(n);
    }
  }

  // ---------------------------------------------------------------------
  // Commands, as functions of the server's map

  function GetCmd(m: Entries, key: string, fault: bool): Reply<Option<Bytes>>
  {
    if fault then RedisError else Reply(if key in m then Some(m[key].data) else None)
  }

  /** SETEX: a non-positive expiry is an "invalid expire time" error. */
  function SetExCmd(m: Entries, key: string, seconds: int, data: Bytes, fault: bool): (Reply<bool>, Entries)
  {
    if fault || seconds <= 0 then (RedisError, m)
    else (Reply(true), m[key := Entry(data, Some(seconds))])
  }

  /** SET without options: the value replaces any earlier one and loses its expiry. */
  function SetCmd(m: Entries, key: string, data: Bytes, fault: bool): (Reply<bool>, Entries)
  {
    if fault then (RedisError, m) else (Reply(true), m[key := Entry(data, None)])
  }

  function KeySet(keys: seq<string>): set<string>
  {
    set k | k in keys
  }

  /** DEL: replies with the number of distinct keys that existed. */
  function DelCmd(m: Entries, keys: seq<string>, fault: bool): (Reply<nat>, Entries)
  {
    if fault then (RedisError, m) else (Reply(|KeySet(keys) * m.Keys|), m - KeySet(keys))
  }

  function ExistsCmd(m: Entries, key: string, fault: bool): Reply<nat>
  {
    if fault then RedisError else Reply(if key in m then 1 else 0)
  }

  /** TTL: -2 for a missing key, -1 for a key without expiry. */
  function TtlCmd(m: Entries, key: string, fault: bool): Reply<int>
  {
    if fault then RedisError
    else
      var t: int := if key !in m then -2 else if m[key].ttl.None? then -1 else m[key].ttl.value;
      Reply(t)
  }

  /** EXPIRE: a non-positive expiry deletes the key at once. */
  function ExpireCmd(m: Entries, key: string, seconds: int, fault: bool): (Reply<bool>, Entries)
  {
    if fault then (RedisError, m)
    else if key !in m then (Reply(false), m)
    else if seconds <= 0 then (Reply(true), m - {key})
    else (Reply(true), m[key := m[key].(ttl := Some(seconds))])
  }

  /** PERSIST: true only when an expiry was removed. */
  function PersistCmd(m: Entries, key: string, fault: bool): (Reply<bool>, Entries)
  {
    if fault then (RedisError, m)
    else if key !in m || m[key].ttl.None? then (Reply(false), m)
    else (Reply(true), m[key := m[key].(ttl := None)])
  }

  /**
   * INCRBY: a missing key counts as 0 and is created without expiry; an
   * existing key keeps its expiry. A value that is not an integer, or a result
   * outside the signed 64-bit range, is an error.
   */
  function IncrByCmd(m: Entries, key: string, amount: int, fault: bool): (Reply<int>, Entries)
  {
    if fault || !(MinInt64 <= amount <= MaxInt64) then (RedisError, m)
    else
      var current: Option<int> := if key in m then ParseInt(m[key].data) else Some(0);
      if current.None? then (RedisError, m)
      else
        var n := current.value + amount;
        if !(MinInt64 <= n <= MaxInt64) then (RedisError, m)
        else (Reply(n), m[key := Entry(IntBytes(n), if key in m then m[key].ttl else None)])
  }

  /** DECRBY: INCRBY with the negated amount (the amount itself must fit 64 bits). */
  function DecrByCmd(m: Entries, key: string, amount: int, fault: bool): (Reply<int>, Entries)
  {
    if !(MinInt64 <= amount <= MaxInt64) then (RedisError, m)
    else IncrByCmd(m, key, -amount, fault)
  }

  function MatchingKeys(m: Entries, pattern: string): set<string>
  {
    set k | k in m && Glob(pattern, k, true)
  }

  /** The passage of `dt` seconds: expired keys vanish, the others count down. */
  function AdvanceClock(m: Entries, dt: nat): (m': Entries)
    ensures forall k :: k in m' <==> k in m && (m[k].ttl.None? || m[k].ttl.value > dt)
  {
    map k | k in m && (m[k].ttl.None? || m[k].ttl.value > dt) ::
      if m[k].ttl.None? then m[k] else m[k].(ttl := Some(m[k].ttl.value - dt))
  }

  /** A missing key counts as 0: the first INCRBY on it replies with the amount. */
  lemma IncrAbsentStartsAtZero(m: Entries, key: string, amount: int)
    requires key !in m && MinInt64 < amount <= MaxInt64
    ensures IncrByCmd(m, key, amount, false).0 == Reply(amount)
    ensures DecrByCmd(m, key, amount, false).0 == Reply(-amount)
  {
    assert IncrByCmd(m, key, amount, false).0 == Reply(0 + amount);
    assert IncrByCmd(m, key, -amount, false).0 == Reply(0 - amount);
  }

  /** INCRBY then reading the counter back gives the sum. */
  lemma IncrThenIncr(m: Entries, key: string, a: int, b: int)
    requires key !in m
    requires MinInt64 <= a <= MaxInt64 && MinInt64 <= b <= MaxInt64 && MinInt64 <= a + b <= MaxInt64
    ensures IncrByCmd(IncrByCmd(m, key, a, false).1, key, b, false).0 == Reply(a + b)
  {
    ParseIntBytes(a);
  }

  /** A key written with SETEX for `t` seconds is gone once `t` seconds have passed. */
  lemma SetExExpires(m: Entries, key: string, t: int, data: Bytes)
    requires t > 0
    ensures key in SetExCmd(m, key, t, data, false).1
    ensures key !in AdvanceClock(SetExCmd(m, key, t, data, false).1, t)
    ensures t > 1 ==> key in AdvanceClock(SetExCmd(m, key, t, data, false).1, t - 1)
  {
  }

  /** A key written with a plain SET never expires. */
  lemma SetNeverExpires(m: Entries, key: string, data: Bytes, dt: nat)
    ensures TtlCmd(SetCmd(m, key, data, false).1, key, false) == Reply(-1)
    ensures key in AdvanceClock(SetCmd(m, key, data, false).1, dt)
  {
  }

  // ---------------------------------------------------------------------
  // The server

  class RedisStore {
    var entries: Entries

    constructor (initial: Entries)
      ensures entries == initial
    {
      entries := initial;
    }

    method Get(key: string, fault: bool) returns (r: Reply<Option<Bytes>>)
      ensures r == GetCmd(entries, key, fault)
      ensures fault <==> r.RedisError?
      ensures r.Reply? && r.value.Some? ==> key in entries && r.value.value == entries[key].data
    {
      r := GetCmd(entries, key, fault);
    }

    method SetEx(key: string, seconds: int, data: Bytes, fault: bool) returns (r: Reply<bool>)
      modifies this
      ensures (r, entries) == SetExCmd(old(entries), key, seconds, data, fault)
    {
      r, entries := SetExCmd(entries, key, seconds, data, fault).0, SetExCmd(entries, key, seconds, data, fault).1;
    }

    method Set(key: string, data: Bytes, fault: bool) returns (r: Reply<bool>)
      modifies this
      ensures (r, entries) == SetCmd(old(entries), key, data, fault)
    {
      r, entries := SetCmd(entries, key, data, fault).0, SetCmd(entries, key, data, fault).1;
    }

    method Delete(keys: seq<string>, fault: bool) returns (r: Reply<nat>)
      modifies this
      ensures (r, entries) == DelCmd(old(entries), keys, fault)
    {
      r, entries := DelCmd(entries, keys, fault).0, DelCmd(entries, keys, fault).1;
    }

    method Exists(key: string, fault: bool) returns (r: Reply<nat>)
      ensures r == ExistsCmd(entries, key, fault)
      ensures r.Reply? ==> (r.value > 0 <==> key in entries)
    {
      r := ExistsCmd(entries, key, fault);
    }

    method Ttl(key: string, fault: bool) returns (r: Reply<int>)
      ensures r == TtlCmd(entries, key, fault)
      ensures r.Reply? ==> (r.value == -2 <==> key !in entries)
    {
      r := TtlCmd(entries, key, fault);
    }

    method Expire(key: string, seconds: int, fault: bool) returns (r: Reply<bool>)
      modifies this
      ensures (r, entries) == ExpireCmd(old(entries), key, seconds, fault)
    {
      r, entries := ExpireCmd(entries, key, seconds, fault).0, ExpireCmd(entries, key, seconds, fault).1;
    }

    method Persist(key: string, fault: bool) returns (r: Reply<bool>)
      modifies this
      ensures (r, entries) == PersistCmd(old(entries), key, fault)
    {
      r, entries := PersistCmd(entries, key, fault).0, PersistCmd(entries, key, fault).1;
    }

    method IncrBy(key: string, amount: int, fault: bool) returns (r: Reply<int>)
      modifies this
      ensures (r, entries) == IncrByCmd(old(entries), key, amount, fault)
    {
      r, entries := IncrByCmd(entries, key, amount, fault).0, IncrByCmd(entries, key, amount, fault).1;
    }

    method DecrBy(key: string, amount: int, fault: bool) returns (r: Reply<int>)
      modifies this
      ensures (r, entries) == DecrByCmd(old(entries), key, amount, fault)
    {
      r, entries := DecrByCmd(entries, key, amount, fault).0, DecrByCmd(entries, key, amount, fault).1;
    }

    /**
     * `scan_iter(match=pattern)`: the SCAN cursor loop, batch after batch.
     * Redis promises that a full iteration returns every matching key, and
     * nothing else, in an order the server chooses and possibly more than
     * once. With `failAfter == Some(n)` the SCAN call that follows the first
     * `n` returned keys (or the last call, when there are fewer) fails: the
     * keys already returned stay returned and the error comes after them.
     */
    method Scan(pattern: string, failAfter: Option<nat>) returns (keys: seq<string>, failed: bool)
      ensures failed <==> failAfter.Some?
      ensures KeySet(keys) <= MatchingKeys(entries, pattern)
      ensures !failed ==> KeySet(keys) == MatchingKeys(entries, pattern)
      ensures failed ==> |keys| <= failAfter.value
    {
      var left := MatchingKeys(entries, pattern);
      var out: seq<string> := [];
      while left != {}
        invariant KeySet(out) + left == MatchingKeys(entries, pattern)
        decreases left
      {
        var k :| k in left;
        out := out + [k];
        left := left - {k};
      }
      if failAfter.Some? {
        var n := if failAfter.value < |out| then failAfter.value else |out|;
        assert forall x | x in out[..n] :: x in out;
        return out[..n], true;
      }
      keys, failed := out, false;
    }

    /** Time passes on the server; keys whose expiry is reached disappear. */
    method Advance(dt: nat)
      modifies this
      ensures entries == AdvanceClock(old(entries), dt)
    {
      entries := AdvanceClock(entries, dt);
    }
  }
}
