/**
 * The request context: a mutable mapping whose data lives in one
 * context variable shared by the whole class. Every mutator builds a new
 * dictionary (a copy with the change) and stores it back, so a dictionary
 * handed out earlier never changes; and since the variable belongs to the
 * class, every `Context` object reads and writes the same data.
 */
module RequestContext {
  import opened Common
  import opened Sentinels

  type Data = map<string, PyValue>

  datatype KeyError = KeyError(key: string)

  datatype ValueError = ValueError(text: string)

  /**
   * The class attribute `Context._context`. Its initial value is never read:
   * the only way to obtain a `Context` is its constructor, which stores a
   * dictionary first.
   */
  class ContextVar {
    var data: Data

    constructor()
      ensures data == map[]
    {
      data := map[];
    }
  }

  /** What `update` accepts: a dictionary, or another `Context`. */
  datatype UpdateSource = FromDict(d: Data) | FromContext(c: Context)

  class Context {
    /** The shared variable: every instance is given the same one. */
    const cell: ContextVar

    /** `Context(init_data)`: the variable is set to a copy of the data, or to `{}`. */
    constructor(cell: ContextVar, init: Option<Data>)
      modifies cell
      ensures this.cell == cell
      ensures cell.data == if init.Some? then init.value else map[]
    {
      this.cell := cell;
      cell.data := if init.Some? then init.value else map[];
    }

    /** `self[key]`. */
    function GetItem(key: string): (r: Result<PyValue, KeyError>)
      reads cell
      ensures r.Ok? <==> key in cell.data
      ensures r.Ok? ==> r.value == cell.data[key]
      ensures r.Err? ==> r.error == KeyError(key)
    {
      if key in cell.data then Ok(cell.data[key]) else Err(KeyError(key))
    }

    /** `self[key] = value`. */
    method SetItem(key: string, value: PyValue)
      modifies cell
      ensures cell.data == old(cell.data)[key := value]
    {
      cell.data := cell.data[key := value];
    }

    /** `del self[key]`: no error when the key is absent. */
    method DelItem(key: string)
      modifies cell
      ensures cell.data == old(cell.data) - {key}
    {
      cell.data := cell.data - {key};
    }

    /** `iter(self)` and `keys()`, as a set: the keys present. */
    function Keys(): (ks: set<string>)
      reads cell
      ensures forall k :: k in ks <==> k in cell.data
    {
      cell.data.Keys
    }

    /** `len(self)`. */
    function Len(): (n: nat)
      reads cell
      ensures n == |Keys()|
    {
      |cell.data|
    }

    /** `key in self`. */
    predicate Contains(key: string)
      reads cell
    {
      key in cell.data
    }

    /** `values()`, as a set. */
    function Values(): (vs: set<PyValue>)
      reads cell
      ensures forall v :: v in vs <==> exists k :: k in cell.data && cell.data[k] == v
    {
      cell.data.Values
    }

    /** `items()`. */
    function Items(): (its: set<(string, PyValue)>)
      reads cell
      ensures forall k, v :: (k, v) in its <==> k in cell.data && cell.data[k] == v
    {
      cell.data.Items
    }

    /** `get(key, default)`. */
    function Get(key: string, default: PyValue): (v: PyValue)
      reads cell
      ensures key in cell.data ==> v == cell.data[key]
      ensures key !in cell.data ==> v == default
    {
      if key in cell.data then cell.data[key] else default
    }

    /** `set(key, value)`: `self[key] = value`, returning the context. */
    method Set(key: string, value: PyValue) returns (self: Context)
      modifies cell
      ensures self == this
      ensures cell.data == old(cell.data)[key := value]
    {
      SetItem(key, value);
      self := this;
    }

    /** `setx(**kwargs)`: every keyword is stored, overriding what was there. */
    method SetX(kwargs: Data) returns (self: Context)
      modifies cell
      ensures self == this
      ensures cell.data == old(cell.data) + kwargs
    {
      cell.data := cell.data + kwargs;
      self := this;
    }

    /** `delete(key)`: removes the key when present. */
    method Delete(key: string) returns (self: Context)
      modifies cell
      ensures self == this
      ensures cell.data == old(cell.data) - {key}
    {
      if Contains(key) {
        DelItem(key);
      }
      self := this;
    }

    /** `clear()`. */
    method Clear() returns (self: Context)
      modifies cell
      ensures self == this
      ensures cell.data == map[]
    {
      cell.data := map[];
      self := this;
    }

    /** `copy()`: a dictionary of its own, which later mutations of the context do not touch. */
    function Copy(): (d: Data)
      reads cell
      ensures forall k :: k in d <==> Contains(k)
      ensures forall k :: k in d ==> d[k] == Get(k, PyNone)
    {
      cell.data
    }

    /** `pop(key, default)`: the value (or the default), and the key is gone. */
    method Pop(key: string, default: PyValue) returns (v: PyValue)
      modifies cell
      ensures v == if key in old(cell.data) then old(cell.data)[key] else default
      ensures cell.data == old(cell.data) - {key}
    {
      v := Get(key, default);
      cell.data := cell.data - {key};
    }

    /**
     * `update(other, **kwargs)` as written: the entries of `other` are stored
     * and the keyword arguments are accepted but dropped. Another `Context`
     * reads the same class variable, so its entries are this one's.
     */
    method Update(other: UpdateSource, kwargs: Data) returns (self: Context)
      requires other.FromContext? ==> other.c.cell == cell
      modifies cell
      ensures self == this
      ensures cell.data == UpdatedAsWritten(old(cell.data), if other.FromDict? then other.d else old(cell.data), kwargs)
    {
      var entries := if other.FromContext? then other.c.Copy() else other.d;
      cell.data := cell.data + entries;
      self := this;
    }

    /** `update` with the keyword arguments applied after `other`, as a mutable mapping's `update` does. */
    method UpdateWithKwargs(other: UpdateSource, kwargs: Data) returns (self: Context)
      requires other.FromContext? ==> other.c.cell == cell
      modifies cell
      ensures self == this
      ensures cell.data == Updated(old(cell.data), if other.FromDict? then other.d else old(cell.data), kwargs)
    {
      var entries := if other.FromContext? then other.c.Copy() else other.d;
      cell.data := cell.data + entries + kwargs;
      self := this;
    }

    /** `get_str(key, default)`: `str` of the value, the default for a missing key or `None`. */
    function GetStr(key: string, default: string, render: PyValue -> string): (s: string)
      reads cell
    {
      var v := Get(key, PyStr(default));
      if v.PyNone? then default else Str(v, render)
    }

    /** `get_int(key, default)`: `int` of a string, bool or int; the default for any other value. */
    function GetInt(key: string, default: int): (r: Result<int, ValueError>)
      reads cell
    {
      var v := Get(key, PyInt(default));
      match v
      case PyStr(s) => (match ParsePyInt(s) case Some(n) => Ok(n) case None => Err(ValueError(s)))
      case PyInt(i) => Ok(i)
      case PyBool(b) => Ok(if b then 1 else 0)
      case _ => Ok(default)
    }

    /** `get_bool(key, default)`: a bool as is, a string by its spelling, anything else by truthiness. */
    predicate GetBool(key: string, default: bool)
      reads cell
    {
      var v := Get(key, PyBool(default));
      match v
      case PyBool(b) => b
      case PyStr(s) => TrueSpelling(Lower(s))
      case _ => Truthy(v)
    }
  }

  /** The data after `update` as written: `other`'s entries override, the keyword arguments are lost. */
  function UpdatedAsWritten(data: Data, other: Data, kwargs: Data): (r: Data)
    ensures forall k :: k in r <==> k in data || k in other
    ensures forall k :: k in other ==> r[k] == other[k]
    ensures forall k :: k in data && k !in other ==> r[k] == data[k]
  {
    data + other
  }

  /** The data after a mutable mapping's `update`: `other`'s entries, then the keyword arguments, override. */
  function Updated(data: Data, other: Data, kwargs: Data): (r: Data)
    ensures forall k :: k in r <==> k in data || k in other || k in kwargs
    ensures forall k :: k in kwargs ==> r[k] == kwargs[k]
    ensures forall k :: k in other && k !in kwargs ==> r[k] == other[k]
    ensures forall k :: k in data && k !in other && k !in kwargs ==> r[k] == data[k]
  {
    data + other + kwargs
  }

  /** The four spellings `get_bool` reads as true, after lower-casing. */
  predicate TrueSpelling(s: string)
  {
    s == "true" || s == "1" || s == "yes" || s == "on"
  }

  /**
   * `str(v)`: strings as they are, integers in decimal, booleans by name,
   * the sentinels by their fixed `__repr__`; lists, dicts and other objects
   * by their `repr`, which is a parameter.
   */
  function Str(v: PyValue, render: PyValue -> string): string
  {
    match v
    case PyNone => "None"
    case PyBool(b) => if b then "True" else "False"
    case PyInt(i) => IntToString(i)
    case PyStr(s) => s
    case PyEmpty => "<EMPTY>"
    case PyPlaceholder => "<PLACEHOLDER>"
    case PyCacheMiss => "<CACHE_MISS>"
    case _ => render(v)
  }

  // ---------------------------------------------------------------------
  // int(str)

  /** Digits in groups separated by single underscores. */
  predicate DigitGroups(b: string)
  {
    b != [] && IsDigit(b[0]) && IsDigit(b[|b| - 1])
    && (forall i :: 0 <= i < |b| ==> IsDigit(b[i]) || b[i] == '_')
    && (forall i :: 0 <= i < |b| - 1 ==> !(b[i] == '_' && b[i + 1] == '_'))
  }

  function WithoutUnderscores(b: string): (d: string)
    ensures |d| <= |b|
  {
    if b == [] then [] else (if b[0] == '_' then [] else [b[0]]) + WithoutUnderscores(b[1..])
  }

  function DecimalValue(d: string): nat
  {
    if d == [] then 0
    else DecimalValue(d[..|d| - 1]) * 10 + if IsDigit(d[|d| - 1]) then d[|d| - 1] as int - '0' as int else 0
  }

  /**
   * `int(s)` in base 10: surrounding whitespace is ignored, one sign is
   * allowed, and underscores may separate digits; anything else is a
   * `ValueError`.
   */
  function ParsePyInt(s: string): Option<int>
  {
    var t := Strip(s);
    if t == [] then None
    else
      var neg := t[0] == '-';
      var body := if t[0] == '-' || t[0] == '+' then t[1..] else t;
      if !DigitGroups(body) then None
      else
        var n: int := DecimalValue(WithoutUnderscores(body));
        Some(if neg then -n else n)
  }

  lemma {:induction false} DecimalValueOfNat(n: nat)
    ensures DecimalValue(NatToString(n)) == n
  {
    if n >= 10 {
      DecimalValueOfNat(n / 10);
      var s := NatToString(n);
      assert s == NatToString(n / 10) + [DigitChar(n % 10)];
      assert s[..|s| - 1] == NatToString(n / 10);
    }
  }

  lemma {:induction false} NoUnderscoresToRemove(b: string)
    requires forall i :: 0 <= i < |b| ==> IsDigit(b[i])
    ensures WithoutUnderscores(b) == b
  {
    if b != [] {
      NoUnderscoresToRemove(b[1..]);
    }
  }

  /** A string that neither starts nor ends with whitespace is its own strip. */
  lemma StripOfTrimmed(s: string)
    requires s != [] && !IsSpace(s[0]) && !IsSpace(s[|s| - 1])
    ensures Strip(s) == s
  {
  }

  /** The decimal form of a natural number is one group of digits, of that value. */
  lemma DigitsParse(n: nat)
    ensures DigitGroups(NatToString(n))
    ensures DecimalValue(WithoutUnderscores(NatToString(n))) == n
  {
    NoUnderscoresToRemove(NatToString(n));
    DecimalValueOfNat(n);
  }

  /** `int(str(i)) == i`: the decimal form of an integer parses back to it. */
  lemma ParseIntToString(i: int)
    ensures ParsePyInt(IntToString(i)) == Some(i)
  {
    var s := IntToString(i);
    var n: nat := if i < 0 then -i else i;
    var digits := NatToString(n);
    DigitsParse(n);
    if i < 0 {
      assert s == "-" + digits;
      assert s[1..] == digits;
      assert s[|s| - 1] == digits[|digits| - 1];
    }
    StripOfTrimmed(s);
  }

  /** A string without a digit is not a number, whatever its signs and spaces. */
  lemma ParseNeedsDigits(s: string)
    requires forall i :: 0 <= i < |s| ==> !IsDigit(s[i])
    ensures ParsePyInt(s).None?
  {
    var t := Strip(s);
    if t != [] {
      var body := if t[0] == '-' || t[0] == '+' then t[1..] else t;
      if body != [] {
        assert body[0] in t;
        assert t == s[|s| - |LStrip(s)|..][..|t|];
      }
    }
  }

  // ---------------------------------------------------------------------
  // What the getters promise

  /** `get_str` gives back a stored string, and the default for a missing key or a stored `None`. */
  lemma GetStrCases(c: Context, key: string, default: string, render: PyValue -> string)
    ensures key !in c.cell.data ==> c.GetStr(key, default, render) == default
    ensures key in c.cell.data && c.cell.data[key].PyNone? ==> c.GetStr(key, default, render) == default
    ensures key in c.cell.data && c.cell.data[key].PyStr? ==> c.GetStr(key, default, render) == c.cell.data[key].s
  {
  }

  /**
   * A stored decimal string or int reads back as its number; a missing key
   * gives the default; a stored string that is not an integer literal raises
   * `ValueError`, as `int(value)` does.
   */
  lemma GetIntCases(c: Context, key: string, default: int, n: int)
    ensures key !in c.cell.data ==> c.GetInt(key, default) == Ok(default)
    ensures key in c.cell.data && c.cell.data[key].PyStr? && ParsePyInt(c.cell.data[key].s).None?
      ==> c.GetInt(key, default) == Err(ValueError(c.cell.data[key].s))
    ensures key in c.cell.data && c.cell.data[key] == PyStr(IntToString(n)) ==> c.GetInt(key, default) == Ok(n)
    ensures key in c.cell.data && c.cell.data[key] == PyInt(n) ==> c.GetInt(key, default) == Ok(n)
    ensures key in c.cell.data && c.cell.data[key] == PyBool(true) ==> c.GetInt(key, default) == Ok(1)
    ensures key in c.cell.data && c.cell.data[key].PyList? ==> c.GetInt(key, default) == Ok(default)
  {
    if key in c.cell.data && c.cell.data[key] == PyStr(IntToString(n)) {
      GetIntOfDecimal(c, key, default, n);
    }
    if key in c.cell.data && c.cell.data[key].PyStr? && ParsePyInt(c.cell.data[key].s).None? {
      GetIntOfNonInteger(c, key, default);
    }
  }

  lemma GetIntOfNonInteger(c: Context, key: string, default: int)
    requires key in c.cell.data && c.cell.data[key].PyStr? && ParsePyInt(c.cell.data[key].s).None?
    ensures c.GetInt(key, default) == Err(ValueError(c.cell.data[key].s))
  {
    assert c.Get(key, PyInt(default)) == c.cell.data[key];
  }

  lemma GetIntOfDecimal(c: Context, key: string, default: int, n: int)
    requires key in c.cell.data && c.cell.data[key] == PyStr(IntToString(n))
    ensures c.GetInt(key, default) == Ok(n)
  {
    ParseIntToString(n);
    assert c.Get(key, PyInt(default)) == PyStr(IntToString(n));
  }

  /** A stored string reads as true exactly for `true`, `1`, `yes` and `on`, in any case. */
  lemma GetBoolOfString(c: Context, key: string, default: bool)
    requires key in c.cell.data && c.cell.data[key].PyStr?
    ensures c.GetBool(key, default) <==> TrueSpelling(Lower(c.cell.data[key].s))
    ensures c.cell.data[key].s == "" ==> !c.GetBool(key, default)
  {
  }

  /** With the key missing, `get_bool` gives the default; a stored non-string is read by truthiness. */
  lemma GetBoolCases(c: Context, key: string, default: bool)
    ensures key !in c.cell.data ==> (c.GetBool(key, default) <==> default)
    ensures key in c.cell.data && !c.cell.data[key].PyStr? ==> (c.GetBool(key, default) <==> Truthy(c.cell.data[key]))
  {
  }

  /** Updating from the context itself changes nothing: both read the same variable. */
  lemma SelfUpdateIsNoChange(data: Data, kwargs: Data)
    ensures UpdatedAsWritten(data, data, kwargs) == data
  {
  }

  /** `ctx.update({}, user="u")` leaves an empty context empty: the keyword never arrives. */
  lemma UpdateAsWrittenDropsKwargs()
    ensures UpdatedAsWritten(map[], map[], map["user" := PyStr("u")]) == map[]
    ensures Updated(map[], map[], map["user" := PyStr("u")]) == map["user" := PyStr("u")]
  {
  }

  /** The corrected `update` agrees with the one as written whenever no keyword is passed. */
  lemma UpdatedWithoutKwargs(data: Data, other: Data)
    ensures Updated(data, other, map[]) == UpdatedAsWritten(data, other, map[])
  {
  }
}
