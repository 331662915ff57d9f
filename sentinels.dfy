/**
 * The Python values the cache stores and returns, and the three sentinel
 * singletons of the cache package: EMPTY (the result of a failed lookup),
 * PLACEHOLDER, and CACHE_MISS (the negative-cache tombstone).
 */
module Sentinels {

  import opened Common

  /** The Python objects that flow through the cache and the chat glue. */
  datatype PyValue =
    | PyNone
    | PyBool(b: bool)
    | PyInt(i: int)
    | PyStr(s: string)
    | PyList(elems: seq<PyValue>)
    | PyDict(entries: seq<(string, PyValue)>)
    | PyEmpty
    | PyPlaceholder
    | PyCacheMiss
    | PyObject(id: nat)   // any other picklable object, truthy by default

  predicate IsSentinel(v: PyValue)
  {
    v.PyEmpty? || v.PyPlaceholder? || v.PyCacheMiss?
  }

  /** `bool(v)`: each sentinel's `__bool__`, and the usual truthiness of the rest. */
  predicate Truthy(v: PyValue)
  {
    match v
    case PyNone => false
    case PyBool(b) => b
    case PyInt(i) => i != 0
    case PyStr(s) => s != []
    case PyList(xs) => xs != []
    case PyDict(es) => es != []
    case PyEmpty => false
    case PyPlaceholder => true
    case PyCacheMiss => false
    case PyObject(_) => true
  }

  /** The integer a bool or int stands for (`True == 1` in Python). */
  function IntView(v: PyValue): Option<int>
  {
    match v
    case PyBool(b) => Some(if b then 1 else 0)
    case PyInt(i) => Some(i)
    case _ => None
  }

  /**
   * `a == b`. A sentinel's `__eq__` is an isinstance test of its own class, and
   * other classes defer to it (NotImplemented), so a comparison with a sentinel
   * on either side is a class test; numbers compare by value; the rest
   * structurally.
   */
  predicate PyEq(a: PyValue, b: PyValue)
  {
    if IsSentinel(a) || IsSentinel(b) then
      (a.PyEmpty? && b.PyEmpty?) || (a.PyPlaceholder? && b.PyPlaceholder?) || (a.PyCacheMiss? && b.PyCacheMiss?)
    else if IntView(a).Some? && IntView(b).Some? then
      IntView(a).value == IntView(b).value
    else
      a == b
  }

  lemma EmptyIsFalsyAndEqualOnlyToEmpty(v: PyValue)
    ensures !Truthy(PyEmpty)
    ensures PyEq(PyEmpty, v) <==> v.PyEmpty?
    ensures PyEq(v, PyEmpty) <==> v.PyEmpty?
  {
  }

  lemma CacheMissIsFalsyAndNeverEmpty(v: PyValue)
    ensures !Truthy(PyCacheMiss)
    ensures PyEq(PyCacheMiss, v) <==> v.PyCacheMiss?
    ensures !PyEq(PyCacheMiss, PyEmpty) && !PyEq(PyEmpty, PyCacheMiss)
  {
  }

  lemma PlaceholderIsTruthyAndEqualOnlyToPlaceholder(v: PyValue)
    ensures Truthy(PyPlaceholder)
    ensures PyEq(PyPlaceholder, v) <==> v.PyPlaceholder?
  {
  }

  // ---------------------------------------------------------------------
  // Pickling of the sentinels: `__getstate__` gives the empty tuple and
  // `__setstate__` ignores its argument, so unpickling rebuilds an instance
  // of the recorded class.

  datatype SentinelClass = EmptyClass | PlaceholderClass | CacheMissClass

  function ClassOf(v: PyValue): (c: Option<SentinelClass>)
    ensures c.Some? <==> IsSentinel(v)
  {
    match v
    case PyEmpty => Some(EmptyClass)
    case PyPlaceholder => Some(PlaceholderClass)
    case PyCacheMiss => Some(CacheMissClass)
    case _ => None
  }

  /** `__getstate__` of Placeholder and CacheMiss; Empty has no slots, so no state either. */
  function GetState(c: SentinelClass): seq<PyValue>
  {
    []
  }

  /** A fresh instance of `c` after `__setstate__(state)`, which does nothing. */
  function Restore(c: SentinelClass, state: seq<PyValue>): PyValue
  {
    match c
    case EmptyClass => PyEmpty
    case PlaceholderClass => PyPlaceholder
    case CacheMissClass => PyCacheMiss
  }

  /** Reducing a sentinel to (class, state) and rebuilding it gives an equal sentinel. */
  lemma SentinelStateRoundTrip(v: PyValue)
    requires IsSentinel(v)
    ensures GetState(ClassOf(v).value) == []
    ensures Restore(ClassOf(v).value, GetState(ClassOf(v).value)) == v
    ensures PyEq(Restore(ClassOf(v).value, GetState(ClassOf(v).value)), v)
  {
  }
}
