/**
 * What the derived streams of `AsyncStream` deliver, as functions of the
 * items their parent delivers: `filter`, `map`, `take`, `skip`, `chunk`,
 * `take_while`, `enumerate`, and the folds behind `reduce` and `all`.
 */
module StreamOps {

  function MapSeq<A, B>(f: A -> B, xs: seq<A>): (ys: seq<B>)
    ensures |ys| == |xs|
    ensures forall i :: 0 <= i < |xs| ==> ys[i] == f(xs[i])
  {
    if xs == [] then [] else [f(xs[0])] + MapSeq(f, xs[1..])
  }

  /** Mapping a prefix gives the prefix of the mapping. */
  lemma MapSeqPrefix<A, B>(f: A -> B, xs: seq<A>, k: nat)
    requires k <= |xs|
    ensures MapSeq(f, xs[..k]) == MapSeq(f, xs)[..k]
  {
  }

  lemma MapSeqAppend<A, B>(f: A -> B, xs: seq<A>, x: A)
    ensures MapSeq(f, xs + [x]) == MapSeq(f, xs) + [f(x)]
  {
    assert |MapSeq(f, xs + [x])| == |xs| + 1;
    assert (xs + [x])[|xs|] == x;
  }

  /** The mapper of a derived stream: `AsyncStream(source)` with no mapper yields the source's items. */
  function Id<T>(x: T): T
  {
    x
  }

  lemma {:induction false} MapSeqId<T>(xs: seq<T>)
    ensures MapSeq(Id, xs) == xs
  {
    if xs != [] {
      MapSeqId(xs[1..]);
    }
  }

  function FilterSeq<T>(p: T -> bool, xs: seq<T>): (ys: seq<T>)
    ensures |ys| <= |xs|
    ensures forall i :: 0 <= i < |ys| ==> p(ys[i]) && ys[i] in xs
  {
    if xs == [] then []
    else (if p(xs[0]) then [xs[0]] else []) + FilterSeq(p, xs[1..])
  }

  lemma FilterOne<T>(p: T -> bool, x: T)
    ensures FilterSeq(p, [x]) == if p(x) then [x] else []
  {
    assert [x][1..] == [];
  }

  /** Filtering keeps relative order: it distributes over concatenation. */
  lemma {:induction false} FilterAppend<T>(p: T -> bool, xs: seq<T>, ys: seq<T>)
    ensures FilterSeq(p, xs + ys) == FilterSeq(p, xs) + FilterSeq(p, ys)
  {
    if xs != [] {
      assert (xs + ys)[0] == xs[0];
      assert (xs + ys)[1..] == xs[1..] + ys;
      FilterAppend(p, xs[1..], ys);
    } else {
      assert xs + ys == ys;
    }
  }

  /** Every item satisfying the predicate is kept. */
  lemma {:induction false} FilterKeepsSatisfying<T>(p: T -> bool, xs: seq<T>, i: nat)
    requires i < |xs| && p(xs[i])
    ensures xs[i] in FilterSeq(p, xs)
  {
    if i > 0 {
      FilterKeepsSatisfying(p, xs[1..], i - 1);
    }
  }

  /** `int.max(n, 0)`: the count a Python counter compared with `n` effectively uses. */
  function Clamp(n: int, len: nat): (k: nat)
    ensures k <= len
  {
    if n <= 0 then 0 else if n < len then n else len
  }

  /** `take(n)`: the first `n` items (none for `n <= 0`). */
  function TakeSeq<T>(n: int, xs: seq<T>): seq<T>
  {
    xs[..Clamp(n, |xs|)]
  }

  /** `skip(n)`: everything after the first `n` items. */
  function SkipSeq<T>(n: int, xs: seq<T>): seq<T>
  {
    xs[Clamp(n, |xs|)..]
  }

  lemma TakeSkipSplit<T>(n: int, xs: seq<T>)
    ensures TakeSeq(n, xs) + SkipSeq(n, xs) == xs
    ensures |TakeSeq(n, xs)| == if n <= 0 then 0 else if n < |xs| then n else |xs|
  {
    assert xs == xs[..Clamp(n, |xs|)] + xs[Clamp(n, |xs|)..];
  }

  /** `take_while`: the longest prefix whose items all satisfy the predicate. */
  function TakeWhileSeq<T>(p: T -> bool, xs: seq<T>): (ys: seq<T>)
    ensures |ys| <= |xs| && ys == xs[..|ys|]
    ensures forall i :: 0 <= i < |ys| ==> p(ys[i])
    ensures |ys| < |xs| ==> !p(xs[|ys|])
  {
    if xs == [] || !p(xs[0]) then [] else [xs[0]] + TakeWhileSeq(p, xs[1..])
  }

  /** `enumerate(start)`: each item paired with its index counted from `start`. */
  function EnumerateSeq<T>(start: int, xs: seq<T>): (ys: seq<(int, T)>)
    ensures |ys| == |xs|
    decreases |xs|
  {
    if xs == [] then [] else [(start, xs[0])] + EnumerateSeq(start + 1, xs[1..])
  }

  /** Item `i` is paired with `start + i`. */
  lemma {:induction false} EnumeratePairs<T>(start: int, xs: seq<T>)
    ensures forall i :: 0 <= i < |xs| ==> EnumerateSeq(start, xs)[i] == (start + i, xs[i])
    decreases |xs|
  {
    if xs != [] {
      EnumeratePairs(start + 1, xs[1..]);
    }
  }

  lemma EnumerateAppend<T>(start: int, xs: seq<T>, x: T)
    ensures EnumerateSeq(start, xs + [x]) == EnumerateSeq(start, xs) + [(start + |xs|, x)]
  {
    EnumeratePairs(start, xs);
    EnumeratePairs(start, xs + [x]);
    assert (xs + [x])[|xs|] == x;
  }

  // ---------------------------------------------------------------------
  // chunk(size)

  /** A `size` below 1 behaves as 1: the batch is full after every append. */
  function BatchSize(size: int): nat
  {
    if size < 1 then 1 else size
  }

  function ChunkSeq<T>(s: nat, xs: seq<T>): seq<seq<T>>
    requires s >= 1
    decreases |xs|
  {
    if xs == [] then []
    else if |xs| <= s then [xs]
    else [xs[..s]] + ChunkSeq(s, xs[s..])
  }

  function Flatten<T>(xss: seq<seq<T>>): seq<T>
  {
    if xss == [] then [] else xss[0] + Flatten(xss[1..])
  }

  /**
   * Batches are never empty, together they are the input, and every batch
   * but the last holds exactly `s` items.
   */
  lemma {:induction false} ChunkShape<T>(s: nat, xs: seq<T>)
    requires s >= 1
    ensures Flatten(ChunkSeq(s, xs)) == xs
    ensures forall i :: 0 <= i < |ChunkSeq(s, xs)| ==> 0 < |ChunkSeq(s, xs)[i]| <= s
    ensures forall i :: 0 <= i < |ChunkSeq(s, xs)| - 1 ==> |ChunkSeq(s, xs)[i]| == s
    decreases |xs|
  {
    if xs != [] && |xs| > s {
      ChunkShape(s, xs[s..]);
      var rest := ChunkSeq(s, xs[s..]);
      assert ChunkSeq(s, xs) == [xs[..s]] + rest;
      assert Flatten(ChunkSeq(s, xs)) == xs[..s] + Flatten(rest) by {
        assert ([xs[..s]] + rest)[1..] == rest;
      }
      assert xs == xs[..s] + xs[s..];
    } else if xs != [] {
      assert Flatten([xs]) == xs + Flatten([]);
    }
  }

  /** The full batches of the chunking: those yielded inside the loop. */
  function FullChunks<T>(s: nat, xs: seq<T>): seq<seq<T>>
    requires s >= 1
    decreases |xs|
  {
    if |xs| < s then [] else [xs[..s]] + FullChunks(s, xs[s..])
  }

  /** What is left in the batch after the full ones: fewer than `s` items. */
  function Remainder<T>(s: nat, xs: seq<T>): (r: seq<T>)
    requires s >= 1
    ensures |r| < s
    decreases |xs|
  {
    if |xs| < s then xs else Remainder(s, xs[s..])
  }

  /** The chunking is the full batches, then the remainder when it is not empty. */
  lemma {:induction false} ChunkIsFullPlusRemainder<T>(s: nat, xs: seq<T>)
    requires s >= 1
    ensures ChunkSeq(s, xs) == FullChunks(s, xs) + (if Remainder(s, xs) == [] then [] else [Remainder(s, xs)])
    decreases |xs|
  {
    if |xs| < s {
    } else if |xs| == s {
      assert xs[s..] == [] && xs[..s] == xs;
      assert FullChunks(s, xs) == [xs] + FullChunks(s, []);
    } else {
      ChunkIsFullPlusRemainder(s, xs[s..]);
    }
  }

  /** One more item: it joins the remainder, which becomes a full batch when it reaches `s` items. */
  lemma {:induction false} ChunkStep<T>(s: nat, xs: seq<T>, x: T)
    requires s >= 1
    ensures var r := Remainder(s, xs) + [x];
      if |r| == s then FullChunks(s, xs + [x]) == FullChunks(s, xs) + [r] && Remainder(s, xs + [x]) == []
      else FullChunks(s, xs + [x]) == FullChunks(s, xs) && Remainder(s, xs + [x]) == r
    decreases |xs|
  {
    var ys := xs + [x];
    if |xs| < s {
      if |ys| == s {
        assert ys[..s] == ys && ys[s..] == [];
        assert FullChunks(s, ys) == [ys] + FullChunks(s, []);
      }
    } else {
      assert ys[..s] == xs[..s];
      assert ys[s..] == xs[s..] + [x];
      ChunkStep(s, xs[s..], x);
    }
  }

  // ---------------------------------------------------------------------
  // Folds

  /** `reduce`: a left fold from `initial`. */
  function FoldLeft<U, T>(f: (U, T) -> U, a: U, xs: seq<T>): U
  {
    if xs == [] then a else FoldLeft(f, f(a, xs[0]), xs[1..])
  }

  lemma {:induction false} FoldLeftAppend<U, T>(f: (U, T) -> U, a: U, xs: seq<T>, x: T)
    ensures FoldLeft(f, a, xs + [x]) == f(FoldLeft(f, a, xs), x)
  {
    if xs != [] {
      assert (xs + [x])[1..] == xs[1..] + [x];
      FoldLeftAppend(f, f(a, xs[0]), xs[1..], x);
    }
  }

  /** Index of the first item failing the predicate, or |xs|. */
  function FirstFailure<T>(p: T -> bool, xs: seq<T>): (i: nat)
    ensures i <= |xs|
    ensures forall j :: 0 <= j < i ==> p(xs[j])
    ensures i < |xs| ==> !p(xs[i])
  {
    if xs == [] || !p(xs[0]) then 0 else 1 + FirstFailure(p, xs[1..])
  }

  /** No item fails: the first failure is the end. */
  lemma NoFailure<T>(p: T -> bool, xs: seq<T>)
    requires forall j :: 0 <= j < |xs| ==> p(xs[j])
    ensures FirstFailure(p, xs) == |xs|
  {
  }

  /** `take_while` stops exactly where `all` would. */
  lemma {:induction false} TakeWhileStopsAtFirstFailure<T>(p: T -> bool, xs: seq<T>)
    ensures |TakeWhileSeq(p, xs)| == FirstFailure(p, xs)
  {
    if xs != [] && p(xs[0]) {
      TakeWhileStopsAtFirstFailure(p, xs[1..]);
    }
  }
}
