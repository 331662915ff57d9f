/**
 * `AsyncStream`: a memoising wrapper around a one-shot source. The fields
 * are those of the Python object; a generator of `__aiter__` is a `Gen`
 * value the consumer holds, and `Pull` is one `__anext__` on it. Every
 * method is proved against the state machine of `StreamSpec`.
 *
 * A derived stream (`filter`, `map`, ...) runs its generator body against a
 * new traversal of this stream to completion and is built over what that
 * body yields and the exception it ends with.
 */
module Stream {

  import opened Common
  import opened StreamOps
  import opened StreamSpec

  function RaisedBy<T>(ev: Event<T>): Option<Exc>
  {
    if ev.Raise? then Some(ev.exc) else None
  }

  class AsyncStream<V, T> {
    const source: Source<V>
    const mapper: V -> T
    var isConsumed: bool
    var items: seq<T>
    var error: Option<Exc>
    var completed: bool
    /** How far the source iterator has been advanced. */
    var srcPos: nat
    /** `_iterator`, created by the first `__anext__`. */
    var cursor: Option<Gen>

    function St(): State<T>
      reads this
    {
      State(isConsumed, items, error, completed, srcPos)
    }

    ghost predicate Valid()
      reads this
    {
      && Coherent(source, mapper, St())
      && (cursor == Some(Driving) ==> isConsumed)
    }

    constructor (src: Source<V>, f: V -> T)
      ensures source == src && mapper == f
      ensures St() == Fresh() && cursor.None? && Valid()
    {
      source := src;
      mapper := f;
      isConsumed := false;
      items := [];
      error := None;
      completed := false;
      srcPos := 0;
      cursor := None;
    }

    /** `is_completed`: only a started stream is ever completed. */
    function IsCompleted(): (c: bool)
      reads this
      ensures Valid() && c ==> isConsumed
    {
      completed
    }

    /** `error`: only the source's own exception, recorded once the source is exhausted. */
    function Error(): (e: Option<Exc>)
      reads this
      ensures Valid() && e.Some? ==> e == source.err && isConsumed && srcPos == |source.items|
    {
      error
    }

    /** `items_count`: the number of source items pulled so far. */
    function ItemsCount(): (n: nat)
      reads this
      ensures Valid() ==> n == srcPos && n <= |source.items|
    {
      |items|
    }

    /** The body of the first traversal, one step: advance the source, buffer and yield, or record how it ended. */
    method Drive() returns (ev: Event<T>, g': Gen)
      modifies this
      ensures (ev, g', St()) == DriveOp(source, mapper, old(St()))
      ensures cursor == old(cursor)
    {
      if srcPos < |source.items| {
        var x := mapper(source.items[srcPos]);
        items := items + [x];
        srcPos := srcPos + 1;
        ev, g' := Yield(x), Driving;
      } else if source.err.Some? {
        error := source.err;
        completed := true;
        ev, g' := Raise(source.err.value), Finished;
      } else {
        completed := true;
        ev, g' := Stop, Finished;
      }
    }

    /** One `__anext__` on generator `g` of `__aiter__`. */
    method Pull(g: Gen) returns (ev: Event<T>, g': Gen)
      modifies this
      requires Valid() && (g.Driving? ==> isConsumed)
      ensures (ev, g', St()) == PullOp(source, mapper, old(St()), g)
      ensures Valid() && cursor == old(cursor)
      ensures isConsumed == (old(isConsumed) || g.NotStarted?)
      ensures g'.Driving? ==> isConsumed
    {
      PullKeepsCoherent(source, mapper, St(), g);
      match g
      case Finished =>
        ev, g' := Stop, Finished;
      case Replaying(p) =>
        if p < |items| {
          ev, g' := Yield(items[p]), Replaying(p + 1);
        } else {
          ev, g' := Stop, Finished;
        }
      case NotStarted =>
        if isConsumed {
          if |items| > 0 {
            ev, g' := Yield(items[0]), Replaying(1);
          } else {
            ev, g' := Stop, Finished;
          }
        } else {
          isConsumed := true;
          ev, g' := Drive();
        }
      case Driving =>
        ev, g' := Drive();
    }

    /** Dropping generator `g`: the `finally` of a traversal still driving the source runs. */
    method Close(g: Gen)
      modifies this
      requires Valid() && (g.Driving? ==> isConsumed)
      ensures St() == CloseOp(old(St()), g)
      ensures Valid() && cursor == old(cursor)
    {
      CloseKeepsCoherent(source, mapper, St(), g);
      if g.Driving? {
        completed := true;
      }
    }

    /** `__anext__` on the stream itself: one pull of the generator it keeps in `_iterator`. */
    method Next() returns (ev: Event<T>)
      modifies this
      requires Valid()
      ensures var g := if old(cursor).Some? then old(cursor).value else NotStarted;
        var (ev', g', st') := PullOp(source, mapper, old(St()), g);
        ev == ev' && cursor == Some(g') && St() == st'
      ensures Valid()
    {
      var g := if cursor.Some? then cursor.value else NotStarted;
      var g';
      ev, g' := Pull(g);
      cursor := Some(g');
    }

    /** `async for item in stream`, by a consumer that takes at most `k` items and then lets the generator go. */
    method Traverse(k: nat) returns (delivered: seq<T>, raised: Option<Exc>)
      modifies this
      requires Valid()
      ensures (delivered, raised, St()) == TraverseOp(source, mapper, old(St()), k)
      ensures Valid() && cursor == old(cursor)
    {
      ghost var st0 := St();
      var g := NotStarted;
      delivered, raised := [], None;
      while |delivered| < k
        invariant Valid() && cursor == old(cursor)
        invariant Progress(source, mapper, st0, g, St(), delivered) && |delivered| <= k
        decreases k - |delivered|
      {
        PullStep(source, mapper, st0, g, St(), delivered);
        var ev, g' := Pull(g);
        if !ev.Yield? {
          raised := RaisedBy(ev);
          TraverseBeyondEnd(source, mapper, st0, |delivered| + 1, k);
          return;
        }
        delivered, g := delivered + [ev.item], g';
      }
      CloseStep(source, mapper, st0, g, St(), delivered);
      Close(g);
    }

    // -------------------------------------------------------------------
    // Derived streams

    /** `filter(predicate)`. */
    method Filter(p: T -> bool) returns (child: AsyncStream<T, T>)
      modifies this
      requires Valid()
      ensures var (d, r, st') := DrainOp(source, mapper, old(St()));
        St() == st' && child.source == Source(FilterSeq(p, d), r)
      ensures fresh(child) && child.mapper == Id && child.St() == Fresh() && child.Valid()
      ensures Valid() && cursor == old(cursor)
    {
      var out, raised := FilterLoop(p);
      child := new AsyncStream<T, T>(Source(out, raised), Id);
    }

    /** The loop of `filter_source`: drains this stream, keeping the items that pass. */
    method FilterLoop(p: T -> bool) returns (out: seq<T>, raised: Option<Exc>)
      modifies this
      requires Valid()
      ensures var (d, r, st') := DrainOp(source, mapper, old(St()));
        St() == st' && out == FilterSeq(p, d) && raised == r
      ensures Valid() && cursor == old(cursor)
    {
      ghost var st0 := St();
      ghost var pulled: seq<T> := [];
      var g := NotStarted;
      out := [];
      while true
        invariant Valid() && cursor == old(cursor)
        invariant Progress(source, mapper, st0, g, St(), pulled)
        invariant out == FilterSeq(p, pulled)
        decreases |source.items| - |pulled|
      {
        PullStep(source, mapper, st0, g, St(), pulled);
        var ev, g' := Pull(g);
        if !ev.Yield? {
          raised := RaisedBy(ev);
          TraverseBeyondEnd(source, mapper, st0, |pulled| + 1, |source.items| + 1);
          return;
        }
        var item := ev.item;
        FilterAppend(p, pulled, [item]);
        FilterOne(p, item);
        out := out + (if p(item) then [item] else []);
        pulled, g := pulled + [item], g';
      }
    }

    /** `tap(action)`: `calls` are the arguments `action` is called with, in order. */
    method Tap(action: T -> ()) returns (child: AsyncStream<T, T>, calls: seq<T>)
      modifies this
      requires Valid()
      ensures var (d, r, st') := DrainOp(source, mapper, old(St()));
        St() == st' && calls == d && child.source == Source(d, r)
      ensures fresh(child) && child.mapper == Id && child.St() == Fresh() && child.Valid()
      ensures Valid() && cursor == old(cursor)
    {
      ghost var st0 := St();
      var g := NotStarted;
      var out: seq<T> := [];
      var raised: Option<Exc>;
      calls := [];
      while true
        invariant Valid() && cursor == old(cursor)
        invariant Progress(source, mapper, st0, g, St(), out)
        invariant calls == out
        decreases |source.items| - |out|
      {
        PullStep(source, mapper, st0, g, St(), out);
        var ev, g' := Pull(g);
        if !ev.Yield? {
          raised := RaisedBy(ev);
          TraverseBeyondEnd(source, mapper, st0, |out| + 1, |source.items| + 1);
          break;
        }
        var item := ev.item;
        var _ := action(item);
        calls := calls + [item];
        out, g := out + [item], g';
      }
      child := new AsyncStream<T, T>(Source(out, raised), Id);
    }

    /** `map(mapper)`. */
    method Map<U>(h: T -> U) returns (child: AsyncStream<U, U>)
      modifies this
      requires Valid()
      ensures var (d, r, st') := DrainOp(source, mapper, old(St()));
        St() == st' && child.source == Source(MapSeq(h, d), r)
      ensures fresh(child) && child.mapper == Id && child.St() == Fresh() && child.Valid()
      ensures Valid() && cursor == old(cursor)
    {
      ghost var st0 := St();
      ghost var pulled: seq<T> := [];
      var g := NotStarted;
      var out: seq<U> := [];
      var raised: Option<Exc>;
      while true
        invariant Valid() && cursor == old(cursor)
        invariant Progress(source, mapper, st0, g, St(), pulled)
        invariant out == MapSeq(h, pulled)
        decreases |source.items| - |pulled|
      {
        PullStep(source, mapper, st0, g, St(), pulled);
        var ev, g' := Pull(g);
        if !ev.Yield? {
          raised := RaisedBy(ev);
          TraverseBeyondEnd(source, mapper, st0, |pulled| + 1, |source.items| + 1);
          break;
        }
        var item := ev.item;
        MapSeqAppend(h, pulled, item);
        out := out + [h(item)];
        pulled, g := pulled + [item], g';
      }
      child := new AsyncStream<U, U>(Source(out, raised), Id);
    }

    /**
     * `take(n)`: the loop pulls an item before it compares the count, so it
     * asks this stream for up to `max(n, 0) + 1` items.
     */
    method Take(n: int) returns (child: AsyncStream<T, T>)
      modifies this
      requires Valid()
      ensures var (d, r, st') := TraverseOp(source, mapper, old(St()), TakeDemand(n));
        St() == st' && child.source == Source(TakeSeq(n, d), r)
      ensures fresh(child) && child.mapper == Id && child.St() == Fresh() && child.Valid()
      ensures Valid() && cursor == old(cursor)
    {
      var out, raised := TakeLoop(n);
      child := new AsyncStream<T, T>(Source(out, raised), Id);
    }

    /** The loop of `take_source`: counts the items it keeps and lets the generator go at the first one too many. */
    method TakeLoop(n: int) returns (out: seq<T>, raised: Option<Exc>)
      modifies this
      requires Valid()
      ensures var (d, r, st') := TraverseOp(source, mapper, old(St()), TakeDemand(n));
        St() == st' && out == TakeSeq(n, d) && raised == r
      ensures Valid() && cursor == old(cursor)
    {
      ghost var st0 := St();
      var g := NotStarted;
      out := [];
      raised := None;
      var count: int := 0;
      while true
        invariant Valid() && cursor == old(cursor)
        invariant Progress(source, mapper, st0, g, St(), out)
        invariant count == |out| && |out| < TakeDemand(n)
        decreases |source.items| - |out|
      {
        TakeRound(source, mapper, st0, g, St(), out, TakeDemand(n));
        var ev, g' := Pull(g);
        if !ev.Yield? {
          raised := RaisedBy(ev);
          assert TakeSeq(n, out) == out;
          return;
        }
        var item := ev.item;
        g := g';
        if count >= n {
          Close(g);
          assert (out + [item])[..|out|] == out;
          return;
        }
        out := out + [item];
        count := count + 1;
      }
    }

    /** `skip(n)`. */
    method Skip(n: int) returns (child: AsyncStream<T, T>)
      modifies this
      requires Valid()
      ensures var (d, r, st') := DrainOp(source, mapper, old(St()));
        St() == st' && child.source == Source(SkipSeq(n, d), r)
      ensures fresh(child) && child.mapper == Id && child.St() == Fresh() && child.Valid()
      ensures Valid() && cursor == old(cursor)
    {
      ghost var st0 := St();
      ghost var pulled: seq<T> := [];
      var g := NotStarted;
      var out: seq<T> := [];
      var raised: Option<Exc>;
      var count: int := 0;
      while true
        invariant Valid() && cursor == old(cursor)
        invariant Progress(source, mapper, st0, g, St(), pulled)
        invariant count == Clamp(n, |pulled|) && out == SkipSeq(n, pulled)
        decreases |source.items| - |pulled|
      {
        PullStep(source, mapper, st0, g, St(), pulled);
        var ev, g' := Pull(g);
        if !ev.Yield? {
          raised := RaisedBy(ev);
          TraverseBeyondEnd(source, mapper, st0, |pulled| + 1, |source.items| + 1);
          break;
        }
        var item := ev.item;
        g := g';
        if count < n {
          count := count + 1;
          pulled := pulled + [item];
          continue;
        }
        assert (pulled + [item])[count..] == pulled[count..] + [item];
        out := out + [item];
        pulled := pulled + [item];
      }
      child := new AsyncStream<T, T>(Source(out, raised), Id);
    }

    /**
     * `chunk(size)`: batches of `size` items (of one item when `size < 1`);
     * a partial last batch is yielded only when this stream ends normally.
     */
    method Chunk(size: int) returns (child: AsyncStream<seq<T>, seq<T>>)
      modifies this
      requires Valid()
      ensures var (d, r, st') := DrainOp(source, mapper, old(St()));
        var s := BatchSize(size);
        St() == st' && child.source == Source(if r.Some? then FullChunks(s, d) else ChunkSeq(s, d), r)
      ensures fresh(child) && child.mapper == Id && child.St() == Fresh() && child.Valid()
      ensures Valid() && cursor == old(cursor)
    {
      ghost var st0 := St();
      ghost var pulled: seq<T> := [];
      ghost var s := BatchSize(size);
      var g := NotStarted;
      var out: seq<seq<T>> := [];
      var batch: seq<T> := [];
      var raised: Option<Exc>;
      while true
        invariant Valid() && cursor == old(cursor)
        invariant Progress(source, mapper, st0, g, St(), pulled)
        invariant batch == Remainder(s, pulled) && out == FullChunks(s, pulled)
        decreases |source.items| - |pulled|
      {
        PullStep(source, mapper, st0, g, St(), pulled);
        var ev, g' := Pull(g);
        if !ev.Yield? {
          raised := RaisedBy(ev);
          TraverseBeyondEnd(source, mapper, st0, |pulled| + 1, |source.items| + 1);
          break;
        }
        var item := ev.item;
        ChunkStep(s, pulled, item);
        batch := batch + [item];
        if |batch| >= size {
          out := out + [batch];
          batch := [];
        }
        pulled, g := pulled + [item], g';
      }
      if raised.None? {
        ChunkIsFullPlusRemainder(s, pulled);
        if batch != [] {
          out := out + [batch];
        }
      }
      child := new AsyncStream<seq<T>, seq<T>>(Source(out, raised), Id);
    }

    /** `take_while(predicate)`: stops this stream's traversal at the first item that fails. */
    method TakeWhile(p: T -> bool) returns (child: AsyncStream<T, T>)
      modifies this
      requires Valid()
      ensures var (_, r, st') := UntilFailure(source, mapper, old(St()), p);
        St() == st' && child.source == Source(TakeWhileSeq(p, DrainOp(source, mapper, old(St())).0), r)
      ensures fresh(child) && child.mapper == Id && child.St() == Fresh() && child.Valid()
      ensures Valid() && cursor == old(cursor)
    {
      var out, raised := TakeWhileLoop(p);
      child := new AsyncStream<T, T>(Source(out, raised), Id);
    }

    /** The loop of `take_while_source`: keeps items while they pass and lets the generator go at the first that fails. */
    method TakeWhileLoop(p: T -> bool) returns (out: seq<T>, raised: Option<Exc>)
      modifies this
      requires Valid()
      ensures var (_, r, st') := UntilFailure(source, mapper, old(St()), p);
        St() == st' && out == TakeWhileSeq(p, DrainOp(source, mapper, old(St())).0) && raised == r
      ensures Valid() && cursor == old(cursor)
    {
      ghost var st0 := St();
      var g := NotStarted;
      out := [];
      raised := None;
      var done := false;
      while !done
        invariant Valid() && cursor == old(cursor)
        invariant !done ==> Progress(source, mapper, st0, g, St(), out) && forall j :: 0 <= j < |out| ==> p(out[j])
        invariant done ==> var (_, r, st') := UntilFailure(source, mapper, st0, p);
          St() == st' && out == TakeWhileSeq(p, DrainOp(source, mapper, st0).0) && raised == r
        decreases if done then 0 else |source.items| + 1 - |out|
      {
        done, g, out, raised := TakeWhileStep(p, st0, g, out);
      }
    }

    /** One round of that loop: pull, then keep the item, or stop at the end or at the first item that fails. */
    method TakeWhileStep(p: T -> bool, ghost st0: State<T>, g: Gen, out: seq<T>)
      returns (done: bool, g': Gen, out': seq<T>, raised: Option<Exc>)
      modifies this
      requires Valid() && Coherent(source, mapper, st0)
      requires Progress(source, mapper, st0, g, St(), out)
      requires forall j :: 0 <= j < |out| ==> p(out[j])
      ensures Valid() && cursor == old(cursor)
      ensures !done ==> && Progress(source, mapper, st0, g', St(), out') && |out'| == |out| + 1
                        && forall j :: 0 <= j < |out'| ==> p(out'[j])
      ensures done ==> var (_, r, st') := UntilFailure(source, mapper, st0, p);
        St() == st' && out' == TakeWhileSeq(p, DrainOp(source, mapper, st0).0) && raised == r
    {
      TakeWhileRound(source, mapper, st0, g, St(), out, p);
      var ev;
      ev, g' := Pull(g);
      out' := out;
      raised := None;
      if !ev.Yield? {
        raised := RaisedBy(ev);
        return true, g', out', raised;
      }
      var item := ev.item;
      if !p(item) {
        Close(g');
        return true, g', out', raised;
      }
      out' := out + [item];
      done := false;
    }

    /** `enumerate(start)`. */
    method Enumerate(start: int) returns (child: AsyncStream<(int, T), (int, T)>)
      modifies this
      requires Valid()
      ensures var (d, r, st') := DrainOp(source, mapper, old(St()));
        St() == st' && child.source == Source(EnumerateSeq(start, d), r)
      ensures fresh(child) && child.mapper == Id && child.St() == Fresh() && child.Valid()
      ensures Valid() && cursor == old(cursor)
    {
      ghost var st0 := St();
      ghost var pulled: seq<T> := [];
      var g := NotStarted;
      var out: seq<(int, T)> := [];
      var raised: Option<Exc>;
      var index := start;
      while true
        invariant Valid() && cursor == old(cursor)
        invariant Progress(source, mapper, st0, g, St(), pulled)
        invariant index == start + |pulled| && out == EnumerateSeq(start, pulled)
        decreases |source.items| - |pulled|
      {
        PullStep(source, mapper, st0, g, St(), pulled);
        var ev, g' := Pull(g);
        if !ev.Yield? {
          raised := RaisedBy(ev);
          TraverseBeyondEnd(source, mapper, st0, |pulled| + 1, |source.items| + 1);
          break;
        }
        var item := ev.item;
        EnumerateAppend(start, pulled, item);
        out := out + [(index, item)];
        index := index + 1;
        pulled, g := pulled + [item], g';
      }
      child := new AsyncStream<(int, T), (int, T)>(Source(out, raised), Id);
    }

    // -------------------------------------------------------------------
    // Terminal operations

    /** `foreach(action)`: `calls` are the arguments `action` is awaited with, in order. */
    method Foreach(action: T -> ()) returns (calls: seq<T>, raised: Option<Exc>)
      modifies this
      requires Valid()
      ensures (calls, raised, St()) == DrainOp(source, mapper, old(St()))
      ensures Valid() && cursor == old(cursor)
    {
      ghost var st0 := St();
      var g := NotStarted;
      calls := [];
      while true
        invariant Valid() && cursor == old(cursor)
        invariant Progress(source, mapper, st0, g, St(), calls)
        decreases |source.items| - |calls|
      {
        PullStep(source, mapper, st0, g, St(), calls);
        var ev, g' := Pull(g);
        if !ev.Yield? {
          raised := RaisedBy(ev);
          TraverseBeyondEnd(source, mapper, st0, |calls| + 1, |source.items| + 1);
          return;
        }
        var _ := action(ev.item);
        calls, g := calls + [ev.item], g';
      }
    }

    /** `reduce(func, initial)`: the left fold over what is delivered; `result` is the accumulator when an exception escapes. */
    method Reduce<U>(func: (U, T) -> U, initial: U) returns (result: U, raised: Option<Exc>)
      modifies this
      requires Valid()
      ensures var (d, r, st') := DrainOp(source, mapper, old(St()));
        St() == st' && raised == r && result == FoldLeft(func, initial, d)
      ensures Valid() && cursor == old(cursor)
    {
      ghost var st0 := St();
      ghost var pulled: seq<T> := [];
      var g := NotStarted;
      result := initial;
      while true
        invariant Valid() && cursor == old(cursor)
        invariant Progress(source, mapper, st0, g, St(), pulled)
        invariant result == FoldLeft(func, initial, pulled)
        decreases |source.items| - |pulled|
      {
        PullStep(source, mapper, st0, g, St(), pulled);
        var ev, g' := Pull(g);
        if !ev.Yield? {
          raised := RaisedBy(ev);
          TraverseBeyondEnd(source, mapper, st0, |pulled| + 1, |source.items| + 1);
          return;
        }
        FoldLeftAppend(func, initial, pulled, ev.item);
        result := func(result, ev.item);
        pulled, g := pulled + [ev.item], g';
      }
    }

    /** `all(predicate)`: False at the first failing item, which ends the traversal there. */
    method All(p: T -> bool) returns (b: bool, raised: Option<Exc>)
      modifies this
      requires Valid()
      ensures var all := DrainOp(source, mapper, old(St())).0;
        var (_, r, st') := UntilFailure(source, mapper, old(St()), p);
        St() == st' && raised == r && b == (FirstFailure(p, all) == |all|)
      ensures Valid() && cursor == old(cursor)
    {
      ghost var st0 := St();
      ghost var pulled: seq<T> := [];
      var g := NotStarted;
      while true
        invariant Valid() && cursor == old(cursor)
        invariant Progress(source, mapper, st0, g, St(), pulled)
        invariant forall j :: 0 <= j < |pulled| ==> p(pulled[j])
        decreases |source.items| - |pulled|
      {
        TakeWhileRound(source, mapper, st0, g, St(), pulled, p);
        var ev, g' := Pull(g);
        if !ev.Yield? {
          raised := RaisedBy(ev);
          return true, raised;
        }
        g := g';
        if !p(ev.item) {
          Close(g);
          return false, None;
        }
        pulled := pulled + [ev.item];
      }
    }
  }

  /** How many items `take(n)` asks for: one more than it keeps. */
  function TakeDemand(n: int): nat
  {
    if n <= 0 then 1 else n + 1
  }
}
