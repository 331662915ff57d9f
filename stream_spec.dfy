/**
 * The memoising stream as a state machine. `__aiter__` is an async
 * generator: calling it does nothing, and its body starts at the first pull.
 * At that point it either replays the buffer (when an earlier traversal has
 * started) or marks the stream consumed and drives the source, buffering
 * every item before yielding it. `PullOp` is one pull of one generator;
 * `TraverseOp` is the closed form of a consumer that pulls at most `k` items
 * from a new generator and then lets it go.
 */
module StreamSpec {

  import opened Common
  import opened StreamOps

  /** An exception, known only by its identity. */
  datatype Exc = Exc(id: nat)

  /** A finite source: its items, then exhaustion or an exception. */
  datatype Source<V> = Source(items: seq<V>, err: Option<Exc>)

  /** What one `__anext__` does: yield an item, raise, or end the iteration. */
  datatype Event<T> = Yield(item: T) | Raise(exc: Exc) | Stop

  /** One generator object returned by `__aiter__`. */
  datatype Gen = NotStarted | Replaying(pos: nat) | Driving | Finished

  /** `_is_consumed`, `_items`, `_error`, `_completed`, and how far the source iterator has advanced. */
  datatype State<T> = State(isConsumed: bool, items: seq<T>, error: Option<Exc>, completed: bool, srcPos: nat)

  function Fresh<T>(): State<T>
  {
    State(false, [], None, false, 0)
  }

  function Min(a: nat, b: nat): nat
  {
    if a <= b then a else b
  }

  /**
   * What every reachable state satisfies: the buffer is the mapping of the
   * source items pulled so far, nothing happened before the stream was
   * consumed, and a recorded error is the source's, raised at its end.
   */
  ghost predicate Coherent<V, T>(src: Source<V>, f: V -> T, st: State<T>)
  {
    && st.srcPos <= |src.items|
    && st.items == MapSeq(f, src.items[..st.srcPos])
    && (!st.isConsumed ==> st.srcPos == 0 && st.error.None? && !st.completed)
    && (st.error.Some? ==> st.error == src.err && st.srcPos == |src.items|)
  }

  /** The body of the first traversal, one source step: buffer then yield, or record the end. */
  function DriveOp<V, T>(src: Source<V>, f: V -> T, st: State<T>): (Event<T>, Gen, State<T>)
  {
    if st.srcPos < |src.items| then
      var x := f(src.items[st.srcPos]);
      (Yield(x), Driving, st.(items := st.items + [x], srcPos := st.srcPos + 1))
    else if src.err.Some? then
      (Raise(src.err.value), Finished, st.(error := src.err, completed := true))
    else
      (Stop, Finished, st.(completed := true))
  }

  /** One `__anext__` on a generator of `__aiter__`. */
  function PullOp<V, T>(src: Source<V>, f: V -> T, st: State<T>, g: Gen): (Event<T>, Gen, State<T>)
  {
    match g
    case Finished => (Stop, Finished, st)
    case Replaying(p) =>
      if p < |st.items| then (Yield(st.items[p]), Replaying(p + 1), st) else (Stop, Finished, st)
    case NotStarted =>
      if st.isConsumed then
        (if |st.items| > 0 then (Yield(st.items[0]), Replaying(1), st) else (Stop, Finished, st))
      else DriveOp(src, f, st.(isConsumed := true))
    case Driving => DriveOp(src, f, st)
  }

  /** Closing a generator: the `finally` of a traversal that is driving the source runs. */
  function CloseOp<T>(st: State<T>, g: Gen): State<T>
  {
    if g.Driving? then st.(completed := true) else st
  }

  /**
   * A consumer that pulls at most `k` items from a new generator and then
   * drops it: the items it receives, the exception it sees, and the new state.
   */
  function TraverseOp<V, T>(src: Source<V>, f: V -> T, st: State<T>, k: nat): (seq<T>, Option<Exc>, State<T>)
  {
    if k == 0 then ([], None, st)
    else if st.isConsumed then (st.items[..Min(k, |st.items|)], None, st)
    else
      var all := MapSeq(f, src.items);
      if k <= |all| then
        (all[..k], None, st.(isConsumed := true, items := all[..k], srcPos := k, completed := true))
      else
        (all, src.err, st.(isConsumed := true, items := all, srcPos := |all|, completed := true, error := src.err))
  }

  /** A consumer that drains the stream. */
  function DrainOp<V, T>(src: Source<V>, f: V -> T, st: State<T>): (seq<T>, Option<Exc>, State<T>)
  {
    TraverseOp(src, f, st, |src.items| + 1)
  }

  /**
   * A consumer has pulled `pulled` from generator `g`, started in state
   * `st0`, without seeing the end; `st` is the state now.
   */
  ghost predicate Progress<V, T>(src: Source<V>, f: V -> T, st0: State<T>, g: Gen, st: State<T>, pulled: seq<T>)
  {
    && |pulled| <= |src.items|
    && if st0.isConsumed then
         && st == st0 && |pulled| <= |st0.items| && pulled == st0.items[..|pulled|]
         && (g == Replaying(|pulled|) || (g == NotStarted && pulled == []))
       else
         || (g == NotStarted && pulled == [] && st == st0)
         || (&& g == Driving && 0 < |pulled|
             && pulled == MapSeq(f, src.items[..|pulled|])
             && st == st0.(isConsumed := true, items := pulled, srcPos := |pulled|))
  }

  lemma MapSeqSnoc<A, B>(f: A -> B, xs: seq<A>, k: nat)
    requires k < |xs|
    ensures MapSeq(f, xs[..k + 1]) == MapSeq(f, xs[..k]) + [f(xs[k])]
  {
  }

  /** One pull keeps the state coherent. */
  lemma PullKeepsCoherent<V, T>(src: Source<V>, f: V -> T, st: State<T>, g: Gen)
    requires Coherent(src, f, st) && (g.Driving? ==> st.isConsumed)
    ensures var (ev, g', st') := PullOp(src, f, st, g);
      Coherent(src, f, st') && st'.isConsumed == (st.isConsumed || g.NotStarted?)
      && (g'.Driving? ==> st'.isConsumed)
  {
    if g.Driving? || (g.NotStarted? && !st.isConsumed) {
      if st.srcPos < |src.items| {
        MapSeqSnoc(f, src.items, st.srcPos);
      }
    }
  }

  /** Closing keeps the state coherent. */
  lemma CloseKeepsCoherent<V, T>(src: Source<V>, f: V -> T, st: State<T>, g: Gen)
    requires Coherent(src, f, st) && (g.Driving? ==> st.isConsumed)
    ensures Coherent(src, f, CloseOp(st, g))
  {
  }

  /**
   * One more pull either extends the progress by the item yielded, or ends
   * the generator with exactly what a traversal of one more item would give.
   */
  lemma PullStep<V, T>(src: Source<V>, f: V -> T, st0: State<T>, g: Gen, st: State<T>, pulled: seq<T>)
    requires Coherent(src, f, st0) && Progress(src, f, st0, g, st, pulled)
    ensures var (ev, g', st') := PullOp(src, f, st, g);
      && (ev.Yield? ==> Progress(src, f, st0, g', st', pulled + [ev.item]))
      && (!ev.Yield? ==>
            g' == Finished
            && TraverseOp(src, f, st0, |pulled| + 1) == (pulled, if ev.Raise? then Some(ev.exc) else None, st'))
  {
    var n := |pulled|;
    if st0.isConsumed {
      var (ev, g', st') := PullOp(src, f, st, g);
      if ev.Yield? {
        assert st0.items[..n + 1] == st0.items[..n] + [st0.items[n]];
      } else {
        assert n == |st0.items|;
        assert st0.items[..n] == st0.items;
      }
    } else {
      assert st0.srcPos == 0 && st0.items == [];
      if n < |src.items| {
        MapSeqSnoc(f, src.items, n);
        MapSeqPrefix(f, src.items, n + 1);
      } else {
        assert src.items[..n] == src.items;
      }
    }
  }

  /** Letting the generator go after `pulled` leaves exactly what a traversal of that many items leaves. */
  lemma CloseStep<V, T>(src: Source<V>, f: V -> T, st0: State<T>, g: Gen, st: State<T>, pulled: seq<T>)
    requires Coherent(src, f, st0) && Progress(src, f, st0, g, st, pulled)
    ensures TraverseOp(src, f, st0, |pulled|) == (pulled, None, CloseOp(st, g))
  {
    if !st0.isConsumed && g.Driving? {
      MapSeqPrefix(f, src.items, |pulled|);
    }
  }

  /** Once a traversal ends early, allowing more pulls changes nothing. */
  lemma TraverseBeyondEnd<V, T>(src: Source<V>, f: V -> T, st0: State<T>, k: nat, k': nat)
    requires Coherent(src, f, st0)
    requires |TraverseOp(src, f, st0, k).0| < k <= k'
    ensures TraverseOp(src, f, st0, k') == TraverseOp(src, f, st0, k)
  {
  }

  /** A bounded traversal sees a prefix of what a draining one sees, and no exception unless it reaches the end. */
  lemma TraverseIsPrefixOfDrain<V, T>(src: Source<V>, f: V -> T, st0: State<T>, k: nat)
    requires Coherent(src, f, st0)
    ensures var (d, r, _) := TraverseOp(src, f, st0, k);
      var (all, rAll, _) := DrainOp(src, f, st0);
      && d == all[..Min(k, |all|)]
      && (r.Some? ==> k > |all| && r == rAll)
      && (k > |all| ==> r == rAll)
  {
    if st0.isConsumed {
      assert |st0.items| <= |src.items|;
    }
  }

  /** What a consumer has pulled so far is a prefix of what a draining consumer would receive. */
  lemma ProgressIsPrefixOfDrain<V, T>(src: Source<V>, f: V -> T, st0: State<T>, g: Gen, st: State<T>, pulled: seq<T>)
    requires Coherent(src, f, st0) && Progress(src, f, st0, g, st, pulled)
    ensures var all := DrainOp(src, f, st0).0;
      |pulled| <= |all| && pulled == all[..|pulled|]
  {
    CloseStep(src, f, st0, g, st, pulled);
    TraverseIsPrefixOfDrain(src, f, st0, |pulled|);
  }

  /** A consumer that stops right after the first item failing `p`, or drains the stream when none fails. */
  function UntilFailure<V, T>(src: Source<V>, f: V -> T, st: State<T>, p: T -> bool): (seq<T>, Option<Exc>, State<T>)
  {
    TraverseOp(src, f, st, FirstFailure(p, DrainOp(src, f, st).0) + 1)
  }

  /**
   * A consumer that stops at the first item failing `p`, after `pulled`
   * ends with it: that item is where the drain's first failure lies.
   */
  lemma FailureFound<V, T>(src: Source<V>, f: V -> T, st0: State<T>, g: Gen, st: State<T>, pulled: seq<T>, p: T -> bool)
    requires Coherent(src, f, st0) && Progress(src, f, st0, g, st, pulled) && |pulled| > 0
    requires forall j :: 0 <= j < |pulled| - 1 ==> p(pulled[j])
    requires !p(pulled[|pulled| - 1])
    ensures var all := DrainOp(src, f, st0).0;
      && FirstFailure(p, all) == |pulled| - 1 && pulled == all[..|pulled|]
      && UntilFailure(src, f, st0, p) == (pulled, None, CloseOp(st, g))
      && TakeWhileSeq(p, all) == pulled[..|pulled| - 1]
  {
    ProgressIsPrefixOfDrain(src, f, st0, g, st, pulled);
    CloseStep(src, f, st0, g, st, pulled);
    TakeWhileStopsAtFirstFailure(p, DrainOp(src, f, st0).0);
  }

  /** A consumer that reached the end with every item passing `p` has pulled up to the first failure, which is the end. */
  lemma NoFailureFound<V, T>(src: Source<V>, f: V -> T, st0: State<T>, pulled: seq<T>, r: Option<Exc>, st': State<T>, p: T -> bool)
    requires Coherent(src, f, st0) && TraverseOp(src, f, st0, |pulled| + 1) == (pulled, r, st')
    requires forall j :: 0 <= j < |pulled| ==> p(pulled[j])
    ensures var all := DrainOp(src, f, st0).0;
      && all == pulled && FirstFailure(p, all) == |all|
      && UntilFailure(src, f, st0, p) == (pulled, r, st')
      && TakeWhileSeq(p, all) == pulled
  {
    EndIsDrain(src, f, st0, pulled, r, st');
    NoFailure(p, pulled);
    TakeWhileStopsAtFirstFailure(p, pulled);
  }

  /**
   * One round of a consumer that pulls at most `k` items: the pull either
   * extends the progress, or ends the round where a traversal of `k` items
   * ends, because the source is done or the `k`-th item has arrived.
   */
  lemma TakeRound<V, T>(src: Source<V>, f: V -> T, st0: State<T>, g: Gen, st: State<T>, pulled: seq<T>, k: nat)
    requires Coherent(src, f, st0) && Progress(src, f, st0, g, st, pulled) && |pulled| < k
    ensures var (ev, g', st') := PullOp(src, f, st, g);
      && (ev.Yield? ==> Progress(src, f, st0, g', st', pulled + [ev.item]))
      && (ev.Yield? && |pulled| + 1 == k ==> TraverseOp(src, f, st0, k) == (pulled + [ev.item], None, CloseOp(st', g')))
      && (!ev.Yield? ==> TraverseOp(src, f, st0, k) == (pulled, if ev.Raise? then Some(ev.exc) else None, st'))
  {
    PullStep(src, f, st0, g, st, pulled);
    var (ev, g', st') := PullOp(src, f, st, g);
    if !ev.Yield? {
      TraverseBeyondEnd(src, f, st0, |pulled| + 1, k);
    } else if |pulled| + 1 == k {
      CloseStep(src, f, st0, g', st', pulled + [ev.item]);
    }
  }

  /**
   * One round of a consumer that stops at the first item failing `p`: the
   * pull either yields a passing item and extends the progress, or it ends
   * the round where `UntilFailure` ends, holding its longest passing prefix.
   */
  lemma TakeWhileRound<V, T>(src: Source<V>, f: V -> T, st0: State<T>, g: Gen, st: State<T>, pulled: seq<T>, p: T -> bool)
    requires Coherent(src, f, st0) && Progress(src, f, st0, g, st, pulled)
    requires forall j :: 0 <= j < |pulled| ==> p(pulled[j])
    ensures var (ev, g', st') := PullOp(src, f, st, g);
      && (ev.Yield? ==> Progress(src, f, st0, g', st', pulled + [ev.item]))
      && (ev.Yield? && !p(ev.item) ==>
            && UntilFailure(src, f, st0, p) == (pulled + [ev.item], None, CloseOp(st', g'))
            && TakeWhileSeq(p, DrainOp(src, f, st0).0) == pulled
            && FirstFailure(p, DrainOp(src, f, st0).0) < |DrainOp(src, f, st0).0|)
      && (!ev.Yield? ==>
            && UntilFailure(src, f, st0, p) == (pulled, if ev.Raise? then Some(ev.exc) else None, st')
            && TakeWhileSeq(p, DrainOp(src, f, st0).0) == pulled
            && FirstFailure(p, DrainOp(src, f, st0).0) == |DrainOp(src, f, st0).0|)
  {
    PullStep(src, f, st0, g, st, pulled);
    var (ev, g', st') := PullOp(src, f, st, g);
    if !ev.Yield? {
      NoFailureFound(src, f, st0, pulled, if ev.Raise? then Some(ev.exc) else None, st', p);
    } else if !p(ev.item) {
      FailureFound(src, f, st0, g', st', pulled + [ev.item], p);
      assert (pulled + [ev.item])[..|pulled|] == pulled;
    }
  }

  /** A consumer that reached the end after `pulled` has seen everything a drain would. */
  lemma EndIsDrain<V, T>(src: Source<V>, f: V -> T, st0: State<T>, pulled: seq<T>, r: Option<Exc>, st': State<T>)
    requires Coherent(src, f, st0) && TraverseOp(src, f, st0, |pulled| + 1) == (pulled, r, st')
    ensures DrainOp(src, f, st0) == (pulled, r, st')
  {
    TraverseIsPrefixOfDrain(src, f, st0, |pulled| + 1);
    TraverseBeyondEnd(src, f, st0, |pulled| + 1, |src.items| + 1);
  }

  // ---------------------------------------------------------------------
  // What a traversal guarantees

  /**
   * The first traversal delivers the mapped source items in order, each one
   * buffered, so `items_count` equals the number delivered; it re-raises the
   * source's exception only when it reaches the end, and records it; and
   * the stream is consumed and completed however the traversal ended.
   */
  lemma FirstTraversal<V, T>(src: Source<V>, f: V -> T, k: nat)
    requires k > 0
    ensures var (d, r, st') := TraverseOp(src, f, Fresh(), k);
      && d == MapSeq(f, src.items)[..Min(k, |src.items|)]
      && st'.items == d && |st'.items| == |d|
      && r == (if k > |src.items| then src.err else None)
      && st'.error == r
      && st'.isConsumed && st'.completed
  {
  }

  /** Once a traversal has started, every later one replays the buffer and never touches the source. */
  lemma LaterTraversalsReplay<V, T>(src: Source<V>, f: V -> T, st: State<T>, k: nat)
    requires Coherent(src, f, st) && st.isConsumed
    ensures var (d, r, st') := TraverseOp(src, f, st, k);
      d == st.items[..Min(k, |st.items|)] && r.None? && st' == st
  {
  }

  /**
   * A first traversal that stops after `k` of the `n` source items leaves
   * a buffer of `k`: every later traversal sees at most those `k` items.
   */
  lemma EarlyStopTruncatesReplays<V, T>(src: Source<V>, f: V -> T, k: nat, k2: nat)
    requires 0 < k < |src.items|
    ensures var st1 := TraverseOp(src, f, Fresh(), k).2;
      && st1.completed && st1.error.None?
      && TraverseOp(src, f, st1, k2).0 == MapSeq(f, src.items)[..Min(k2, k)]
  {
    var all := MapSeq(f, src.items);
    assert all[..k][..Min(k2, k)] == all[..Min(k2, k)];
  }

  /** The source's exception reaches the first draining consumer only; replays end normally. */
  lemma ErrorRaisedOnce<V, T>(src: Source<V>, f: V -> T, k2: nat)
    requires src.err.Some?
    ensures var (d, r, st1) := DrainOp(src, f, Fresh());
      && r == src.err && st1.error == src.err
      && TraverseOp(src, f, st1, k2).1.None?
      && TraverseOp(src, f, st1, |src.items| + 1).0 == d
  {
  }
}
