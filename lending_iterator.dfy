/**
  The `LendingIterator` trait's provided operations: the `Take` adapter, the
  adapter constructors, and the consuming `fold` and `for_each`.
 */
module LendingIterator {
  import opened Options
  import opened Scripts
  import TakeWhileAdapter
  import MapAdapter
  import InspectAdapter
  import EnumerateAdapter
  import FromAdapters
  import IntoAdapters
  import Lines
  import ToOwnedAdapters

  function Min(a: nat, b: nat): nat
  {
    if a <= b then a else b
  }

  /** The script a `Take` with `n` calls remaining produces over an inner script `s`. */
  function TakeScript<T>(n: nat, s: seq<Option<T>>): seq<Option<T>>
  {
    s[..Min(n, |s|)]
  }

  class Take<T> {
    const iter: Source<T>
    var remaining: nat

    /** `take(n)`. */
    constructor (inner: Source<T>, n: nat)
      ensures iter == inner && remaining == n
    {
      iter := inner;
      remaining := n;
    }

    /** The script this adapter will still produce. */
    ghost function Rest(): seq<Option<T>>
      reads this, iter
    {
      TakeScript(remaining, iter.pending)
    }

    method Next() returns (r: Option<T>)
      modifies this, iter
      // while calls remain: one fewer, and whatever the inner iterator returns, end signal included
      ensures old(remaining) > 0 ==>
                && remaining == old(remaining) - 1
                && r == Head(old(iter.pending)) && iter.pending == Tail(old(iter.pending))
      // afterwards: the end signal, and the inner iterator is left alone
      ensures old(remaining) == 0 ==> r == None && remaining == 0 && iter.pending == old(iter.pending)
      ensures r == Head(old(Rest())) && Rest() == Tail(old(Rest()))
    {
      if remaining > 0 {
        remaining := remaining - 1;
        r := iter.Next();
      } else {
        r := None;
      }
    }
  }

  /** `take(n)` yields the first `min(n, k)` of the `k` items the inner iterator yields, in order. */
  lemma {:induction false} TakeItems<T>(n: nat, s: seq<Option<T>>)
    ensures Items(TakeScript(n, s)) == Items(s)[..Min(n, |Items(s)|)]
  {
    if n > 0 && s != [] && s[0].Some? {
      assert TakeScript(n, s)[1..] == TakeScript(n - 1, s[1..]);
      TakeItems(n - 1, s[1..]);
    }
  }

  /** Whatever the inner iterator does, `take(n)` yields at most `n` items in all. */
  lemma {:induction false} TakeAtMost<T>(n: nat, s: seq<Option<T>>)
    ensures |Values(TakeScript(n, s))| <= n
  {
    if n > 0 && s != [] {
      assert TakeScript(n, s)[1..] == TakeScript(n - 1, s[1..]);
      TakeAtMost(n - 1, s[1..]);
    }
  }

  /** Over a finite sequence, `take(n)` yields its first `min(n, |xs|)` elements. */
  lemma TakeOfSequence<T>(n: nat, xs: seq<T>)
    ensures Items(TakeScript(n, Lift(xs))) == xs[..Min(n, |xs|)]
  {
    ItemsLift(xs);
    TakeItems(n, Lift(xs));
  }

  /** `take_while(p)`: not ended yet. */
  method TakeWhile<T>(it: Source<T>, p: T -> bool) returns (r: TakeWhileAdapter.TakeWhile<T>)
    ensures fresh(r) && r.iter == it && r.pred == p && !r.ended
  {
    r := new TakeWhileAdapter.TakeWhile(it, p);
  }

  /** `inspect(f)`. */
  method Inspect<T, E>(it: Source<T>, f: (E, T) -> E, env: E) returns (r: InspectAdapter.Inspect<T, E>)
    ensures fresh(r) && r.Valid() && r.iter == it && r.f == f && r.env == env && r.calls == []
  {
    r := new InspectAdapter.Inspect(it, f, env);
  }

  /** `map(f)`. */
  method Map<T, U>(it: Source<T>, f: T -> U) returns (r: MapAdapter.Map<T, U>)
    ensures fresh(r) && r.iter == it && r.f == f && r.calls == []
  {
    r := new MapAdapter.Map(it, f);
  }

  /** `enumerate()`: delegates to `Enumerate::new`. */
  method Enumerate<T>(it: Source<T>) returns (r: EnumerateAdapter.Enumerate<T>)
    ensures fresh(r) && r.iter == it && r.count == 0
  {
    r := new EnumerateAdapter.Enumerate(it);
  }

  /** `into_iter()`: the lending iterator, wrapped as it is. */
  method IntoIter<T>(it: FromAdapters.FromIterator<T>) returns (r: IntoAdapters.IntoIter<T>)
    ensures fresh(r) && r.iter == it && r.IntoInner() == it
  {
    r := new IntoAdapters.IntoIter(it);
  }

  /** `to_owned()`: the lending iterator, wrapped as it is. */
  method ToOwned<T>(it: Lines.BufferLender<T>) returns (r: ToOwnedAdapters.ToOwnedItemIterator<T>)
    ensures fresh(r) && r.iter == it
  {
    r := new ToOwnedAdapters.ToOwnedItemIterator(it);
  }

  /** `fold(init, f)`: calls `next` until the first end signal, folding every item into the accumulator. */
  method Fold<T, B>(it: Source<T>, init: B, f: (B, T) -> B) returns (accum: B)
    modifies it
    ensures accum == FoldLeft(f, init, Items(old(it.pending)))
    ensures it.pending == AfterEnd(old(it.pending))
  {
    ghost var goal := FoldLeft(f, init, Items(old(it.pending)));
    accum := init;
    FoldStep(f, accum, it.pending);
    var x := it.Next();
    while x.Some?
      invariant x.Some? ==> FoldLeft(f, f(accum, x.value), Items(it.pending)) == goal
      invariant x.Some? ==> AfterEnd(it.pending) == AfterEnd(old(it.pending))
      invariant x.None? ==> accum == goal && it.pending == AfterEnd(old(it.pending))
      decreases |it.pending| + if x.Some? then 1 else 0
    {
      accum := f(accum, x.value);
      FoldStep(f, accum, it.pending);
      x := it.Next();
    }
  }

  /** One call of the `fold` loop. */
  lemma FoldStep<T, B>(f: (B, T) -> B, accum: B, s: seq<Option<T>>)
    ensures Head(s).Some? ==> FoldLeft(f, accum, Items(s)) == FoldLeft(f, f(accum, Head(s).value), Items(Tail(s)))
    ensures Head(s).Some? ==> AfterEnd(s) == AfterEnd(Tail(s))
    ensures Head(s).None? ==> FoldLeft(f, accum, Items(s)) == accum && AfterEnd(s) == Tail(s)
  {
    if s != [] && s[0].Some? {
      assert Items(s)[1..] == Items(s[1..]);
    }
  }

  /**
    `for_each(f)`: `fold` with an empty accumulator. The callback is an
    `FnMut`, given by its effect on the state it captures; that state is
    threaded through the calls exactly as `fold` threads its accumulator.
   */
  method ForEach<T, E>(it: Source<T>, env: E, f: (E, T) -> E) returns (env': E)
    modifies it
    ensures env' == FoldLeft(f, env, Items(old(it.pending)))
    ensures it.pending == AfterEnd(old(it.pending))
  {
    env' := Fold(it, env, f);
  }

  /** The effect of a callback that records the items it is called with. */
  function Record<T>(log: seq<T>, x: T): seq<T>
  {
    log + [x]
  }

  /** `for_each` calls the callback exactly once per item, in order. */
  lemma {:induction false} ForEachOncePerItem<T>(log: seq<T>, xs: seq<T>)
    ensures FoldLeft(Record, log, xs) == log + xs
    decreases |xs|
  {
    if xs != [] {
      assert log + xs == Record(log, xs[0]) + xs[1..];
      ForEachOncePerItem(Record(log, xs[0]), xs[1..]);
    }
  }
}
