/**
  The `Inspect` adapter: calls a callback on each item, then passes the item on.

  The callback is an `FnMut`; it is modelled by its effect on the state it
  captures: `f(env, x)` is that state after the callback has seen `x`.
 */
module InspectAdapter {
  import opened Options
  import opened Scripts

  class Inspect<T, E> {
    const iter: Source<T>
    const f: (E, T) -> E
    /** The state the callback captures. */
    var env: E
    /** That state when the adapter was built. */
    ghost const initial: E
    /** The items the callback has been called with, in order. */
    ghost var calls: seq<T>

    /** The callback's state is the fold of the callback over the items it was called with. */
    ghost predicate Valid()
      reads this
    {
      env == FoldLeft(f, initial, calls)
    }

    constructor (inner: Source<T>, callback: (E, T) -> E, env0: E)
      ensures Valid()
      ensures iter == inner && f == callback && env == env0 && calls == []
    {
      iter := inner;
      f := callback;
      env := env0;
      initial := env0;
      calls := [];
    }

    /** The script this adapter will still produce: the inner one, unmodified. */
    ghost function Rest(): seq<Option<T>>
      reads iter
    {
      iter.pending
    }

    method Next() returns (r: Option<T>)
      requires Valid()
      modifies this, iter
      ensures Valid()
      ensures r == Head(old(iter.pending)) && iter.pending == Tail(old(iter.pending))
      ensures r.None? ==> env == old(env) && calls == old(calls)
      ensures r.Some? ==> env == f(old(env), r.value) && calls == old(calls) + [r.value]
      ensures r == Head(old(Rest())) && Rest() == Tail(old(Rest()))
    {
      var item := iter.Next();
      if item.Some? {
        FoldLeftSnoc(f, initial, calls, item.value);
        env := f(env, item.value);
        calls := calls + [item.value];
      }
      r := item;
    }
  }

  /** The effect of a callback that counts its calls. */
  function Count<T>(c: int, x: T): int
  {
    c + 1
  }

  /** A counting callback ends at its start value plus the number of items it saw. */
  lemma {:induction false} CountCalls<T>(c: int, xs: seq<T>)
    ensures FoldLeft(Count, c, xs) == c + |xs|
    decreases |xs|
  {
    if xs != [] {
      CountCalls(c + 1, xs[1..]);
    }
  }
}
