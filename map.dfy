/** The `Map` adapter: applies a function to every item. */
module MapAdapter {
  import opened Options
  import opened Scripts

  /** The script a `Map` with function `f` produces over an inner script `s`. */
  function MapScript<T, U>(f: T -> U, s: seq<Option<T>>): seq<Option<U>>
  {
    if s == [] then []
    else if s[0].None? then [None] + MapScript(f, s[1..])
    else [Some(f(s[0].value))] + MapScript(f, s[1..])
  }

  /** `f` applied to each element of `xs`. */
  function Apply<T, U>(f: T -> U, xs: seq<T>): (r: seq<U>)
    ensures |r| == |xs|
    ensures forall i :: 0 <= i < |xs| ==> r[i] == f(xs[i])
  {
    seq(|xs|, i requires 0 <= i < |xs| => f(xs[i]))
  }

  class Map<T, U> {
    const iter: Source<T>
    const f: T -> U
    /** The arguments `f` has been called with, in order. */
    ghost var calls: seq<T>

    constructor (inner: Source<T>, g: T -> U)
      ensures iter == inner && f == g && calls == []
    {
      iter := inner;
      f := g;
      calls := [];
    }

    /** The script this adapter will still produce. */
    ghost function Rest(): seq<Option<U>>
      reads this, iter
    {
      MapScript(f, iter.pending)
    }

    method Next() returns (r: Option<U>)
      modifies this, iter
      ensures iter.pending == Tail(old(iter.pending))
      ensures Head(old(iter.pending)) == None ==> r == None && calls == old(calls)
      ensures Head(old(iter.pending)).Some? ==>
                r == Some(f(Head(old(iter.pending)).value)) && calls == old(calls) + [Head(old(iter.pending)).value]
      ensures r == Head(old(Rest())) && Rest() == Tail(old(Rest()))
    {
      var item := iter.Next();
      if item.None? {
        r := None;
      } else {
        r := Some(f(item.value));
        calls := calls + [item.value];
      }
    }
  }

  /** Each call advances the inner iterator once, so a `Map` makes exactly as many calls' worth of results. */
  lemma {:induction false} MapScriptLength<T, U>(f: T -> U, s: seq<Option<T>>)
    ensures |MapScript(f, s)| == |s|
    ensures forall i :: 0 <= i < |s| ==> MapScript(f, s)[i].Some? == s[i].Some?
  {
    if s != [] {
      MapScriptLength(f, s[1..]);
    }
  }

  /** Up to the first end signal, a consumer sees `f` applied to each inner item. */
  lemma {:induction false} MapItems<T, U>(f: T -> U, s: seq<Option<T>>)
    ensures Items(MapScript(f, s)) == Apply(f, Items(s))
  {
    if s != [] && s[0].Some? {
      MapItems(f, s[1..]);
    }
  }
}
