/**
  The iteration protocol: a `next` call returns an item or the end signal.

  An iterator is modelled by its script: the results its successive `next`
  calls will return, followed by the end signal forever once the script is
  used up. A `None` inside a script is an iterator that signals the end and
  then resumes, which Rust iterators are allowed to do.
 */
module Scripts {
  import opened Options

  /** The result of the next call on an iterator with script `s`. */
  function Head<T>(s: seq<Option<T>>): (r: Option<T>)
    ensures s == [] ==> r == None
    ensures s != [] ==> r == s[0]
  {
    if s == [] then None else s[0]
  }

  /** The script left after one call. */
  function Tail<T>(s: seq<Option<T>>): (r: seq<Option<T>>)
    ensures s == [] ==> r == []
    ensures s != [] ==> r == s[1..]
  {
    if s == [] then [] else s[1..]
  }

  /** The items a consumer sees when it calls `next` until the first end signal. */
  function Items<T>(s: seq<Option<T>>): (r: seq<T>)
    ensures |r| <= |s|
    ensures forall i :: 0 <= i < |r| ==> s[i] == Some(r[i])
    ensures |r| < |s| ==> s[|r|] == None
  {
    if s == [] || s[0].None? then [] else [s[0].value] + Items(s[1..])
  }

  /** Every item an iterator with script `s` ever returns, across end signals. */
  function Values<T>(s: seq<Option<T>>): (r: seq<T>)
    ensures |r| <= |s|
  {
    if s == [] then []
    else if s[0].None? then Values(s[1..])
    else [s[0].value] + Values(s[1..])
  }

  /** The script of a fused iterator over the elements of `xs`. */
  function Lift<T>(xs: seq<T>): (r: seq<Option<T>>)
    ensures |r| == |xs|
    ensures forall i :: 0 <= i < |xs| ==> r[i] == Some(xs[i])
  {
    seq(|xs|, i requires 0 <= i < |xs| => Some(xs[i]))
  }

  /** The script left once the call that returned the first end signal is made. */
  function AfterEnd<T>(s: seq<Option<T>>): (r: seq<Option<T>>)
    ensures |r| <= |s|
  {
    if s == [] then [] else if s[0].None? then s[1..] else AfterEnd(s[1..])
  }

  /** Strict left fold: `f(...f(f(init, xs[0]), xs[1])..., xs[|xs|-1])`. */
  function FoldLeft<A, T>(f: (A, T) -> A, init: A, xs: seq<T>): A
  {
    if xs == [] then init else FoldLeft(f, f(init, xs[0]), xs[1..])
  }

  /** A fused iterator yields exactly the elements it was made from. */
  lemma {:induction false} ItemsLift<T>(xs: seq<T>)
    ensures Items(Lift(xs)) == xs
    ensures Values(Lift(xs)) == xs
  {
    if xs != [] {
      assert Lift(xs)[1..] == Lift(xs[1..]);
      ItemsLift(xs[1..]);
    }
  }

  /** Folding over `xs + [x]` applies `f` to `x` last. */
  lemma {:induction false} FoldLeftSnoc<A, T>(f: (A, T) -> A, init: A, xs: seq<T>, x: T)
    ensures FoldLeft(f, init, xs + [x]) == f(FoldLeft(f, init, xs), x)
  {
    if xs != [] {
      assert (xs + [x])[1..] == xs[1..] + [x];
      FoldLeftSnoc(f, f(init, xs[0]), xs[1..], x);
    }
  }

  /**
    An iterator given by its script. It stands for any iterator the library
    wraps: an ordinary `Iterator`, or a `LendingIterator` whose items do not
    borrow from it.
   */
  class Source<T> {
    var pending: seq<Option<T>>

    constructor (script: seq<Option<T>>)
      ensures pending == script
    {
      pending := script;
    }

    /** `next`: the head of the script, and the script moves on by one call. */
    method Next() returns (r: Option<T>)
      modifies this
      ensures r == Head(old(pending))
      ensures pending == Tail(old(pending))
    {
      if pending == [] {
        r := None;
      } else {
        r := pending[0];
        pending := pending[1..];
      }
    }
  }
}
