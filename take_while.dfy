/** The `TakeWhile` adapter: yields items while a predicate holds, then ends for good. */
module TakeWhileAdapter {
  import opened Options
  import opened Scripts

  /**
    The script a not-yet-ended `TakeWhile` produces over an inner script `s`:
    the inner end signal is passed on without ending the adapter, and the
    first rejected item ends it.
   */
  function TakeWhileScript<T>(p: T -> bool, s: seq<Option<T>>): seq<Option<T>>
  {
    if s == [] then []
    else if s[0].None? then [None] + TakeWhileScript(p, s[1..])
    else if p(s[0].value) then [s[0]] + TakeWhileScript(p, s[1..])
    else []
  }

  /** The longest prefix of `xs` on which `p` holds: the reference the adapter is measured against. */
  function PrefixWhile<T>(p: T -> bool, xs: seq<T>): (r: seq<T>)
    ensures |r| <= |xs| && r == xs[..|r|]
    ensures forall i :: 0 <= i < |r| ==> p(r[i])
    ensures |r| < |xs| ==> !p(xs[|r|])
  {
    if xs == [] || !p(xs[0]) then [] else [xs[0]] + PrefixWhile(p, xs[1..])
  }

  class TakeWhile<T> {
    const iter: Source<T>
    const pred: T -> bool
    var ended: bool

    constructor (inner: Source<T>, p: T -> bool)
      ensures iter == inner && pred == p && !ended
    {
      iter := inner;
      pred := p;
      ended := false;
    }

    /** The script this adapter will still produce. */
    ghost function Rest(): seq<Option<T>>
      reads this, iter
    {
      if ended then [] else TakeWhileScript(pred, iter.pending)
    }

    method Next() returns (r: Option<T>)
      modifies this, iter
      // once ended: no call to the inner iterator, and ended stays set
      ensures old(ended) ==> r == None && ended && iter.pending == old(iter.pending)
      // otherwise the inner iterator is advanced exactly once
      ensures !old(ended) ==> iter.pending == Tail(old(iter.pending))
      ensures !old(ended) && Head(old(iter.pending)) == None ==> r == None && !ended
      ensures !old(ended) && Head(old(iter.pending)).Some? && pred(Head(old(iter.pending)).value) ==>
                r == Head(old(iter.pending)) && !ended
      ensures !old(ended) && Head(old(iter.pending)).Some? && !pred(Head(old(iter.pending)).value) ==>
                r == None && ended
      ensures r == Head(old(Rest())) && Rest() == Tail(old(Rest()))
    {
      if ended {
        r := None;
      } else {
        var next := iter.Next();
        if next.None? {
          r := None;
        } else if pred(next.value) {
          r := next;
        } else {
          ended := true;
          r := None;
        }
      }
    }
  }

  /** What a consumer collects from `take_while(p)` is the longest prefix of the inner items on which `p` holds. */
  lemma {:induction false} TakeWhileItems<T>(p: T -> bool, s: seq<Option<T>>)
    ensures Items(TakeWhileScript(p, s)) == PrefixWhile(p, Items(s))
  {
    if s != [] && s[0].Some? && p(s[0].value) {
      TakeWhileItems(p, s[1..]);
    }
  }

  /** No rejected item is ever returned, not even after an inner end signal. */
  lemma {:induction false} TakeWhileOnlyAccepted<T>(p: T -> bool, s: seq<Option<T>>)
    ensures forall x :: Some(x) in TakeWhileScript(p, s) ==> p(x)
  {
    if s != [] && (s[0].None? || p(s[0].value)) {
      TakeWhileOnlyAccepted(p, s[1..]);
    }
  }

  /** Once the predicate fails on element `k`, neither it nor anything after it is yielded. */
  lemma TakeWhileStopsAtFailure<T>(p: T -> bool, xs: seq<T>, k: nat)
    requires k < |xs| && !p(xs[k])
    ensures |Items(TakeWhileScript(p, Lift(xs)))| <= k
  {
    ItemsLift(xs);
    TakeWhileItems(p, Lift(xs));
  }
}
