/** The `Enumerate` adapter: pairs every item with a running, zero-based count. */
module EnumerateAdapter {
  import opened Options
  import opened Scripts

  /** The script an `Enumerate` whose count is `c` produces over an inner script `s`. */
  function EnumerateScript<T>(c: nat, s: seq<Option<T>>): seq<Option<(nat, T)>>
    decreases |s|
  {
    if s == [] then []
    else if s[0].None? then [None] + EnumerateScript(c, s[1..])
    else [Some((c, s[0].value))] + EnumerateScript(c + 1, s[1..])
  }

  /** `xs` paired with consecutive indices starting at `c`. */
  function Numbered<T>(c: nat, xs: seq<T>): (r: seq<(nat, T)>)
    ensures |r| == |xs|
    ensures forall i :: 0 <= i < |xs| ==> r[i] == (c + i, xs[i])
  {
    seq(|xs|, i requires 0 <= i < |xs| => (c + i, xs[i]))
  }

  class Enumerate<T> {
    const iter: Source<T>
    var count: nat

    /** `Enumerate::new`: the count starts at zero. */
    constructor (inner: Source<T>)
      ensures iter == inner && count == 0
    {
      iter := inner;
      count := 0;
    }

    /** The script this adapter will still produce. */
    ghost function Rest(): seq<Option<(nat, T)>>
      reads this, iter
    {
      EnumerateScript(count, iter.pending)
    }

    method Next() returns (r: Option<(nat, T)>)
      modifies this, iter
      ensures iter.pending == Tail(old(iter.pending))
      ensures Head(old(iter.pending)) == None ==> r == None && count == old(count)
      ensures Head(old(iter.pending)).Some? ==>
                r == Some((old(count), Head(old(iter.pending)).value)) && count == old(count) + 1
      ensures r == Head(old(Rest())) && Rest() == Tail(old(Rest()))
    {
      var a := iter.Next();
      if a.None? {
        r := None;
      } else {
        var i := count;
        count := count + 1;
        r := Some((i, a.value));
      }
    }
  }

  /**
    Over all the items an `Enumerate` ever returns, even across inner end
    signals, the indices are `c, c + 1, c + 2, ...` and each item is the
    inner one unchanged.
   */
  lemma {:induction false} EnumerateValues<T>(c: nat, s: seq<Option<T>>)
    ensures Values(EnumerateScript(c, s)) == Numbered(c, Values(s))
    decreases |s|
  {
    if s != [] {
      EnumerateValues(if s[0].None? then c else c + 1, s[1..]);
    }
  }

  /** Up to the first end signal: `(c, x0), (c + 1, x1), ...`. */
  lemma {:induction false} EnumerateItems<T>(c: nat, s: seq<Option<T>>)
    ensures Items(EnumerateScript(c, s)) == Numbered(c, Items(s))
    decreases |s|
  {
    var e := EnumerateScript(c, s);
    if s == [] {
      assert e == [];
    } else if s[0].None? {
      assert e[0] == None;
    } else {
      var rest := EnumerateScript(c + 1, s[1..]);
      assert e == [Some((c, s[0].value))] + rest;
      assert e[1..] == rest;
      assert Items(s) == [s[0].value] + Items(s[1..]);
      EnumerateItems(c + 1, s[1..]);
      NumberedCons(c, s[0].value, Items(s[1..]));
    }
  }

  lemma NumberedCons<T>(c: nat, x: T, xs: seq<T>)
    ensures Numbered(c, [x] + xs) == [(c, x)] + Numbered(c + 1, xs)
  {
  }

  /** The indices are strictly increasing. */
  lemma EnumerateIndicesIncrease<T>(c: nat, s: seq<Option<T>>, i: nat, j: nat)
    requires i < j < |Values(EnumerateScript(c, s))|
    ensures Values(EnumerateScript(c, s))[i].0 < Values(EnumerateScript(c, s))[j].0
  {
    EnumerateValues(c, s);
  }
}
