/**
  The library's test scenarios as client code: each builds iterators,
  consumes them through `next`, and states what it observes. `Collect` is
  the consumer the tests use (`Iterator::collect`); the loops over
  `WindowsMut` are `for_lend!`, a `while` loop calling `next`.
 */
module Tests {
  import opened Options
  import opened Scripts
  import opened FromAdapters
  import opened IntoAdapters
  import opened Lines
  import opened ToOwnedAdapters
  import opened TakeWhileAdapter
  import opened MapAdapter
  import opened EnumerateAdapter
  import opened InspectAdapter
  import opened WindowsMutSource
  import LendingIterator
  import Ext
  import IntoLending

  /** `collect`: calls `next` until the first end signal and keeps the items. */
  method Collect<T>(it: IntoIter<T>) returns (xs: seq<T>)
    modifies it.iter.iter
    ensures xs == Items(old(it.Rest()))
    ensures it.Rest() == AfterEnd(old(it.Rest()))
  {
    xs := [];
    var x := it.Next();
    while x.Some?
      invariant x.Some? ==> xs + [x.value] + Items(it.Rest()) == Items(old(it.Rest()))
      invariant x.Some? ==> AfterEnd(it.Rest()) == AfterEnd(old(it.Rest()))
      invariant x.None? ==> xs == Items(old(it.Rest())) && it.Rest() == AfterEnd(old(it.Rest()))
      decreases |it.Rest()| + if x.Some? then 1 else 0
    {
      ghost var s := it.Rest();
      xs := xs + [x.value];
      x := it.Next();
      if x.Some? {
        assert Items(s) == [x.value] + Items(it.Rest());
      }
    }
  }

  /** `v.into_iter().into_lend_iter().into_iter()` yields `v`: the two bridges are mutually inverse. */
  method LendThenUnlend<T>(v: seq<T>) returns (xs: seq<T>)
    ensures xs == v
  {
    var it := new Source(Lift(v));
    var lend := Ext.IntoLendIter(it);
    var back := LendingIterator.IntoIter(lend);
    xs := Collect(back);
    ItemsLift(v);
  }

  /** `v.into_into_lend_iter().into_into_iter().into_iter()` yields `v`. */
  method IntoLendThenIntoIter<T>(v: seq<T>) returns (xs: seq<T>)
    ensures xs == v
  {
    var lendable := Ext.IntoIntoLendIter(v);
    var iterable := IntoLending.IntoIntoIter(lendable);
    var it := iterable.IntoIter();
    xs := Collect(it);
    ItemsLift(v);
  }

  /** Wrapping and unwrapping give back the very same iterator. */
  method WrapUnwrap<T>(it: Source<T>) returns (back: Source<T>)
    ensures back == it
  {
    var lend := FromIter(it);
    var ordinary := LendingIterator.IntoIter(lend);
    back := ordinary.IntoInner().IntoInner();
  }

  /** `take` over `[0, 1, 2, 3, 4]`, whole or after one call. */
  lemma TakeScenario()
    ensures Items(LendingIterator.TakeScript(3, Lift([0, 1, 2, 3, 4]))) == [0, 1, 2]
    ensures Items(LendingIterator.TakeScript(3, Tail(Lift([0, 1, 2, 3, 4])))) == [1, 2, 3]
    ensures Items(LendingIterator.TakeScript(5, Tail(Lift([0, 1, 2, 3, 4])))) == [1, 2, 3, 4]
  {
    var v := [0, 1, 2, 3, 4];
    LendingIterator.TakeOfSequence(3, v);
    assert Tail(Lift(v)) == Lift(v[1..]);
    LendingIterator.TakeOfSequence(3, v[1..]);
    LendingIterator.TakeOfSequence(5, v[1..]);
  }

  /** The lending iterator `take(2)` over a live source: two items, then the end signal without touching the source. */
  method TakeStops() returns (a: Option<int>, b: Option<int>, c: Option<int>, left: seq<Option<int>>)
    ensures a == Some(1) && b == Some(2) && c == None && left == Lift([3, 4])
  {
    var it := new Source(Lift([0, 1, 2, 3, 4]));
    var skipped := it.Next();
    var t := new LendingIterator.Take(it, 2);
    a := t.Next();
    b := t.Next();
    c := t.Next();
    left := it.pending;
  }

  function Add1(x: int): int
  {
    x + 1
  }

  /** `map(|x| x + 1)` over `[0, 1, 2, 3, 4]`. */
  lemma MapScenario()
    ensures Items(MapScript(Add1, Lift([0, 1, 2, 3, 4]))) == [1, 2, 3, 4, 5]
  {
    ItemsLift([0, 1, 2, 3, 4]);
    MapItems(Add1, Lift([0, 1, 2, 3, 4]));
  }

  predicate Below3(x: int)
  {
    x < 3
  }

  /** `take_while(|x| *x < 3)` over `[0, 1, 2, 3, 4]`. */
  lemma TakeWhileScenario()
    ensures Items(TakeWhileScript(Below3, Lift([0, 1, 2, 3, 4]))) == [0, 1, 2]
  {
    var v := [0, 1, 2, 3, 4];
    ItemsLift(v);
    TakeWhileItems(Below3, Lift(v));
    var r := PrefixWhile(Below3, v);
    assert |r| >= 3 by {
      assert forall i :: 0 <= i < 3 ==> Below3(v[i]);
    }
    assert r == v[..|r|];
  }

  /**
    An inner end signal does not end `take_while`; a rejected item does,
    even though a later item would be accepted.
   */
  lemma TakeWhileSticky()
    ensures TakeWhileScript(Below3, [Some(0), None, Some(1), Some(7), Some(2)]) == [Some(0), None, Some(1)]
  {
    var s := [Some(0), None, Some(1), Some(7), Some(2)];
    assert s[1..][1..][1..] == [Some(7), Some(2)];
  }

  /** `inspect(|_| c += 1)` over any sequence, run to its end: the counter ends at its length. */
  method InspectCounts<T>(v: seq<T>) returns (c: int)
    ensures c == |v|
  {
    var it := new Source(Lift(v));
    var counting := LendingIterator.Inspect(it, Count, 0);
    var x := counting.Next();
    while x.Some?
      invariant counting.Valid() && counting.iter == it && counting.f == Count && counting.initial == 0
      invariant |counting.calls| <= |v| && counting.calls == v[..|counting.calls|]
      invariant it.pending == Lift(v[|counting.calls|..])
      invariant x.None? ==> |counting.calls| == |v|
      decreases |it.pending| + if x.Some? then 1 else 0
    {
      ghost var k := |counting.calls|;
      x := counting.Next();
      if k < |v| {
        assert Lift(v[k..])[1..] == Lift(v[k + 1..]);
        assert v[..k + 1] == v[..k] + [v[k]];
      }
    }
    c := counting.env;
    CountCalls(0, counting.calls);
  }

  /**
    The windows of a sequence: as many as `|s| - size + 1` when `size <= |s|`
    (a window size of zero included), none otherwise, the `i`-th being
    `s[i .. i + size]`.
   */
  method AllWindows<T>(s: seq<T>, size: nat) returns (ws: seq<seq<T>>)
    ensures |ws| == if size <= |s| then |s| - size + 1 else 0
    ensures forall i :: 0 <= i < |ws| ==> ws[i] == s[i..i + size]
  {
    var a := new T[|s|](i requires 0 <= i < |s| => s[i]);
    assert a[..] == s;
    var windows := Ext.WindowsMut(a, size);
    ws := [];
    var w := windows.Next();
    while w.Some?
      invariant windows.Valid() && windows.slice == a && windows.size == size && a[..] == s
      invariant w.Some? ==> |ws| + 1 == windows.currPos && w.value == s[|ws|..|ws| + size]
      invariant w.None? ==> |ws| == windows.currPos && windows.Remaining() == 0
      invariant forall i :: 0 <= i < |ws| ==> ws[i] == s[i..i + size]
      invariant windows.currPos + windows.Remaining() == if size <= |s| then |s| - size + 1 else 0
      decreases windows.Remaining() + if w.Some? then 1 else 0
    {
      ws := ws + [w.value];
      w := windows.Next();
    }
  }

  /**
    `windows_mut::<3>().enumerate()` over `[0, 1, 2, 3, 4]`: the `i`-th window
    is `[i, i + 1, i + 2]`, and writing `w[0] = w[2] - w[1]` through each
    window in turn leaves `[1, 1, 1, 3, 4]`.
   */
  method WindowsScenario() returns (result: seq<int>)
    ensures result == [1, 1, 1, 3, 4]
  {
    var v := new int[5](i => i);
    var windows := Ext.WindowsMut(v, 3);
    var i := 0;
    var w := windows.Next();
    while w.Some?
      invariant windows.Valid() && windows.slice == v && windows.size == 3
      invariant w.Some? ==> windows.live && windows.currPos == i + 1 && i < 3
      invariant w.None? ==> i == 3
      invariant forall j :: 0 <= j < i ==> v[j] == 1
      invariant forall j :: i <= j < 5 ==> v[j] == j
      invariant w.Some? ==> w.value == v[i..i + 3]
      decreases 3 - i
    {
      assert w.value == [i, i + 1, i + 2];
      var w2 := windows.Get(2);
      var w1 := windows.Get(1);
      windows.Set(0, w2 - w1);
      i := i + 1;
      w := windows.Next();
    }
    result := v[..];
  }

  /**
    `to_owned_item()` over a line reader that reuses one buffer: every copy
    keeps its value after the buffer is overwritten by later calls, and
    `lent` is what the buffer holds once the third line is read.
   */
  method LinesScenario() returns (a: Option<string>, b: Option<string>, c: Option<string>, d: Option<string>, lent: string)
    ensures a == Some("foo\n") && b == Some("bar\n") && c == Some("baz") && d == None
    ensures lent == "baz"
  {
    var lines := new BufferLender("", Lift(["foo\n", "bar\n", "baz"]));
    var owned := LendingIterator.ToOwned(lines);
    a := owned.Next();
    b := owned.Next();
    c := owned.Next();
    lent := lines.buffer.contents;
    d := owned.Next();
  }
}
