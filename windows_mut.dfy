/**
  The `WindowsMut` source: lends mutable windows of a fixed size over an
  array, moving one position per call.

  A returned window is a mutable view of `slice[p .. p + size]`, where `p`
  is the position of the call that returned it. The model returns the
  window's contents and lets the caller read and write through the view
  with `Get` and `Set` until the next call; `live` records that such a view
  is held (the single live item the borrow discipline permits).
 */
module WindowsMutSource {
  import opened Options

  class WindowsMut<T> {
    const slice: array<T>
    /** `WINDOW_SIZE`. */
    const size: nat
    var currPos: nat
    ghost var live: bool

    ghost predicate Valid()
      reads this
    {
      && (if size <= slice.Length then currPos <= slice.Length - size + 1 else currPos == 0)
      && (live ==> 1 <= currPos && currPos - 1 + size <= slice.Length)
    }

    /** The number of windows the calls to come will still hand out. */
    ghost function Remaining(): nat
      reads this
    {
      if currPos + size <= slice.Length then slice.Length - size + 1 - currPos else 0
    }

    /** `windows_mut`: a source over the whole array, starting at position 0. */
    constructor (s: array<T>, windowSize: nat)
      ensures Valid() && slice == s && size == windowSize && currPos == 0 && !live
      ensures Remaining() == if windowSize <= s.Length then s.Length - windowSize + 1 else 0
    {
      slice := s;
      size := windowSize;
      currPos := 0;
      live := false;
    }

    method Next() returns (r: Option<seq<T>>)
      requires Valid()
      modifies this
      ensures Valid()
      ensures old(currPos) + size <= slice.Length ==>
                r == Some(slice[old(currPos)..old(currPos) + size]) && currPos == old(currPos) + 1 && live
      ensures old(currPos) + size > slice.Length ==> r == None && currPos == old(currPos) && !live
      ensures r.Some? <==> old(Remaining()) > 0
      ensures r.Some? ==> Remaining() == old(Remaining()) - 1
      ensures r.None? ==> Remaining() == 0
    {
      // `get_mut(curr_pos..)` fails past the end of the slice,
      // `get_mut(..WINDOW_SIZE)` when fewer than `WINDOW_SIZE` elements are left
      if currPos > slice.Length || slice.Length - currPos < size {
        live := false;
        r := None;
      } else {
        r := Some(slice[currPos..currPos + size]);
        currPos := currPos + 1;
        live := true;
      }
    }

    /** Reads element `k` of the live window. */
    method Get(k: nat) returns (x: T)
      requires Valid() && live && k < size
      ensures x == slice[currPos - 1 + k]
    {
      x := slice[currPos - 1 + k];
    }

    /** Writes element `k` of the live window: only that window's part of the array can change. */
    method Set(k: nat, x: T)
      requires Valid() && live && k < size
      modifies slice
      ensures slice[..] == old(slice[..])[currPos - 1 + k := x]
      ensures forall j :: 0 <= j < slice.Length && !(currPos - 1 <= j < currPos - 1 + size) ==>
                slice[j] == old(slice[j])
    {
      slice[currPos - 1 + k] := x;
    }
  }
}
