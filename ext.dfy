/** Extension methods: `into_lend_iter`, `into_into_lend_iter` and `windows_mut`. */
module Ext {
  import opened Scripts
  import opened FromAdapters
  import WindowsMutSource

  /** `into_lend_iter` on an ordinary iterator: exactly `from_iter`. */
  method IntoLendIter<T>(it: Source<T>) returns (r: FromIterator<T>)
    ensures fresh(r) && r.iter == it
  {
    r := FromIter(it);
  }

  /** `into_into_lend_iter` on an iterable: exactly `from_into_iter`, which `into_inner` undoes. */
  function IntoIntoLendIter<T>(v: seq<T>): (r: FromIntoIterator<T>)
    ensures r.IntoInner() == v
  {
    FromIntoIter(v)
  }

  /** `windows_mut`: a window source over the whole array, at position 0. */
  method WindowsMut<T>(slice: array<T>, size: nat) returns (w: WindowsMutSource.WindowsMut<T>)
    ensures fresh(w) && w.Valid() && w.slice == slice && w.size == size && w.currPos == 0 && !w.live
    ensures w.Remaining() == if size <= slice.Length then slice.Length - size + 1 else 0
  {
    w := new WindowsMutSource.WindowsMut(slice, size);
  }
}
