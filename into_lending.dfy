/** `IntoLendingIterator`: its blanket implementation and its provided wrappers. */
module IntoLending {
  import FromAdapters
  import IntoAdapters
  import Lines
  import ToOwnedAdapters

  /** The blanket `into_lend_iter` of a lending iterator: the iterator itself. */
  function IntoLendIter<L>(it: L): (r: L)
    ensures r == it
  {
    it
  }

  /** `into_into_iter`: only wraps the value, so `into_inner` gives it back. */
  function IntoIntoIter<T>(x: FromAdapters.FromIntoIterator<T>): (r: IntoAdapters.IntoIntoIter<T>)
    ensures r.IntoInner() == x
  {
    IntoAdapters.IntoIntoIter(x)
  }

  /** `to_into_owned_item`: only wraps the value. */
  function ToIntoOwnedItem<T>(l: Lines.BufferLender<T>): (r: ToOwnedAdapters.ToIntoOwnedItemIterator<T>)
    ensures r.inner == l
  {
    ToOwnedAdapters.ToIntoOwnedItemIterator(l)
  }

  /** Iterating `to_into_owned_item()` is `to_owned` applied to `into_lend_iter()`. */
  method ToIntoOwnedIter<T>(l: Lines.BufferLender<T>) returns (r: ToOwnedAdapters.ToOwnedItemIterator<T>)
    ensures fresh(r) && r.iter == IntoLendIter(l)
  {
    r := ToIntoOwnedItem(l).IntoIter();
  }
}
