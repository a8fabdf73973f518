/**
  The copy-out bridge: `ToOwnedItemIterator` turns a lending iterator of
  references into an ordinary iterator of owned copies. A copy of the
  referenced value is the value itself, which later calls cannot change.
 */
module ToOwnedAdapters {
  import opened Options
  import opened Scripts
  import opened Lines

  class ToOwnedItemIterator<T> {
    const iter: BufferLender<T>

    constructor (inner: BufferLender<T>)
      ensures iter == inner
    {
      iter := inner;
    }

    /** The script this iterator will still produce: the values the lender will lend. */
    ghost function Rest(): seq<Option<T>>
      reads iter
    {
      iter.pending
    }

    /** An owned copy of the lent item, or the end signal exactly when the lender ends. */
    method Next() returns (r: Option<T>)
      modifies iter, iter.buffer
      ensures r == Head(old(Rest())) && Rest() == Tail(old(Rest()))
      ensures r.Some? ==> r.value == iter.buffer.contents
    {
      var lent := iter.Next();
      if lent.None? {
        r := None;
      } else {
        r := Some(lent.value.contents);
      }
    }
  }

  /** An `IntoLendingIterator` of references turned into an `IntoIterator` of owned copies. */
  datatype ToIntoOwnedItemIterator<T> = ToIntoOwnedItemIterator(inner: BufferLender<T>)
  {
    /**
      `into_iter`: `to_owned(inner.into_lend_iter())`. The lender is a lending
      iterator, whose `into_lend_iter` is the identity, so the copying
      iterator wraps the lender itself.
     */
    method IntoIter() returns (r: ToOwnedItemIterator<T>)
      ensures fresh(r) && r.iter == inner
    {
      r := new ToOwnedItemIterator(inner);
    }
  }
}
