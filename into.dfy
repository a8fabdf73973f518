/** Bridges from lending iteration back to ordinary iteration: `IntoIter` and `IntoIntoIter`. */
module IntoAdapters {
  import opened Options
  import opened Scripts
  import opened FromAdapters

  /**
    A lending iterator whose items do not borrow from it, exposed as an
    ordinary iterator. The lending iterator it wraps is a `FromIterator`.
   */
  class IntoIter<T> {
    const iter: FromIterator<T>

    constructor (inner: FromIterator<T>)
      ensures iter == inner
    {
      iter := inner;
    }

    /** The script this iterator will still produce. */
    ghost function Rest(): seq<Option<T>>
      reads iter.iter
    {
      iter.iter.pending
    }

    /** The ordinary iterator yields exactly what the lending iterator yields. */
    method Next() returns (r: Option<T>)
      modifies iter.iter
      ensures r == Head(old(Rest())) && Rest() == Tail(old(Rest()))
    {
      r := iter.Next();
    }

    /** The wrapped lending iterator itself. */
    function IntoInner(): (r: FromIterator<T>)
    {
      iter
    }
  }

  /** An `IntoLendingIterator` exposed as an `IntoIterator`. */
  datatype IntoIntoIter<T> = IntoIntoIter(inner: FromIntoIterator<T>)
  {
    /** The wrapped value itself. */
    function IntoInner(): FromIntoIterator<T>
    {
      inner
    }

    /** `into_iter`: `IntoIter(inner.into_lend_iter())`. */
    method IntoIter() returns (r: IntoIter<T>)
      ensures fresh(r) && fresh(r.iter) && fresh(r.iter.iter)
      ensures r.Rest() == Lift(inner.iterable)
    {
      var lend := inner.IntoLendIter();
      r := new IntoIter(lend);
    }
  }
}
