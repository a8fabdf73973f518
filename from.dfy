/** Bridges from ordinary iteration to lending iteration: `FromIterator` and `FromIntoIterator`. */
module FromAdapters {
  import opened Options
  import opened Scripts

  /** An ordinary iterator exposed as a lending iterator: every call is forwarded. */
  class FromIterator<T> {
    const iter: Source<T>

    constructor (inner: Source<T>)
      ensures iter == inner
    {
      iter := inner;
    }

    /** The lending iterator yields exactly what the wrapped iterator yields. */
    method Next() returns (r: Option<T>)
      modifies iter
      ensures r == Head(old(iter.pending)) && iter.pending == Tail(old(iter.pending))
    {
      r := iter.Next();
    }

    /** The wrapped iterator itself. */
    function IntoInner(): (r: Source<T>)
    {
      iter
    }
  }

  /** `from_iter`: wraps the iterator, unchanged and without copying. */
  method FromIter<T>(it: Source<T>) returns (r: FromIterator<T>)
    ensures fresh(r) && r.iter == it && r.IntoInner() == it
  {
    r := new FromIterator(it);
  }

  /**
    An `IntoIterator` exposed as an `IntoLendingIterator`. The iterable is
    modelled as the finite sequence of elements its `into_iter` yields.
   */
  datatype FromIntoIterator<T> = FromIntoIterator(iterable: seq<T>)
  {
    /** The wrapped iterable itself. */
    function IntoInner(): seq<T>
    {
      iterable
    }

    /** `into_lend_iter`: a `FromIterator` over the iterable's `into_iter()`. */
    method IntoLendIter() returns (r: FromIterator<T>)
      ensures fresh(r) && fresh(r.iter) && r.iter.pending == Lift(iterable)
    {
      var it := new Source(Lift(iterable));
      r := new FromIterator(it);
    }
  }

  /** `from_into_iter`: wraps the iterable, unchanged. */
  function FromIntoIter<T>(v: seq<T>): (r: FromIntoIterator<T>)
    ensures r.IntoInner() == v
  {
    FromIntoIterator(v)
  }
}
