/**
  A lending iterator whose items borrow from it: every call overwrites one
  buffer the iterator owns and lends a reference to it. This is the shape of
  the line reader in the tests, with reading a line modelled as taking the
  next entry of a script instead of input.
 */
module Lines {
  import opened Options
  import opened Scripts

  /** A buffer: the memory a lent reference points at. */
  class Cell<T> {
    var contents: T

    constructor (x: T)
      ensures contents == x
    {
      contents := x;
    }
  }

  class BufferLender<T> {
    const buffer: Cell<T>
    var pending: seq<Option<T>>

    constructor (empty: T, script: seq<Option<T>>)
      ensures fresh(buffer) && buffer.contents == empty && pending == script
    {
      buffer := new Cell(empty);
      pending := script;
    }

    /** Each item is the same reference, to a buffer that now holds the next entry. */
    method Next() returns (r: Option<Cell<T>>)
      modifies this, buffer
      ensures pending == Tail(old(pending))
      ensures Head(old(pending)) == None ==> r == None && buffer.contents == old(buffer.contents)
      ensures Head(old(pending)).Some? ==> r == Some(buffer) && buffer.contents == Head(old(pending)).value
    {
      if pending == [] || pending[0].None? {
        r := None;
      } else {
        buffer.contents := pending[0].value;
        r := Some(buffer);
      }
      pending := Tail(pending);
    }
  }
}
