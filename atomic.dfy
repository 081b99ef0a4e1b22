/** `AtomicValue`: a one-slot cell holding the latest value stored.
    Memory ordering between goroutines is not modelled; calls are sequential. */
module Atomic {
  import opened Wrappers

  class AtomicValue<T(0)> {
    /** What the underlying `atomic.Value` holds; `None` when nothing was ever stored. */
    var stored: Option<T>

    /** `NewAtomicValue(value)`: a cell that already holds `value`. */
    constructor (value: T)
      ensures stored == Some(value)
    {
      stored := Some(value);
    }

    /** The latest stored value and true, or the zero value and false when nothing is stored. */
    method Get() returns (value: T, ok: bool)
      ensures ok <==> stored.Some?
      ensures ok ==> value == stored.value
    {
      if stored.Some? {
        value, ok := stored.value, true;
      } else {
        value := *;  // the zero value of T
        ok := false;
      }
    }

    /** Overwrites the cell: the last writer wins. */
    method Set(value: T)
      modifies this
      ensures stored == Some(value)
    {
      stored := Some(value);
    }
  }

  /** A fresh cell reads back the value it was made with. */
  method NewThenGet<T(0)>(v: T) returns (value: T, ok: bool)
    ensures ok && value == v
  {
    var cell := new AtomicValue(v);
    value, ok := cell.Get();
  }

  /** After `Set(x)` and then `Set(y)`, `Get` returns `y`, and reading twice
      gives the same answer. */
  method LastWriterWins<T(0)>(cell: AtomicValue<T>, x: T, y: T) returns (value: T, ok: bool)
    modifies cell
    ensures ok && value == y
    ensures cell.stored == Some(y)
  {
    cell.Set(x);
    cell.Set(y);
    value, ok := cell.Get();
    var again, ok2 := cell.Get();
    assert again == value && ok2 == ok;
  }
}
