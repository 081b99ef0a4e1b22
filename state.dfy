/** `State`: the shared key/value store of a service. The lock is a no-op in
    this sequential model, and `Set` notifies nobody (the source leaves that
    as a to-do). A missing key reads as nil, here `None`. */
module SharedState {
  import opened Wrappers

  class State<V> {
    var store: map<string, V>

    /** `NewState`: an empty store. */
    constructor ()
      ensures store == map[]
    {
      store := map[];
    }

    /** Stores `value` under `key`; every other key keeps its value. */
    method Set(key: string, value: V)
      modifies this
      ensures store == old(store)[key := value]
      ensures forall k :: k != key ==> (k in store <==> k in old(store))
      ensures forall k :: k != key && k in store ==> store[k] == old(store)[k]
    {
      store := store[key := value];
    }

    /** The value under `key`, or nil when `key` was never set. */
    method Get(key: string) returns (r: Option<V>)
      ensures r.Some? <==> key in store
      ensures r.Some? ==> r.value == store[key]
    {
      r := if key in store then Some(store[key]) else None;
    }
  }

  /** A fresh store holds nothing, whatever the key. */
  method NewStateIsEmpty<V>(key: string) returns (r: Option<V>)
    ensures r.None?
  {
    var s := new State<V>();
    r := s.Get(key);
  }

  /** Reading after two writes to one key gives the second value; a write to
      one key leaves another key's reading as it was. */
  method SetThenGet<V>(s: State<V>, k: string, other: string, v1: V, v2: V) returns (r: Option<V>, o: Option<V>)
    requires other != k
    modifies s
    ensures r == Some(v2)
    ensures o == (if other in old(s.store) then Some(old(s.store)[other]) else None)
  {
    var before := s.Get(other);
    s.Set(k, v1);
    s.Set(k, v2);
    r := s.Get(k);
    o := s.Get(other);
    assert o == before;
  }
}
