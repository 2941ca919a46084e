/** Small value types shared by the other modules. */
module Common {
  datatype Option<+T> = None | Some(value: T) {
    function GetOr(default: T): T {
      match this
      case Some(v) => v
      case None => default
    }
  }

  datatype Result<+T, +E> = Success(value: T) | Failure(error: E)

  /**
   * An insertion-ordered dictionary, as a JavaScript `Map` is: iteration visits
   * the keys in the order they were first put.
   */
  datatype Table<K(==,!new), V> = Table(keys: seq<K>, items: map<K, V>) {
    ghost predicate Valid() {
      forall k :: k in keys <==> k in items
    }

    predicate Has(k: K) { k in items }

    function Put(k: K, v: V): (t: Table<K, V>)
      ensures t.items == items[k := v]
      ensures Valid() ==> t.Valid()
    {
      Table(if k in items then keys else keys + [k], items[k := v])
    }
  }

  function EmptyTable<K(==,!new), V>(): Table<K, V> { Table([], map[]) }
}
