/** Bytes, Option, the crate's error codes and its Result, and the insertion-ordered
    map (`IndexMap`) the stores and the mixer iterate. */
module Wrappers {

  type byte = x: int | 0 <= x < 0x100

  datatype Option<+T> = None | Some(value: T)

  datatype ErrorCode =
    | Invalid | Unsupported | Unavailable | Busy | Io | CorruptStore
    | Cancelled | Identity | Frozen

  datatype Result<+T> = Ok(value: T) | Err(code: ErrorCode) {
    predicate IsFailure() {
      Err?
    }

    function PropagateFailure<U>(): Result<U>
      requires Err?
    {
      Err(code)
    }

    function Extract(): T
      requires Ok?
    {
      value
    }
  }

  predicate Distinct<T(==)>(s: seq<T>) {
    forall i, j :: 0 <= i < j < |s| ==> s[i] != s[j]
  }

  /** Insertion-ordered map. Iteration follows `keys`; the crate's own equality
      on such maps compares `at` only. */
  datatype OrderedMap<K(==), V> = OrderedMap(keys: seq<K>, at: map<K, V>) {
    predicate Valid() {
      && Distinct(keys)
      && (forall i :: 0 <= i < |keys| ==> keys[i] in at)
      && (forall k :: k in at ==> k in keys)
    }
  }

  type Ordered<K(==), V> = m: OrderedMap<K, V> | m.Valid() witness OrderedMap([], map[])
}
