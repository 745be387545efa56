/** Result types, and a few facts about collections, shared by every module. */
module Wrappers {
  datatype Option<+T> = None | Some(value: T) {
    function GetOr(default: T): T {
      if Some? then value else default
    }
  }

  /** The program's `Result`: a value, or the text-free kind of the error it returns. */
  datatype Result<+T, +E> = Ok(value: T) | Err(error: E)

  function Lookup<K, V>(entries: map<K, V>, key: K): Option<V> {
    if key in entries then Some(entries[key]) else None
  }

  /** Maps are told apart by looking things up. */
  lemma SameLookups<K, V>(a: map<K, V>, b: map<K, V>)
    requires forall key :: Lookup(a, key) == Lookup(b, key)
    ensures a == b
  {
    assert forall key :: (key in a <==> key in b) && (key in a ==> a[key] == b[key]) by {
      forall key
        ensures (key in a <==> key in b) && (key in a ==> a[key] == b[key])
      {
        assert Lookup(a, key) == Lookup(b, key);
      }
    }
  }

  lemma Regroup<T>(a: seq<T>, b: seq<T>, c: seq<T>)
    ensures a + b + c == a + (b + c)
  {
  }
}
