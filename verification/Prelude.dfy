/** Datatypes and sequence facts shared by the models. */
module Prelude {
  datatype Option<+T> = None | Some(value: T)

  function Reverse<T>(s: seq<T>): (r: seq<T>)
    ensures |r| == |s|
  {
    if s == [] then [] else Reverse(s[1..]) + [s[0]]
  }

  /** Reading a list from its tail starts with its last element. */
  lemma {:induction false} ReverseFromTail<T>(s: seq<T>)
    requires s != []
    ensures Reverse(s) == [s[|s| - 1]] + Reverse(s[..|s| - 1])
  {
    if |s| == 1 {
      assert s[..0] == [];
      assert Reverse(s[1..]) == [];
    } else {
      ReverseFromTail(s[1..]);
      assert s[1..][..|s| - 2] == s[..|s| - 1][1..];
      assert Reverse(s[..|s| - 1]) == Reverse(s[..|s| - 1][1..]) + [s[0]];
      assert Reverse(s) == Reverse(s[1..]) + [s[0]];
    }
  }

  lemma MoveOver<T>(a: seq<T>, x: T, b: seq<T>)
    ensures a + ([x] + b) == (a + [x]) + b
  {
  }

  /** The entry of a map of sequences, empty when there is none. */
  function At<K, V>(m: map<K, seq<V>>, k: K): seq<V> {
    if k in m then m[k] else []
  }
}
