/** Shared vocabulary: optional values, octets and sequence utilities. */
module Bytes {

  datatype Option<+T> = None | Some(value: T)

  type Byte = x: int | 0 <= x < 256

  /** All parts of a split body, glued back together. */
  function Concat<T>(parts: seq<seq<T>>): seq<T> {
    if parts == [] then [] else parts[0] + Concat(parts[1..])
  }

  lemma {:induction false} ConcatAppend<T>(a: seq<seq<T>>, b: seq<seq<T>>)
    ensures Concat(a + b) == Concat(a) + Concat(b)
  {
    if a == [] {
      assert a + b == b;
    } else {
      assert (a + b)[1..] == a[1..] + b;
      ConcatAppend(a[1..], b);
    }
  }

  /** The pieces that `slice::chunks(size)` yields. */
  function Chunks<T>(s: seq<T>, size: nat): seq<seq<T>>
    requires size > 0
    decreases |s|
  {
    if s == [] then []
    else if |s| <= size then [s]
    else [s[..size]] + Chunks(s[size..], size)
  }

  /** Splitting loses, adds and reorders nothing, and every piece is a legal frame body. */
  lemma {:induction false} ChunksRestore<T>(s: seq<T>, size: nat)
    requires size > 0
    ensures Concat(Chunks(s, size)) == s
    ensures forall p :: p in Chunks(s, size) ==> 0 < |p| <= size
    decreases |s|
  {
    if |s| > size {
      ChunksRestore(s[size..], size);
      var rest := Chunks(s[size..], size);
      assert ([s[..size]] + rest)[1..] == rest;
      assert s == s[..size] + s[size..];
    } else if s != [] {
      assert [s][1..] == [];
      assert Concat([s]) == s + Concat([]);
    }
  }

  /** `a` is a prefix of `b`; named so that lemmas about it stay readable. */
  ghost predicate IsPrefix<T>(a: seq<T>, b: seq<T>) {
    |a| <= |b| && a == b[..|a|]
  }
}
