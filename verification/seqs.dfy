/** Concatenation of per-key blocks, the shape of every nested enumeration loop in the model. */
module Seqs {

  /** The lists f(k) for the keys in order, concatenated. */
  function FlatMap<K, T>(f: K -> seq<T>, keys: seq<K>): seq<T> {
    if |keys| == 0 then [] else FlatMap(f, keys[..|keys| - 1]) + f(keys[|keys| - 1])
  }

  /** One more key appends its block to what came before. */
  lemma FlatMapStep<K, T>(f: K -> seq<T>, keys: seq<K>, j: nat, out0: seq<T>, out: seq<T>)
    requires j < |keys| && out == out0 + FlatMap(f, keys[..j])
    ensures out + f(keys[j]) == out0 + FlatMap(f, keys[..j + 1])
  {
    assert keys[..j + 1][..j] == keys[..j];
    assert FlatMap(f, keys[..j + 1]) == FlatMap(f, keys[..j]) + f(keys[j]);
  }

  lemma FlatMapAll<K, T>(f: K -> seq<T>, keys: seq<K>, out0: seq<T>, out: seq<T>)
    requires out == out0 + FlatMap(f, keys[..|keys|])
    ensures out == out0 + FlatMap(f, keys)
  {
    assert keys[..|keys|] == keys;
  }

  /** When every key gives w elements there are |keys| * w of them. */
  lemma {:induction false} FlatMapLength<K, T>(f: K -> seq<T>, keys: seq<K>, w: nat)
    requires forall i :: 0 <= i < |keys| ==> |f(keys[i])| == w
    ensures |FlatMap(f, keys)| == |keys| * w
    decreases |keys|
  {
    if |keys| > 0 {
      FlatMapLength(f, keys[..|keys| - 1], w);
    }
  }

  /** Position r of block i when every block holds w elements. */
  function Place(i: nat, w: nat, r: nat): nat {
    i * w + r
  }

  /** Element r of key i's block sits at i * w + r: blocks follow the key order. */
  lemma {:induction false} FlatMapAt<K, T>(f: K -> seq<T>, keys: seq<K>, w: nat, i: nat, r: nat)
    requires forall i :: 0 <= i < |keys| ==> |f(keys[i])| == w
    requires i < |keys| && r < w
    ensures Place(i, w, r) < |keys| * w
    ensures |FlatMap(f, keys)| == |keys| * w && FlatMap(f, keys)[Place(i, w, r)] == f(keys[i])[r]
    decreases |keys|
  {
    var prev := keys[..|keys| - 1];
    FlatMapLength(f, keys, w);
    FlatMapLength(f, prev, w);
    if i < |keys| - 1 {
      FlatMapAt(f, prev, w, i, r);
    } else {
      assert i * w + r == |prev| * w + r;
    }
  }

  /** Every element comes from the block of some key. */
  lemma {:induction false} FlatMapMember<K, T>(f: K -> seq<T>, keys: seq<K>, x: T)
    requires x in FlatMap(f, keys)
    ensures exists i :: 0 <= i < |keys| && x in f(keys[i])
    decreases |keys|
  {
    var prev := keys[..|keys| - 1];
    if x !in f(keys[|keys| - 1]) {
      FlatMapMember(f, prev, x);
      var i :| 0 <= i < |prev| && x in f(prev[i]);
      assert keys[i] == prev[i];
    }
  }
}
