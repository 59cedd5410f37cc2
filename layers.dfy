/**
 * Layered dictionaries. The label helpers build a dict by calling
 * `.update(layer)` once per configuration layer, lowest first; a key ends up
 * with the value the highest layer that defines it gives.
 */
module Layers {
  import opened Wrappers

  /** `d.get(k)`, with absence made explicit. */
  function Lookup<K, V>(d: map<K, V>, k: K): (r: Option<V>)
    ensures r.Some? <==> k in d
    ensures r.Some? ==> r.value == d[k]
  {
    if k in d then Some(d[k]) else None
  }

  /**
   * The value the highest layer that defines `k` gives it, searching from the
   * last (highest) layer down; None when no layer defines `k`.
   */
  function Highest<K, V>(layers: seq<map<K, V>>, k: K): Option<V>
    decreases |layers|
  {
    if layers == [] then None
    else if k in layers[|layers| - 1] then Some(layers[|layers| - 1][k])
    else Highest(layers[..|layers| - 1], k)
  }

  /** A key has a value in the stack exactly when some layer defines it. */
  lemma {:induction false} HighestDefined<K, V>(layers: seq<map<K, V>>, k: K)
    ensures Highest(layers, k).Some? <==> exists i :: 0 <= i < |layers| && k in layers[i]
    decreases |layers|
  {
    if layers != [] {
      var n := |layers| - 1;
      var below := layers[..n];
      HighestDefined(below, k);
      if k !in layers[n] {
        forall i | 0 <= i < |layers| && k in layers[i] ensures 0 <= i < |below| && k in below[i] {
          assert i != n;
        }
      }
    }
  }

  /** The value comes from layer `i` when `i` defines `k` and no layer above it does. */
  lemma {:induction false} HighestFrom<K, V>(layers: seq<map<K, V>>, k: K, i: nat)
    requires i < |layers| && k in layers[i]
    requires forall j :: i < j < |layers| ==> k !in layers[j]
    ensures Highest(layers, k) == Some(layers[i][k])
    decreases |layers|
  {
    var n := |layers| - 1;
    if i < n {
      var below := layers[..n];
      assert below[i] == layers[i];
      HighestFrom(below, k, i);
    }
  }

  /**
   * `d.update(top)` pushes a layer: if `d` holds the highest-layer values of
   * `layers`, then `d + top` holds those of `layers + [top]`.
   */
  lemma UpdatePushesLayer<K, V>(d: map<K, V>, layers: seq<map<K, V>>, top: map<K, V>)
    requires forall k :: Lookup(d, k) == Highest(layers, k)
    ensures forall k :: Lookup(d + top, k) == Highest(layers + [top], k)
  {
  }
}
