/**
 * The render layer registry: a map from layer name to an ordered sequence
 * of entity references. Entities are compared by reference, as `indexOf`
 * does; the same entity may appear several times in a layer.
 */
module RenderLayers {
  import opened Entities

  /** The sequence with the first occurrence of `e` taken out. */
  function RemoveFirst<T(==)>(s: seq<T>, e: T): (r: seq<T>)
    ensures e in s ==> |r| == |s| - 1
    ensures e !in s ==> r == s
  {
    if s == [] then []
    else if s[0] == e then s[1..]
    else [s[0]] + RemoveFirst(s[1..], e)
  }

  /** Exactly one reference to `e` is taken out, and nothing else. */
  lemma {:induction false} RemoveFirstMultiset<T>(s: seq<T>, e: T)
    ensures multiset(RemoveFirst(s, e)) == multiset(s) - multiset{e}
  {
    if s != [] {
      assert s == [s[0]] + s[1..];
      if s[0] != e {
        RemoveFirstMultiset(s[1..], e);
      }
    }
  }

  /** Splicing out the first occurrence at index `i` is `RemoveFirst`. */
  lemma {:induction false} RemoveFirstAt<T>(s: seq<T>, e: T, i: nat)
    requires i < |s| && s[i] == e && e !in s[..i]
    ensures RemoveFirst(s, e) == s[..i] + s[i + 1..]
  {
    if i == 0 {
      assert s[..0] + s[1..] == s[1..];
    } else {
      assert s[0] == s[..i][0];
      var t := s[1..];
      assert t[..i - 1] == s[1..i];
      assert s[1..i] == s[..i][1..];
      RemoveFirstAt(t, e, i - 1);
      assert t[i..] == s[i + 1..];
      assert RemoveFirst(s, e) == [s[0]] + (s[1..i] + s[i + 1..]);
      assert [s[0]] + s[1..i] == s[..i];
    }
  }

  /** Appending an entity not yet present and removing it again restores the sequence. */
  lemma {:induction false} RemoveFirstAfterAppend<T>(s: seq<T>, e: T)
    requires e !in s
    ensures RemoveFirst(s + [e], e) == s
  {
    RemoveFirstAt(s + [e], e, |s|);
    assert (s + [e])[..|s|] == s;
  }

  /**
   * Removing an entity that is present once leaves only the copy of a later
   * duplicate: after two appends of a new `e`, one removal leaves `s + [e]`.
   */
  lemma {:induction false} RemoveFirstOfDuplicate<T>(s: seq<T>, e: T)
    requires e !in s
    ensures RemoveFirst(s + [e, e], e) == s + [e]
  {
    RemoveFirstAt(s + [e, e], e, |s|);
    assert (s + [e, e])[..|s|] == s;
    assert (s + [e, e])[|s| + 1..] == [e];
  }

  /** The layer named `n`, read as empty when it does not exist. */
  function LayerOf(layers: map<string, seq<Player>>, n: string): seq<Player> {
    if n in layers then layers[n] else []
  }

  /** The effect of `addToLayer(n, e)` on the layer map. */
  function AddedTo(layers: map<string, seq<Player>>, n: string, e: Player): map<string, seq<Player>> {
    layers[n := LayerOf(layers, n) + [e]]
  }

  /** The effect of `removeFromLayer(n, e)` on the layer map. */
  function RemovedFrom(layers: map<string, seq<Player>>, n: string, e: Player): map<string, seq<Player>> {
    if n in layers then layers[n := RemoveFirst(layers[n], e)] else layers
  }

  /**
   * Add then remove of an entity not already in layer `n` gives back the
   * layer's previous contents, and leaves every layer reading as before;
   * a layer that did not exist remains as an empty one.
   */
  lemma AddThenRemoveRestores(layers: map<string, seq<Player>>, n: string, e: Player)
    requires e !in LayerOf(layers, n)
    ensures forall k :: LayerOf(RemovedFrom(AddedTo(layers, n, e), n, e), k) == LayerOf(layers, k)
    ensures RemovedFrom(AddedTo(layers, n, e), n, e).Keys == layers.Keys + {n}
  {
    var before := LayerOf(layers, n);
    var added := AddedTo(layers, n, e);
    assert added == layers[n := before + [e]];
    RemoveFirstAfterAppend(before, e);
    var after := RemovedFrom(added, n, e);
    assert after == added[n := RemoveFirst(before + [e], e)];
    assert after == layers[n := before];
    forall k ensures LayerOf(after, k) == LayerOf(layers, k) {
      if k != n {
        assert k in after <==> k in layers;
      }
    }
  }

  /** Duplicates are kept: adding `e` twice puts two references to it at the layer's end. */
  lemma AddTwiceKeepsBoth(layers: map<string, seq<Player>>, n: string, e: Player)
    ensures LayerOf(AddedTo(AddedTo(layers, n, e), n, e), n) == LayerOf(layers, n) + [e, e]
    ensures multiset(LayerOf(AddedTo(AddedTo(layers, n, e), n, e), n))[e]
            == multiset(LayerOf(layers, n))[e] + 2
  {
    assert LayerOf(layers, n) + [e] + [e] == LayerOf(layers, n) + [e, e];
  }

  /** `indexOf` by reference: the first index holding `e`, or -1. */
  method IndexOf(layer: seq<Player>, e: Player) returns (index: int)
    ensures index == -1 <==> e !in layer
    ensures index != -1 ==> 0 <= index < |layer| && layer[index] == e && e !in layer[..index]
  {
    var i := 0;
    while i < |layer|
      invariant 0 <= i <= |layer|
      invariant e !in layer[..i]
    {
      if layer[i] == e {
        return i;
      }
      assert layer[..i + 1] == layer[..i] + [layer[i]];
      i := i + 1;
    }
    assert layer[..i] == layer;
    index := -1;
  }

  class RenderManager {
    var layers: map<string, seq<Player>>

    constructor ()
      ensures layers == map[]
    {
      layers := map[];
    }

    /** Appends `e` to layer `n`, creating the layer first if it is missing. */
    method AddToLayer(n: string, e: Player)
      modifies this
      ensures layers == AddedTo(old(layers), n, e)
      ensures n in layers && layers[n] == LayerOf(old(layers), n) + [e]
      ensures forall k :: k != n ==> LayerOf(layers, k) == LayerOf(old(layers), k)
    {
      if n !in layers {
        layers := layers[n := []];
      }
      layers := layers[n := layers[n] + [e]];
    }

    /**
     * Takes the first reference to `e` out of layer `n`, keeping the order
     * of the rest; nothing happens when the layer is missing or lacks `e`.
     */
    method RemoveFromLayer(n: string, e: Player)
      modifies this
      ensures layers == RemovedFrom(old(layers), n, e)
      ensures e in LayerOf(old(layers), n) ==> |layers[n]| == |old(layers)[n]| - 1
      ensures e !in LayerOf(old(layers), n) ==> layers == old(layers)
      ensures forall k :: k != n ==> LayerOf(layers, k) == LayerOf(old(layers), k)
    {
      if n in layers {
        var layer := layers[n];
        var index := IndexOf(layer, e);
        if index > -1 {
          RemoveFirstAt(layer, e, index);
          layers := layers[n := layer[..index] + layer[index + 1..]];
        } else {
          assert layers == layers[n := layer];
        }
      }
    }

    /** The contents of layer `n`; empty, and not created, when it is missing. */
    method GetLayer(n: string) returns (layer: seq<Player>)
      ensures n !in layers ==> layer == []
      ensures n in layers ==> layer == layers[n]
    {
      layer := if n in layers then layers[n] else [];
    }
  }

  /** The lazily created process-wide layer registry. */
  class RenderManagerSingleton {
    var instance: RenderManager?

    constructor ()
      ensures instance == null
    {
      instance := null;
    }

    /** The current layer registry, created empty on first use. */
    method GetInstance() returns (manager: RenderManager)
      modifies this
      ensures instance == manager
      ensures old(instance) != null ==> manager == old(instance)
      ensures old(instance) == null ==> fresh(manager) && manager.layers == map[]
    {
      if instance == null {
        instance := new RenderManager();
      }
      manager := instance;
    }

    /** Discards the layer registry; the next `GetInstance` creates a new one. */
    method ResetInstance()
      modifies this
      ensures instance == null
    {
      instance := null;
    }
  }
}
