/** `LayeredGraphicObjectCollection<layer_count>`
  * (`Interfaces/GraphicObjects/LayeredGraphicObjectCollection.hpp`): graphic objects kept in a
  * fixed number of layers, removed by swap-and-pop, and hit-tested from layer 0 up. An object is
  * its pointer identity; `GraphicObject::contains(position)` is the parameter `hit`, the point
  * under the cursor being fixed for one query. */
module GraphicObjects {
  import opened Common

  type GraphicObject = nat

  /** The objects in scan order: layer 0 first, each layer front to back. */
  function Flatten(layers: seq<seq<GraphicObject>>): seq<GraphicObject>
  {
    if |layers| == 0 then [] else Flatten(layers[..|layers| - 1]) + layers[|layers| - 1]
  }

  /** The first object of `s` that `hit` accepts. */
  function FirstHit(s: seq<GraphicObject>, hit: GraphicObject -> bool): (r: Option<GraphicObject>)
    ensures r.Some? ==> hit(r.value) && r.value in s
    ensures r.None? ==> forall i :: 0 <= i < |s| ==> !hit(s[i])
  {
    if |s| == 0 then None else if hit(s[0]) then Some(s[0]) else FirstHit(s[1..], hit)
  }

  /** What `nextGraphicObjectAt` returns: the first hit after the first occurrence of `current`
    * in scan order, or else what `graphicObjectAt` returns. */
  function NextHit(s: seq<GraphicObject>, hit: GraphicObject -> bool, current: GraphicObject): Option<GraphicObject>
  {
    if current in s then
      match FirstHit(s[IndexOf(s, current) + 1..], hit)
      case Some(o) => Some(o)
      case None => FirstHit(s, hit)
    else FirstHit(s, hit)
  }

  /** When some object is hit, cycling finds one, and it is hit. */
  lemma NextHitIsHit(s: seq<GraphicObject>, hit: GraphicObject -> bool, current: GraphicObject)
    ensures NextHit(s, hit, current).Some? <==> exists i :: 0 <= i < |s| && hit(s[i])
    ensures NextHit(s, hit, current).Some? ==> hit(NextHit(s, hit, current).value)
  {
    if exists i :: 0 <= i < |s| && hit(s[i]) {
      assert FirstHit(s, hit).Some?;
    }
  }

  predicate NoHit(s: seq<GraphicObject>, hit: GraphicObject -> bool)
  {
    forall i :: 0 <= i < |s| ==> !hit(s[i])
  }

  lemma {:induction false} FirstHitAfterMisses(p: seq<GraphicObject>, go: GraphicObject, t: seq<GraphicObject>, hit: GraphicObject -> bool)
    requires NoHit(p, hit) && hit(go) && p + [go] <= t
    ensures FirstHit(t, hit) == Some(go)
  {
    if |p| > 0 {
      assert t[0] == p[0];
      assert p[1..] + [go] <= t[1..];
      FirstHitAfterMisses(p[1..], go, t[1..], hit);
    }
  }

  lemma {:induction false} FirstHitNone(t: seq<GraphicObject>, hit: GraphicObject -> bool)
    requires NoHit(t, hit)
    ensures FirstHit(t, hit) == None
  {
    if |t| > 0 {
      FirstHitNone(t[1..], hit);
    }
  }

  lemma FlattenStep(layers: seq<seq<GraphicObject>>, k: nat)
    requires k < |layers|
    ensures Flatten(layers[..k + 1]) == Flatten(layers[..k]) + layers[k]
  {
    assert layers[..k + 1][..k] == layers[..k];
  }

  lemma {:induction false} FlattenPrefix(layers: seq<seq<GraphicObject>>, k: nat)
    requires k <= |layers|
    ensures Flatten(layers[..k]) <= Flatten(layers)
    decreases |layers| - k
  {
    if k < |layers| {
      FlattenStep(layers, k);
      FlattenPrefix(layers, k + 1);
    } else {
      assert layers[..k] == layers;
    }
  }

  /** The objects scanned before position `j` of layer `k`. */
  function Seen(layers: seq<seq<GraphicObject>>, k: nat, j: nat): seq<GraphicObject>
    requires k < |layers| && j <= |layers[k]|
  {
    Flatten(layers[..k]) + layers[k][..j]
  }

  lemma SeenIsPrefix(layers: seq<seq<GraphicObject>>, k: nat, j: nat)
    requires k < |layers| && j < |layers[k]|
    ensures Seen(layers, k, j) + [layers[k][j]] == Seen(layers, k, j + 1)
    ensures Seen(layers, k, j + 1) <= Flatten(layers)
  {
    assert layers[k][..j + 1] == layers[k][..j] + [layers[k][j]];
    FlattenStep(layers, k);
    FlattenPrefix(layers, k + 1);
    assert Seen(layers, k, j + 1) <= Flatten(layers[..k + 1]);
  }

  lemma SeenLayer(layers: seq<seq<GraphicObject>>, k: nat)
    requires k < |layers|
    ensures Seen(layers, k, |layers[k]|) == Flatten(layers[..k + 1])
    ensures k + 1 == |layers| ==> Flatten(layers[..k + 1]) == Flatten(layers)
  {
    assert layers[k][..|layers[k]|] == layers[k];
    FlattenStep(layers, k);
    assert layers[..|layers|] == layers;
  }

  /** `std::find` then swap with the last element and `pop_back`: the first occurrence of `go`
    * is replaced by the last element. */
  function SwapPop(layer: seq<GraphicObject>, go: GraphicObject): (r: seq<GraphicObject>)
    ensures go !in layer ==> r == layer
    ensures go in layer ==> |r| == |layer| - 1
  {
    if go in layer then
      var i := IndexOf(layer, go);
      layer[i := layer[|layer| - 1]][..|layer| - 1]
    else layer
  }

  /** Removal takes out exactly one occurrence and keeps every other element, and the elements
    * before the removed one stay in place. */
  lemma SwapPopProperties(layer: seq<GraphicObject>, go: GraphicObject)
    requires go in layer
    ensures multiset(SwapPop(layer, go)) == multiset(layer) - multiset{go}
    ensures forall j :: 0 <= j < IndexOf(layer, go) ==> SwapPop(layer, go)[j] == layer[j]
  {
    var i := IndexOf(layer, go);
    SwapPopSplit(layer, i, go);
  }

  lemma Split4(layer: seq<GraphicObject>, i: nat)
    requires i < |layer| - 1
    ensures layer == layer[..i] + [layer[i]] + layer[i + 1..|layer| - 1] + [layer[|layer| - 1]]
  {
    assert layer == layer[..i] + [layer[i]] + layer[i + 1..];
    assert layer[i + 1..] == layer[i + 1..|layer| - 1] + [layer[|layer| - 1]];
  }
  lemma Swapped(layer: seq<GraphicObject>, i: nat)
    requires i < |layer| - 1
    ensures layer[i := layer[|layer| - 1]][..|layer| - 1] == layer[..i] + [layer[|layer| - 1]] + layer[i + 1..|layer| - 1]
  {
  }
  lemma MS(a: seq<GraphicObject>, go: GraphicObject, b: seq<GraphicObject>, last: GraphicObject)
    ensures multiset(a + [go] + b + [last]) - multiset{go} == multiset(a + [last] + b)
  {
    assert multiset(a + [go] + b + [last]) == multiset(a) + multiset{go} + multiset(b) + multiset{last};
    assert multiset(a + [last] + b) == multiset(a) + multiset{last} + multiset(b);
  }
  lemma SwapPopSplit(layer: seq<GraphicObject>, i: nat, go: GraphicObject)
    requires i < |layer| && layer[i] == go
    ensures multiset(layer[i := layer[|layer| - 1]][..|layer| - 1]) == multiset(layer) - multiset{go}
  {
    var n := |layer|;
    if i == n - 1 {
      assert layer == layer[i := layer[n - 1]][..n - 1] + [go];
    } else {
      Split4(layer, i);
      Swapped(layer, i);
      MS(layer[..i], go, layer[i + 1..n - 1], layer[n - 1]);
    }
  }

  class Collection {
    /** `layers`, a `std::array` of `layer_count` vectors. */
    const layers: array<seq<GraphicObject>>

    constructor (layerCount: nat)
      ensures layers.Length == layerCount && fresh(layers)
      ensures forall k :: 0 <= k < layerCount ==> layers[k] == []
    {
      layers := new seq<GraphicObject>[layerCount](_ => []);
    }

    /** `registerGraphicObject(go, layer)`: appended at the end of `layer` (the caller passes
      * `layer_count - 1` for the default). */
    method Register(go: GraphicObject, layer: nat)
      requires layer < layers.Length
      modifies layers
      ensures layers[layer] == old(layers[layer]) + [go]
      ensures forall k :: 0 <= k < layers.Length && k != layer ==> layers[k] == old(layers[k])
    {
      layers[layer] := layers[layer] + [go];
    }

    /** `removeGraphicObject(go)`: swap-and-pop in every layer. */
    method Remove(go: GraphicObject)
      modifies layers
      ensures forall k :: 0 <= k < layers.Length ==> layers[k] == SwapPop(old(layers[k]), go)
    {
      for k := 0 to layers.Length
        invariant forall m :: 0 <= m < k ==> layers[m] == SwapPop(old(layers[m]), go)
        invariant forall m :: k <= m < layers.Length ==> layers[m] == old(layers[m])
      {
        var layer := layers[k];
        if |layer| > 0 {
          var i := FindInLayer(layer, go);
          if i < |layer| {
            var last := layer[|layer| - 1];
            layer := layer[i := last];
            layer := layer[..|layer| - 1];
            layers[k] := layer;
          }
        }
      }
    }

    /** `std::find` over one layer: the first position holding `go`, or the layer's size. */
    method FindInLayer(layer: seq<GraphicObject>, go: GraphicObject) returns (i: nat)
      ensures i <= |layer|
      ensures i < |layer| <==> go in layer
      ensures i < |layer| ==> i == IndexOf(layer, go)
    {
      i := 0;
      while i < |layer| && layer[i] != go
        invariant 0 <= i <= |layer|
        invariant forall j :: 0 <= j < i ==> layer[j] != go
      {
        i := i + 1;
      }
      if i < |layer| {
        assert IndexOf(layer, go) == i;
      }
    }

    /** `graphicObjectAt(position)`: the first object hit, from layer 0 up. */
    method ObjectAt(hit: GraphicObject -> bool) returns (r: Option<GraphicObject>)
      ensures r == FirstHit(Flatten(layers[..]), hit)
    {
      var all := layers[..];
      if layers.Length == 0 {
        return None;
      }
      for k := 0 to layers.Length
        invariant k < layers.Length ==> NoHit(Seen(all, k, 0), hit)
        invariant k == layers.Length ==> NoHit(Flatten(all), hit)
      {
        var layer := layers[k];
        for j := 0 to |layer|
          invariant NoHit(Seen(all, k, j), hit)
        {
          SeenIsPrefix(all, k, j);
          if hit(layer[j]) {
            FirstHitAfterMisses(Seen(all, k, j), layer[j], Flatten(all), hit);
            return Some(layer[j]);
          }
        }
        SeenLayer(all, k);
        if k + 1 < layers.Length {
          assert Seen(all, k + 1, 0) == Flatten(all[..k + 1]) by {
            assert all[k + 1][..0] == [];
          }
        }
      }
      FirstHitNone(Flatten(all), hit);
      return None;
    }

    /** `nextGraphicObjectAt(position, current)`: cycling to the next object hit after
      * `current`. */
    method NextObjectAt(hit: GraphicObject -> bool, current: GraphicObject) returns (r: Option<GraphicObject>)
      ensures r == NextHit(Flatten(layers[..]), hit, current)
    {
      var all := layers[..];
      ghost var t := Flatten(all);
      var found := false;
      ghost var seen: seq<GraphicObject> := [];
      for k := 0 to layers.Length
        invariant k < layers.Length ==> seen == Seen(all, k, 0)
        invariant k == layers.Length ==> seen == t
        invariant seen <= t
        invariant Cycling(seen, current, hit, found)
      {
        var layer := layers[k];
        for j := 0 to |layer|
          invariant seen == Seen(all, k, j) && seen <= t
          invariant Cycling(seen, current, hit, found)
        {
          SeenIsPrefix(all, k, j);
          var go := layer[j];
          if hit(go) && found {
            CyclingReturn(seen, go, t, current, hit);
            return Some(go);
          } else if go == current {
            found := true;
          }
          CyclingStep(seen, go, current, hit, found);
          seen := seen + [go];
        }
        SeenLayer(all, k);
        if k + 1 < layers.Length {
          assert Seen(all, k + 1, 0) == Flatten(all[..k + 1]) by {
            assert all[k + 1][..0] == [];
          }
        }
      }
      CyclingFallback(t, current, hit, found);
      r := ObjectAt(hit);
    }
  }

  /** The state of the `nextGraphicObjectAt` scan after the objects `seen`: `found_current`
    * tells whether `current` was met, and nothing after its first occurrence was hit. */
  predicate Cycling(seen: seq<GraphicObject>, current: GraphicObject, hit: GraphicObject -> bool, found: bool)
  {
    (found <==> current in seen) && (found ==> NoHit(seen[IndexOf(seen, current) + 1..], hit))
  }

  lemma CyclingStep(seen: seq<GraphicObject>, go: GraphicObject, current: GraphicObject, hit: GraphicObject -> bool, found: bool)
    requires Cycling(seen, current, hit, found && current in seen)
    requires found <==> current in seen || go == current
    requires found && current in seen ==> !hit(go)
    ensures Cycling(seen + [go], current, hit, found)
  {
    if found {
      IndexOfExtend(seen, go, current);
      if current in seen {
        var i := IndexOf(seen, current);
        assert (seen + [go])[i + 1..] == seen[i + 1..] + [go];
      } else {
        assert (seen + [go])[|seen| + 1..] == [];
      }
    }
  }

  lemma CyclingReturn(seen: seq<GraphicObject>, go: GraphicObject, t: seq<GraphicObject>, current: GraphicObject, hit: GraphicObject -> bool)
    requires Cycling(seen, current, hit, true) && hit(go) && seen + [go] <= t
    ensures NextHit(t, hit, current) == Some(go)
  {
    var i := IndexOf(seen, current);
    PrefixIndexOf(seen, t, current);
    assert seen[i + 1..] + [go] <= t[i + 1..];
    FirstHitAfterMisses(seen[i + 1..], go, t[i + 1..], hit);
  }

  lemma CyclingFallback(t: seq<GraphicObject>, current: GraphicObject, hit: GraphicObject -> bool, found: bool)
    requires Cycling(t, current, hit, found)
    ensures NextHit(t, hit, current) == FirstHit(t, hit)
  {
    if found {
      FirstHitNone(t[IndexOf(t, current) + 1..], hit);
    }
  }

  lemma {:induction false} PrefixIndexOf(p: seq<GraphicObject>, t: seq<GraphicObject>, x: GraphicObject)
    requires x in p && p <= t
    ensures x in t && IndexOf(t, x) == IndexOf(p, x)
  {
    if p[0] != x {
      assert p[1..] <= t[1..];
      PrefixIndexOf(p[1..], t[1..], x);
    }
  }

  lemma IndexOfExtend(p: seq<GraphicObject>, go: GraphicObject, x: GraphicObject)
    requires x in p + [go]
    ensures x in p ==> IndexOf(p + [go], x) == IndexOf(p, x)
    ensures x !in p ==> IndexOf(p + [go], x) == |p|
  {
    if x in p {
      PrefixIndexOf(p, p + [go], x);
    }
  }
}
