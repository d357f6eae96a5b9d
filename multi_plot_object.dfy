/** `SciQLopMultiPlotObject` (`src/SciQLopMultiPlotObject.cpp`): an object that follows the plot
  * list of a panel, calling its `addObject` hook for each plot that appears and `removeObject`
  * for each that disappears. The list updates common to every multi-plot object, and the index
  * loop that removes while it walks, are defined here. */
module MultiPlotObjects {
  import opened Common

  /** A plot, by identity. */
  type PlotId = nat

  // ---- appending the plots that are new ----

  /** The first loop of `updatePlotList`: each plot of `ps`, in order, is appended unless the list
    * already holds it. */
  function Appended(existing: seq<PlotId>, ps: seq<PlotId>): seq<PlotId>
    decreases |ps|
  {
    if ps == [] then existing
    else
      var e := Appended(existing, ps[..|ps| - 1]);
      if ps[|ps| - 1] in e then e else e + [ps[|ps| - 1]]
  }

  /** The plots `Appended` adds, in the order it adds them: the `addObject` calls. */
  function Additions(existing: seq<PlotId>, ps: seq<PlotId>): seq<PlotId>
    decreases |ps|
  {
    if ps == [] then []
    else
      var e := Appended(existing, ps[..|ps| - 1]);
      if ps[|ps| - 1] in e then Additions(existing, ps[..|ps| - 1])
      else Additions(existing, ps[..|ps| - 1]) + [ps[|ps| - 1]]
  }

  predicate NoDuplicates(s: seq<PlotId>)
  {
    forall i, j :: 0 <= i < j < |s| ==> s[i] != s[j]
  }

  /** The existing list is kept as a prefix and followed by exactly the additions; the result
    * holds every plot of `ps` and nothing that is in neither list; no plot is added twice nor
    * one that was already there, so a list without duplicates keeps none. */
  lemma {:induction false} AppendedProperties(existing: seq<PlotId>, ps: seq<PlotId>)
    ensures Appended(existing, ps) == existing + Additions(existing, ps)
    ensures forall p :: p in ps ==> p in Appended(existing, ps)
    ensures forall p :: p in Appended(existing, ps) ==> p in existing || p in ps
    ensures forall p :: p in Additions(existing, ps) ==> p !in existing && p in ps
    ensures NoDuplicates(existing) ==> NoDuplicates(Appended(existing, ps))
    decreases |ps|
  {
    if ps != [] {
      var init, x := ps[..|ps| - 1], ps[|ps| - 1];
      AppendedProperties(existing, init);
      var e := Appended(existing, init);
      assert forall p :: p in ps <==> p in init || p == x;
      if x !in e {
        assert Appended(existing, ps) == e + [x];
        assert Additions(existing, ps) == Additions(existing, init) + [x];
        assert existing + (Additions(existing, init) + [x]) == (existing + Additions(existing, init)) + [x];
        if NoDuplicates(existing) {
          NoDuplicatesSnoc(e, x);
        }
      }
    }
  }

  /** A plot not yet in a list without duplicates can be added without making one. */
  lemma NoDuplicatesSnoc(s: seq<PlotId>, x: PlotId)
    requires NoDuplicates(s) && x !in s
    ensures NoDuplicates(s + [x])
  {
    var t := s + [x];
    forall i, j | 0 <= i < j < |t|
      ensures t[i] != t[j]
    {
      if j == |s| {
        assert t[i] == s[i] && t[j] == x;
      } else {
        assert t[i] == s[i] && t[j] == s[j];
      }
    }
  }

  // ---- removing the plots that are gone ----

  /** `xs` without the entries `drop` holds for, order kept: what removing every stale entry
    * gives. */
  function Kept<T>(xs: seq<T>, drop: T -> bool): seq<T>
    decreases |xs|
  {
    if xs == [] then []
    else if drop(xs[0]) then Kept(xs[1..], drop)
    else [xs[0]] + Kept(xs[1..], drop)
  }

  /** `Kept` keeps exactly the entries `drop` rejects. */
  lemma {:induction false} KeptMembers<T>(xs: seq<T>, drop: T -> bool)
    ensures forall x :: x in Kept(xs, drop) <==> x in xs && !drop(x)
    ensures |Kept(xs, drop)| <= |xs|
    decreases |xs|
  {
    if xs != [] {
      KeptMembers(xs[1..], drop);
    }
  }

  /** An index loop `for (i = 0; i < size(); ++i) if (drop(xs[i])) xs.removeAt(i);`: after a
    * removal the entry that moves into slot i is stepped over. */
  function SkipRemoval<T>(xs: seq<T>, drop: T -> bool): seq<T>
    decreases |xs|
  {
    if xs == [] then []
    else if drop(xs[0]) then (if |xs| == 1 then [] else [xs[1]] + SkipRemoval(xs[2..], drop))
    else [xs[0]] + SkipRemoval(xs[1..], drop)
  }

  /** The skipping loop keeps every entry it should, in order, and removes only entries it
    * should: filtered again it gives `Kept`, and it is a sub-list of the input. */
  lemma {:induction false} SkipRemovalKeepsKept<T>(xs: seq<T>, drop: T -> bool)
    ensures Kept(SkipRemoval(xs, drop), drop) == Kept(xs, drop)
    ensures forall x :: x in SkipRemoval(xs, drop) ==> x in xs
    ensures |SkipRemoval(xs, drop)| <= |xs|
    decreases |xs|
  {
    if xs != [] {
      if drop(xs[0]) {
        if |xs| > 1 {
          SkipRemovalKeepsKept(xs[2..], drop);
          assert xs[1..][1..] == xs[2..];
          assert forall x :: x in xs[2..] ==> x in xs;
        }
      } else {
        SkipRemovalKeepsKept(xs[1..], drop);
      }
    }
  }

  /** When no two adjacent entries are to be removed, the step-over is harmless: the loop
    * removes everything it should. */
  lemma {:induction false} SkipRemovalExactWhenApart<T>(xs: seq<T>, drop: T -> bool)
    requires forall i :: 0 <= i < |xs| - 1 ==> !(drop(xs[i]) && drop(xs[i + 1]))
    ensures SkipRemoval(xs, drop) == Kept(xs, drop)
    decreases |xs|
  {
    if xs != [] {
      if drop(xs[0]) {
        if |xs| > 1 {
          assert !drop(xs[1]);
          var ys := xs[2..];
          forall i | 0 <= i < |ys| - 1
            ensures !(drop(ys[i]) && drop(ys[i + 1]))
          {
            assert ys[i] == xs[i + 2] && ys[i + 1] == xs[i + 3];
          }
          SkipRemovalExactWhenApart(ys, drop);
          assert xs[1..][1..] == xs[2..];
        }
      } else {
        var ys := xs[1..];
        forall i | 0 <= i < |ys| - 1
          ensures !(drop(ys[i]) && drop(ys[i + 1]))
        {
          assert ys[i] == xs[i + 1] && ys[i + 1] == xs[i + 2];
        }
        SkipRemovalExactWhenApart(ys, drop);
      }
    }
  }

  /** Two adjacent entries to remove: the second survives. */
  lemma SkipRemovalMissesSecond<T>(a: T, b: T, drop: T -> bool)
    requires drop(a) && drop(b)
    ensures SkipRemoval([a, b], drop) == [b] && Kept([a, b], drop) == []
  {
    assert [a, b][2..] == [];
    assert [a, b][1..] == [b];
    assert [b][1..] == [];
    assert SkipRemoval([a, b], drop) == [[a, b][1]] + SkipRemoval([a, b][2..], drop);
    assert Kept([a, b], drop) == Kept([b], drop) == Kept([b][1..], drop);
  }

  /** One state of the skipping loop: entries before `i` are final, the rest is still to walk;
    * `i` is one past the end when the last entry was just removed. */
  function SkipState<T>(xs: seq<T>, i: nat, drop: T -> bool): seq<T>
  {
    if i <= |xs| then xs[..i] + SkipRemoval(xs[i..], drop) else xs
  }

  /** One iteration of the skipping loop preserves what it will end with. */
  lemma SkipStep<T>(xs: seq<T>, i: nat, drop: T -> bool)
    requires i < |xs|
    ensures drop(xs[i]) ==> SkipState(RemoveAt(xs, i), i + 1, drop) == SkipState(xs, i, drop)
    ensures !drop(xs[i]) ==> SkipState(xs, i + 1, drop) == SkipState(xs, i, drop)
  {
    if drop(xs[i]) {
      var r := RemoveAt(xs, i);
      if i + 1 < |xs| {
        assert r[..i + 1] == xs[..i] + [xs[i + 1]];
        assert r[i + 1..] == xs[i + 2..];
        assert xs[i..][2..] == xs[i + 2..];
        assert xs[i..][1] == xs[i + 1];
      } else {
        assert r == xs[..i];
        assert xs[i..] == [xs[i]];
      }
    } else {
      assert xs[i..] == [xs[i]] + xs[i + 1..];
      assert xs[..i + 1] == xs[..i] + [xs[i]];
    }
  }

  // ---- the range-for of updatePlotList, as written ----

  /** The second loop of `updatePlotList` as written: a range-for over `m_plots` that calls
    * `removeOne` on the list it walks. The iterator goes on for the `n` positions fixed when the
    * loop began, from position `p`, over a list that shrinks; `None` once it reads a position
    * past the current end, which is undefined behaviour. On a list without duplicates
    * `removeOne(plot)` removes position `p`. */
  function RangeForRemove<T>(xs: seq<T>, p: nat, n: nat, drop: T -> bool): Option<seq<T>>
    decreases n
  {
    if n == 0 then Some(xs)
    else if p >= |xs| then None
    else if drop(xs[p]) then RangeForRemove(RemoveAt(xs, p), p + 1, n - 1, drop)
    else RangeForRemove(xs, p + 1, n - 1, drop)
  }

  /** More positions left to visit than the list has beyond `p`: the loop reads past the end. */
  lemma {:induction false} RangeForOverruns<T>(xs: seq<T>, p: nat, n: nat, drop: T -> bool)
    requires n > 0 && p + n > |xs|
    ensures RangeForRemove(xs, p, n, drop) == None
    decreases n
  {
    if p < |xs| {
      if drop(xs[p]) {
        RangeForOverruns(RemoveAt(xs, p), p + 1, n - 1, drop);
      } else {
        RangeForOverruns(xs, p + 1, n - 1, drop);
      }
    }
  }

  /** Removing any plot but the last one visited makes the loop read past the end of the list. */
  lemma {:induction false} RangeForRemoveReadsPastEnd<T>(xs: seq<T>, p: nat, drop: T -> bool)
    requires p <= |xs|
    requires exists i :: p <= i < |xs| - 1 && drop(xs[i])
    ensures RangeForRemove(xs, p, |xs| - p, drop) == None
    decreases |xs| - p
  {
    if drop(xs[p]) {
      RangeForOverruns(RemoveAt(xs, p), p + 1, |xs| - p - 1, drop);
    } else {
      RangeForRemoveReadsPastEnd(xs, p + 1, drop);
    }
  }

  /** For example plots [a, b] with a gone. */
  lemma RangeForRemoveExample(a: PlotId, b: PlotId)
    requires a != b
    ensures RangeForRemove([a, b], 0, 2, (p: PlotId) => p == a) == None
  {
    var drop := (p: PlotId) => p == a;
    assert drop([a, b][0]);
    RangeForRemoveReadsPastEnd([a, b], 0, drop);
  }

  // ---- the object ----

  /** A call of one of the two virtual hooks. */
  datatype Hook = AddObject(plot: PlotId) | RemoveObject(plot: PlotId)

  function AddCalls(ps: seq<PlotId>): (r: seq<Hook>)
    ensures |r| == |ps| && forall i :: 0 <= i < |ps| ==> r[i] == AddObject(ps[i])
    decreases |ps|
  {
    if ps == [] then [] else AddCalls(ps[..|ps| - 1]) + [AddObject(ps[|ps| - 1])]
  }

  function RemoveCalls(ps: seq<PlotId>): (r: seq<Hook>)
    ensures |r| == |ps| && forall i :: 0 <= i < |ps| ==> r[i] == RemoveObject(ps[i])
    decreases |ps|
  {
    if ps == [] then [] else RemoveCalls(ps[..|ps| - 1]) + [RemoveObject(ps[|ps| - 1])]
  }

  /** Whether a plot is absent from the new list. */
  function Gone(plots: seq<PlotId>): PlotId -> bool
  {
    (p: PlotId) => p !in plots
  }

  /** The plots that disappear, in list order. */
  function Removed(xs: seq<PlotId>, plots: seq<PlotId>): seq<PlotId>
    decreases |xs|
  {
    if xs == [] then []
    else if xs[0] !in plots then [xs[0]] + Removed(xs[1..], plots)
    else Removed(xs[1..], plots)
  }

  /** A plot is reported gone exactly when it is in the old list and not in the new one. */
  lemma {:induction false} RemovedMembers(xs: seq<PlotId>, plots: seq<PlotId>)
    ensures forall p :: p in Removed(xs, plots) <==> p in xs && p !in plots
    decreases |xs|
  {
    if xs != [] {
      RemovedMembers(xs[1..], plots);
    }
  }

  /** The object alone, whose hooks do nothing: `m_plots` and the hook calls made, oldest
    * first. */
  class MultiPlotObject {
    var plots: seq<PlotId>
    var calls: seq<Hook>
    /** The plots asked for a queued replot, in order. */
    var replotted: seq<PlotId>

    constructor Empty()
      ensures plots == [] && calls == [] && replotted == []
    {
      plots, calls, replotted := [], [], [];
    }

    /** The constructor throws `std::runtime_error` when the parent is not a `QObject`; otherwise
      * it connects the parent's `plotListChanged` and starts with no plot. */
    static method Create(parentIsQObject: bool) returns (r: Result<MultiPlotObject>)
      ensures r.Ok? <==> parentIsQObject
      ensures r.Err? ==> r.error == "Invalid parent type"
      ensures r.Ok? ==> fresh(r.value) && r.value.plots == [] && r.value.calls == []
    {
      if parentIsQObject {
        var o := new MultiPlotObject.Empty();
        r := Ok(o);
      } else {
        r := Err("Invalid parent type");
      }
    }

    /** `replotAll`: a queued replot of every plot. */
    method ReplotAll()
      modifies this
      ensures replotted == old(replotted) + plots && plots == old(plots) && calls == old(calls)
    {
      replotted := replotted + plots;
    }

    /** `updatePlotList`: every plot of the new list not yet held is appended, with one
      * `addObject` each; then every held plot the new list lacks is removed, with one
      * `removeObject` each. The second loop is written here over a copy of the list: the
      * source walks the list it removes from (see `RangeForRemove`). */
    method UpdatePlotList(newPlots: seq<PlotId>)
      modifies this
      ensures plots == Kept(Appended(old(plots), newPlots), Gone(newPlots))
      ensures calls == old(calls) + AddCalls(Additions(old(plots), newPlots))
                       + RemoveCalls(Removed(Appended(old(plots), newPlots), newPlots))
      ensures replotted == old(replotted)
    {
      AppendNew(newPlots);
      RemoveGone(newPlots);
    }

    /** The first loop of `updatePlotList`. */
    method AppendNew(newPlots: seq<PlotId>)
      modifies this
      ensures plots == Appended(old(plots), newPlots)
      ensures calls == old(calls) + AddCalls(Additions(old(plots), newPlots))
      ensures replotted == old(replotted)
    {
      ghost var added: seq<PlotId> := [];
      for i := 0 to |newPlots|
        invariant plots == Appended(old(plots), newPlots[..i])
        invariant added == Additions(old(plots), newPlots[..i])
        invariant calls == old(calls) + AddCalls(added)
        invariant replotted == old(replotted)
      {
        assert newPlots[..i + 1][..i] == newPlots[..i];
        if newPlots[i] !in plots {
          plots := plots + [newPlots[i]];
          AddCallsSnoc(added, newPlots[i]);
          added := added + [newPlots[i]];
          calls := calls + [AddObject(newPlots[i])];
        }
      }
      assert newPlots[..|newPlots|] == newPlots;
    }

    /** The second loop of `updatePlotList`, over a copy of the list. */
    method RemoveGone(newPlots: seq<PlotId>)
      modifies this
      ensures plots == Kept(old(plots), Gone(newPlots))
      ensures calls == old(calls) + RemoveCalls(Removed(old(plots), newPlots))
      ensures replotted == old(replotted)
    {
      var kept, removed := SplitGone(plots, newPlots);
      calls := calls + RemoveCalls(removed);
      plots := kept;
    }
  }

  /** The walk of the second loop of `updatePlotList` over a copy of `xs`: the plots that stay
    * and, in order, those passed to `removeObject`. */
  method SplitGone(xs: seq<PlotId>, newPlots: seq<PlotId>) returns (kept: seq<PlotId>, removed: seq<PlotId>)
    ensures kept == Kept(xs, Gone(newPlots)) && removed == Removed(xs, newPlots)
  {
    kept, removed := [], [];
    for i := 0 to |xs|
      invariant kept + Kept(xs[i..], Gone(newPlots)) == Kept(xs, Gone(newPlots))
      invariant removed + Removed(xs[i..], newPlots) == Removed(xs, newPlots)
    {
      RemoveGoneStep(xs, i, newPlots);
      if xs[i] !in newPlots {
        removed := removed + [xs[i]];
      } else {
        kept := kept + [xs[i]];
      }
    }
    assert xs[|xs|..] == [];
  }

  /** One entry of the removal walk: it goes to the kept list or to the removed one. */
  lemma RemoveGoneStep(xs: seq<PlotId>, i: nat, plots: seq<PlotId>)
    requires i < |xs|
    ensures xs[i] in plots ==> Kept(xs[i..], Gone(plots)) == [xs[i]] + Kept(xs[i + 1..], Gone(plots))
    ensures xs[i] in plots ==> Removed(xs[i..], plots) == Removed(xs[i + 1..], plots)
    ensures xs[i] !in plots ==> Kept(xs[i..], Gone(plots)) == Kept(xs[i + 1..], Gone(plots))
    ensures xs[i] !in plots ==> Removed(xs[i..], plots) == [xs[i]] + Removed(xs[i + 1..], plots)
  {
    assert xs[i..][1..] == xs[i + 1..];
    assert xs[i..][0] == xs[i];
  }

  lemma AddCallsSnoc(ps: seq<PlotId>, p: PlotId)
    ensures AddCalls(ps + [p]) == AddCalls(ps) + [AddObject(p)]
  {
    assert (ps + [p])[..|ps|] == ps;
  }

  lemma RemoveCallsSnoc(ps: seq<PlotId>, p: PlotId)
    ensures RemoveCalls(ps + [p]) == RemoveCalls(ps) + [RemoveObject(p)]
  {
    assert (ps + [p])[..|ps|] == ps;
  }

  /** After an update the object holds exactly the plots of the new list, each once, in the
    * order they were first met: the old ones that stay, then the new ones. */
  lemma UpdateHoldsNewPlots(old_: seq<PlotId>, newPlots: seq<PlotId>)
    requires NoDuplicates(old_)
    ensures var r := Kept(Appended(old_, newPlots), Gone(newPlots));
            && (forall p :: p in r <==> p in newPlots)
            && NoDuplicates(r)
  {
    var a := Appended(old_, newPlots);
    AppendedProperties(old_, newPlots);
    KeptMembers(a, Gone(newPlots));
    KeptNoDuplicates(a, Gone(newPlots));
  }

  lemma {:induction false} KeptNoDuplicates(xs: seq<PlotId>, drop: PlotId -> bool)
    requires NoDuplicates(xs)
    ensures NoDuplicates(Kept(xs, drop))
    decreases |xs|
  {
    if xs != [] {
      assert NoDuplicates(xs[1..]) by {
        forall i, j | 0 <= i < j < |xs[1..]| ensures xs[1..][i] != xs[1..][j] {
          assert xs[1..][i] == xs[i + 1] && xs[1..][j] == xs[j + 1];
        }
      }
      KeptNoDuplicates(xs[1..], drop);
      KeptMembers(xs[1..], drop);
      assert xs[0] !in xs[1..];
    }
  }
}
