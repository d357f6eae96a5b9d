/** The Python `plot()` wrapper of `SciQLopPlots/__init__.py`: it merges the named keyword
  * arguments into `**kwargs` and picks `line`, `parametric_curve` or `colormap` from the number
  * of positional arguments and the graph type. A call is modelled by the constructor it reaches
  * and the arguments it passes on. */
module PlotDispatch {
  import opened Common

  datatype GraphType = Line | ParametricCurve | Scatter | ColorMap

  /** A Python argument value; `PyNone` is `None`. */
  datatype PyValue = PyNone | PyObject(id: int)

  type Kwargs = map<string, PyValue>

  /** The bound method a call reaches, with its positional and keyword arguments; `NoCall` is
    * the `None` that is returned without calling anything. */
  datatype Call =
    | LineCall(args: seq<PyValue>, kwargs: Kwargs)
    | ParametricCurveCall(args: seq<PyValue>, kwargs: Kwargs)
    | ColormapCall(args: seq<PyValue>, kwargs: Kwargs)
    | NoCall

  /** The keys of a `**kwargs2` dictionary are distinct. */
  predicate DistinctKeys(extra: seq<(string, PyValue)>)
  {
    forall i, j :: 0 <= i < j < |extra| ==> extra[i].0 != extra[j].0
  }

  /** The dictionary after `_merge_kwargs` has looked at the items of `extra` in order. */
  function Merged(kwargs: Kwargs, extra: seq<(string, PyValue)>): Kwargs
    decreases |extra|
  {
    if extra == [] then kwargs
    else
      var k, v := extra[0].0, extra[0].1;
      Merged(if k !in kwargs && v != PyNone then kwargs[k := v] else kwargs, extra[1..])
  }

  /** `_merge_kwargs(kwargs, **kwargs2)`: each item is added when its key is absent and its
    * value is not `None`. */
  method MergeKwargs(kwargs: Kwargs, extra: seq<(string, PyValue)>) returns (r: Kwargs)
    ensures r == Merged(kwargs, extra)
  {
    r := kwargs;
    var i := 0;
    while i < |extra|
      invariant i <= |extra|
      invariant Merged(r, extra[i..]) == Merged(kwargs, extra)
    {
      var k, v := extra[i].0, extra[i].1;
      assert extra[i..][1..] == extra[i + 1..];
      if k !in r && v != PyNone {
        r := r[k := v];
      }
      i := i + 1;
    }
  }

  /** Keys already present are never overwritten, absent keys with a value are added, and
    * nothing else is. */
  lemma {:induction false} MergedProperties(kwargs: Kwargs, extra: seq<(string, PyValue)>)
    requires DistinctKeys(extra)
    ensures forall k :: k in kwargs ==> k in Merged(kwargs, extra) && Merged(kwargs, extra)[k] == kwargs[k]
    ensures forall i :: 0 <= i < |extra| && extra[i].0 !in kwargs && extra[i].1 != PyNone ==>
              extra[i].0 in Merged(kwargs, extra) && Merged(kwargs, extra)[extra[i].0] == extra[i].1
    ensures forall k :: k in Merged(kwargs, extra) && k !in kwargs ==>
              exists i :: 0 <= i < |extra| && extra[i].0 == k && extra[i].1 != PyNone
    decreases |extra|
  {
    if extra != [] {
      var k, v := extra[0].0, extra[0].1;
      var next := if k !in kwargs && v != PyNone then kwargs[k := v] else kwargs;
      var rest := extra[1..];
      assert DistinctKeys(rest);
      MergedProperties(next, rest);
      forall i | 0 <= i < |extra| && extra[i].0 !in kwargs && extra[i].1 != PyNone
        ensures extra[i].0 in Merged(kwargs, extra) && Merged(kwargs, extra)[extra[i].0] == extra[i].1
      {
        if i > 0 {
          assert rest[i - 1] == extra[i];
          assert extra[i].0 !in next;
        }
      }
      forall key | key in Merged(kwargs, extra) && key !in kwargs
        ensures exists i :: 0 <= i < |extra| && extra[i].0 == key && extra[i].1 != PyNone
      {
        if key !in next {
          var j :| 0 <= j < |rest| && rest[j].0 == key && rest[j].1 != PyNone;
          assert extra[j + 1] == rest[j];
        }
      }
    }
  }

  /** `{k: v for k, v in kwargs.items() if v is not None}`. */
  function WithoutNone(kwargs: Kwargs): (r: Kwargs)
    ensures forall k :: k in r <==> k in kwargs && kwargs[k] != PyNone
    ensures forall k :: k in r ==> r[k] == kwargs[k]
  {
    map k | k in kwargs && kwargs[k] != PyNone :: kwargs[k]
  }

  /** `plot_func(self, callback, graph_type, **kwargs)`: the `None` keyword values are dropped and
    * the graph type picks the constructor; a scatter or a missing type gives `None`. */
  function PlotFunc(callback: PyValue, graphType: Option<GraphType>, kwargs: Kwargs): Call
  {
    var kw := WithoutNone(kwargs);
    if graphType == Some(ParametricCurve) then ParametricCurveCall([callback], kw)
    else if graphType == Some(Line) then LineCall([callback], kw)
    else if graphType == Some(ColorMap) then ColormapCall([callback], kw)
    else NoCall
  }

  /** `plot(self, *args, name, labels, colors, graph_type, **kwargs)`. */
  function Plot(args: seq<PyValue>, name: PyValue, labels: PyValue, colors: PyValue,
                graphType: Option<GraphType>, kwargs: Kwargs): Call
  {
    var gt := if graphType.None? then Line else graphType.value;
    var kw := Merged(kwargs, [("name", name), ("labels", labels), ("colors", colors)]);
    if gt == ParametricCurve && |args| in {1, 2, 4} then ParametricCurveCall(args, kw)
    else if |args| == 1 then PlotFunc(args[0], Some(gt), kw)
    else if |args| == 2 && gt == Line then LineCall(args, kw)
    else if |args| == 3 then ColormapCall(args, kw)
    else NoCall
  }

  // ---- properties ----

  /** A missing graph type is a line. */
  lemma NoGraphTypeIsLine(args: seq<PyValue>, name: PyValue, labels: PyValue, colors: PyValue,
                          kwargs: Kwargs)
    ensures Plot(args, name, labels, colors, None, kwargs) == Plot(args, name, labels, colors, Some(Line), kwargs)
  {
  }

  /** The routing rules of `plot`, one per arity. */
  lemma PlotRouting(args: seq<PyValue>, name: PyValue, labels: PyValue, colors: PyValue,
                    gt: GraphType, kwargs: Kwargs)
    ensures var c := Plot(args, name, labels, colors, Some(gt), kwargs);
      var kw := Merged(kwargs, [("name", name), ("labels", labels), ("colors", colors)]);
      && (gt == ParametricCurve && |args| in {1, 2, 4} ==> c == ParametricCurveCall(args, kw))
      && (|args| == 1 && gt == Line ==> c == LineCall(args, WithoutNone(kw)))
      && (|args| == 1 && gt == ColorMap ==> c == ColormapCall(args, WithoutNone(kw)))
      && (|args| == 1 && gt == Scatter ==> c == NoCall)
      && (|args| == 2 && gt == Line ==> c == LineCall(args, kw))
      && (|args| == 2 && gt in {Scatter, ColorMap} ==> c == NoCall)
      && (|args| == 3 ==> c == ColormapCall(args, kw))
      && (|args| !in {1, 2, 3} && !(gt == ParametricCurve && |args| == 4) ==> c == NoCall)
  {
    if |args| == 1 {
      assert args == [args[0]];
    }
  }

  /** The named arguments reach the constructor only when they are not `None` and the caller did
    * not already pass them in `**kwargs`. */
  lemma NamedArgumentsMerge(kwargs: Kwargs, name: PyValue, labels: PyValue, colors: PyValue)
    ensures var kw := Merged(kwargs, [("name", name), ("labels", labels), ("colors", colors)]);
      && (forall k :: k in kwargs ==> k in kw && kw[k] == kwargs[k])
      && ("name" !in kwargs && name != PyNone ==> "name" in kw && kw["name"] == name)
      && ("name" !in kwargs && name == PyNone ==> "name" !in kw)
      && (forall k :: k in kw ==> k in kwargs || k in {"name", "labels", "colors"})
  {
    var extra := [("name", name), ("labels", labels), ("colors", colors)];
    MergedProperties(kwargs, extra);
    forall k | k in Merged(kwargs, extra) ensures k in kwargs || k in {"name", "labels", "colors"} {
      if k !in kwargs {
        var i :| 0 <= i < |extra| && extra[i].0 == k && extra[i].1 != PyNone;
      }
    }
  }

  /** `plot_func` never passes a `None` keyword value on. */
  lemma PlotFuncDropsNone(callback: PyValue, gt: Option<GraphType>, kwargs: Kwargs)
    ensures var c := PlotFunc(callback, gt, kwargs);
      c != NoCall ==> c.args == [callback] && forall k :: k in c.kwargs ==> c.kwargs[k] != PyNone
    ensures PlotFunc(callback, gt, kwargs) == NoCall <==> gt !in {Some(Line), Some(ParametricCurve), Some(ColorMap)}
  {
  }
}
