/**
 * Functions drawn or fitted next to the plotted objects (`FunctionPlot`):
 * argument preparation (ranges, nicknames, parameters) and the dispatch in `run`
 * and `create_function` between a plain function, a ROOT fit and a RooFit fit.
 *
 * The ROOT objects built (`TF1`, fitted `TF1`, `RooCurve`) and the number of
 * parameters of a formula are uninterpreted functions in `FitOps`; float parsing
 * is the parameter `parse`.
 */
module FunctionPlot {
  import opened Wrappers
  import opened PyValues
  import opened Strings

  /** The keys broadcast to lists before preparation. */
  const FunctionKeys: set<string> :=
    {"functions", "function_parameters", "function_nicknames", "function_fit", "function_ranges", "fit_backend"}

  // ---------------------------------------------------------------------------
  // Range derived from the object store (functionplot.py:37-43)

  /** `v` is the least value of `m`. */
  ghost predicate IsLeast(m: map<string, real>, v: real) {
    (exists k :: k in m && m[k] == v) && forall k :: k in m ==> v <= m[k]
  }

  lemma {:induction false} LeastExists(m: map<string, real>)
    requires m != map[]
    ensures exists v :: IsLeast(m, v)
    decreases |m|
  {
    var k :| k in m;
    var rest := m - {k};
    if rest == map[] {
      assert m.Keys == rest.Keys + {k};
      assert IsLeast(m, m[k]);
    } else {
      assert |rest| < |m| by {
        assert rest.Keys < m.Keys;
      }
      LeastExists(rest);
      var v :| IsLeast(rest, v);
      var w :| w in rest && rest[w] == v;
      var least := if m[k] <= v then m[k] else v;
      forall j | j in m
        ensures least <= m[j]
      {
        if j != k {
          assert j in rest;
        }
      }
      assert least == m[k] || (w in m && m[w] == least);
      assert IsLeast(m, least);
    }
  }

  ghost function Least(m: map<string, real>): (v: real)
    requires m != map[]
    ensures IsLeast(m, v)
  {
    LeastExists(m);
    var v :| IsLeast(m, v);
    v
  }

  ghost function Lows(store: Store): map<string, real> {
    map k | k in store :: store[k].xAxis.low
  }

  ghost function Highs(store: Store): map<string, real> {
    map k | k in store :: store[k].xAxis.high
  }

  /**
   * `[min(x_low), min(x_high)]` over all stored objects: the least lower edge and
   * the least (not the greatest) upper edge.  `min` of an empty list raises ValueError.
   */
  ghost function DerivedRange(store: Store): (r: Result<Value>)
    ensures r.Err? <==> store == map[]
    ensures r.Err? ==> r.failure == ValueError
  {
    if store == map[] then Err(ValueError)
    else
      assert Lows(store) != map[] && Highs(store) != map[] by {
        var k :| k in store;
        assert k in Lows(store) && k in Highs(store);
      }
      Ok(VList([VReal(Least(Lows(store))), VReal(Least(Highs(store)))]))
  }

  /** The derived range is the least lower edge and the least upper edge of the stored objects. */
  lemma DerivedRangeBounds(store: Store)
    requires store != map[]
    ensures var r := DerivedRange(store).value;
            && r.VList? && |r.items| == 2 && r.items[0].VReal? && r.items[1].VReal?
            && (exists k :: k in store && store[k].xAxis.low == r.items[0].r)
            && (forall k :: k in store ==> r.items[0].r <= store[k].xAxis.low)
            && (exists k :: k in store && store[k].xAxis.high == r.items[1].r)
            && (forall k :: k in store ==> r.items[1].r <= store[k].xAxis.high)
  {
    var r := DerivedRange(store).value;
    var lo, hi := Least(Lows(store)), Least(Highs(store));
    var a :| a in Lows(store) && Lows(store)[a] == lo;
    var b :| b in Highs(store) && Highs(store)[b] == hi;
    assert store[a].xAxis.low == r.items[0].r;
    assert store[b].xAxis.high == r.items[1].r;
    forall k | k in store
      ensures r.items[0].r <= store[k].xAxis.low && r.items[1].r <= store[k].xAxis.high
    {
      assert k in Lows(store) && k in Highs(store);
    }
  }

  /** Python's `min(list)` of a non-empty list. */
  function SeqMin(s: seq<real>): (m: real)
    requires s != []
    ensures m in s && forall x :: x in s ==> m <= x
  {
    if |s| == 1 then s[0]
    else
      var rest := SeqMin(s[1..]);
      assert forall x :: x in s ==> x == s[0] || x in s[1..];
      if s[0] <= rest then s[0] else rest
  }

  /** `xs` holds exactly the edges of the objects under `keys`. */
  ghost predicate HoldsEdges(xs: seq<real>, edges: map<string, real>, keys: set<string>) {
    forall x :: x in xs <==> exists k :: k in keys && k in edges && edges[k] == x
  }

  /** A value of an exact edge list is the edge of some stored object. */
  lemma EdgeOfSome(xs: seq<real>, edges: map<string, real>, keys: set<string>, x: real)
    requires HoldsEdges(xs, edges, keys) && x in xs
    ensures exists k :: k in keys && k in edges && edges[k] == x
  {
  }

  /** Appending the edge of one more object keeps the list exact. */
  lemma EdgesAppend(xs: seq<real>, edges: map<string, real>, keys: set<string>, key: string)
    requires key in edges && HoldsEdges(xs, edges, keys)
    ensures HoldsEdges(xs + [edges[key]], edges, keys + {key})
  {
    forall x
      ensures x in xs + [edges[key]] <==> exists k :: k in keys + {key} && k in edges && edges[k] == x
    {
      if x in xs + [edges[key]] && x != edges[key] {
        assert x in xs;
      }
      if exists k :: k in keys + {key} && k in edges && edges[k] == x {
        var k :| k in keys + {key} && k in edges && edges[k] == x;
        if k != key {
          assert x in xs;
        }
      }
    }
  }

  /** The loop over `root_objects.iteritems()` collecting the edges, then the two minima. */
  method DeriveRange(store: Store) returns (r: Result<Value>)
    ensures r == DerivedRange(store)
  {
    var xHigh: seq<real> := [];
    var xLow: seq<real> := [];
    var remaining := store.Keys;
    ghost var visited: set<string> := {};
    while remaining != {}
      invariant visited + remaining == store.Keys && visited !! remaining
      invariant HoldsEdges(xLow, Lows(store), visited) && HoldsEdges(xHigh, Highs(store), visited)
      invariant (xLow == []) == (visited == {}) && (xHigh == []) == (visited == {})
      decreases |remaining|
    {
      var key :| key in remaining;
      EdgesAppend(xHigh, Highs(store), visited, key);
      EdgesAppend(xLow, Lows(store), visited, key);
      xHigh := xHigh + [store[key].xAxis.high];
      xLow := xLow + [store[key].xAxis.low];
      remaining := remaining - {key};
      visited := visited + {key};
    }
    if xLow == [] {
      assert store.Keys == {};
      return Err(ValueError);
    }
    assert visited == store.Keys;
    RangeOfEdges(store, xLow, xHigh);
    var lo, hi := SeqMin(xLow), SeqMin(xHigh);
    r := Ok(VList([VReal(lo), VReal(hi)]));
  }

  /** Lists holding exactly the stored lower and upper edges have the derived range as their minima. */
  lemma RangeOfEdges(store: Store, xLow: seq<real>, xHigh: seq<real>)
    requires xLow != [] && xHigh != []
    requires HoldsEdges(xLow, Lows(store), store.Keys) && HoldsEdges(xHigh, Highs(store), store.Keys)
    ensures DerivedRange(store) == Ok(VList([VReal(SeqMin(xLow)), VReal(SeqMin(xHigh))]))
  {
    EdgeOfSome(xLow, Lows(store), store.Keys, xLow[0]);
    var k :| k in store.Keys && k in Lows(store) && Lows(store)[k] == xLow[0];
    assert k in Highs(store) && store.Keys == Lows(store).Keys == Highs(store).Keys;
    LeastOfList(Lows(store), xLow);
    LeastOfList(Highs(store), xHigh);
  }

  /** The minimum of a list holding exactly the values of a map is the least value of the map. */
  lemma LeastOfList(m: map<string, real>, xs: seq<real>)
    requires xs != [] && m != map[]
    requires HoldsEdges(xs, m, m.Keys)
    ensures SeqMin(xs) == Least(m)
  {
    var lo := SeqMin(xs);
    assert IsLeast(m, lo) by {
      assert lo in xs;
      forall j | j in m
        ensures lo <= m[j]
      {
        assert exists k :: k in m.Keys && k in m && m[k] == m[j];
        assert m[j] in xs;
      }
    }
    LeastIsUnique(m, lo, Least(m));
  }

  lemma LeastIsUnique(m: map<string, real>, a: real, b: real)
    requires IsLeast(m, a) && IsLeast(m, b)
    ensures a == b
  {
    var ka :| ka in m && m[ka] == a;
    var kb :| kb in m && m[kb] == b;
    assert a <= m[kb] && b <= m[ka];
  }

  // ---------------------------------------------------------------------------
  // prepare_args (functionplot.py:28-57)

  /**
   * The range of one function: an explicit "a,b" string split on commas; for
   * `None`, `x_lims` when it is set, otherwise the range derived from the store.
   * Any number of comma-separated values is accepted here.
   */
  ghost function RangeFor(x: Value, d: Dict, store: Store, parse: string -> Option<real>): (r: Result<Value>)
    ensures x.VStr? && r.Ok? ==> r.value.VList? && |r.value.items| == Count(x.s, ',') + 1
  {
    if x == VNone then
      var limits :- Get(d, "x_lims");
      if limits != VNone then Ok(limits) else DerivedRange(store)
    else if x.VStr? then
      SplitCount(x.s, ',');
      var bounds :- ParseFloats(Split(x.s, [',']), parse);
      Ok(RealsValue(bounds))
    else Err(AttributeError)
  }

  /** The order in which a range is chosen. */
  lemma RangePrecedence(x: Value, d: Dict, store: Store, parse: string -> Option<real>)
    ensures x.VStr? ==> RangeFor(x, d, store, parse) == (var b := ParseFloats(Split(x.s, [',']), parse);
                                                          if b.Ok? then Ok(RealsValue(b.value)) else Err(ValueError))
    ensures x == VNone && "x_lims" in d && d["x_lims"] != VNone ==> RangeFor(x, d, store, parse) == Ok(d["x_lims"])
    ensures x == VNone && "x_lims" in d && d["x_lims"] == VNone ==> RangeFor(x, d, store, parse) == DerivedRange(store)
    ensures x == VNone && "x_lims" !in d ==> RangeFor(x, d, store, parse) == Err(KeyError("x_lims"))
    ensures x != VNone && !x.VStr? ==> RangeFor(x, d, store, parse) == Err(AttributeError)
  {
  }

  /** `nick if nick != None else "function_nick%d" % index` for each nickname. */
  function Nicknames(names: seq<Value>): (r: seq<Value>)
    ensures |r| == |names|
    ensures forall i :: 0 <= i < |names| && names[i] != VNone ==> r[i] == names[i]
    ensures forall i :: 0 <= i < |names| && names[i] == VNone ==> r[i] == VStr("function_nick" + NatToString(i))
  {
    seq(|names|, i requires 0 <= i < |names| => if names[i] != VNone then names[i] else VStr("function_nick" + NatToString(i)))
  }

  /** No nickname is left unset, and the generated ones differ from each other. */
  lemma NicknamesSet(names: seq<Value>)
    ensures forall i :: 0 <= i < |names| ==> Nicknames(names)[i] != VNone
    ensures forall i, j :: 0 <= i < j < |names| && names[i] == VNone && names[j] == VNone ==> Nicknames(names)[i] != Nicknames(names)[j]
  {
    var r := Nicknames(names);
    forall i, j | 0 <= i < j < |names| && names[i] == VNone && names[j] == VNone
      ensures r[i] != r[j]
    {
      if r[i] == r[j] {
        var p := "function_nick";
        assert r[i].s[|p|..] == NatToString(i);
        assert r[j].s[|p|..] == NatToString(j);
        NatToStringInjective(i, j);
      }
    }
  }

  /** One parameter string: its comma-separated values as floats. */
  function ParamsFor(v: Value, parse: string -> Option<real>): (r: Result<Value>)
    ensures !v.VStr? ==> r == Err(AttributeError)
  {
    if v.VStr? then
      var values :- ParseFloats(Split(v.s, [',']), parse);
      Ok(RealsValue(values))
    else Err(AttributeError)
  }

  /** A parameter string yields one value more than it has commas. */
  lemma ParameterCount(s: string, parse: string -> Option<real>)
    requires ParamsFor(VStr(s), parse).Ok?
    ensures var v := ParamsFor(VStr(s), parse).value;
            v.VList? && |v.items| == Count(s, ',') + 1
  {
    SplitCount(s, ',');
  }

  /** The whole of `prepare_args` after the list broadcast. */
  ghost function Prepared(d: Dict, store: Store, parse: string -> Option<real>): Result<Dict>
  {
    var ranges :- ListAt(d, "function_ranges");
    var newRanges :- MapResult(ranges, x => RangeFor(x, d, store, parse));
    var d1 := d["function_ranges" := VList(newRanges)];
    var names :- ListAt(d1, "function_nicknames");
    var d2 := d1["function_nicknames" := VList(Nicknames(names))];
    var nicks :- ListAt(d2, "nicks");
    var d3 := d2["nicks" := VList(nicks + Nicknames(names))];
    var params :- ListAt(d3, "function_parameters");
    var newParams :- MapResult(params, p => ParamsFor(p, parse));
    Ok(d3["function_parameters" := VList(newParams)])
  }

  /**
   * After preparation the function nicknames are all set and appended, in order,
   * after the nicks that were there; each range and each parameter list keeps its position.
   */
  lemma PreparedGuarantees(d: Dict, store: Store, parse: string -> Option<real>)
    requires Prepared(d, store, parse).Ok?
    ensures var p := Prepared(d, store, parse).value;
            && IsList(d, "function_nicknames") && IsList(d, "nicks") && IsList(d, "function_ranges") && IsList(d, "function_parameters")
            && p["function_nicknames"] == VList(Nicknames(d["function_nicknames"].items))
            && p["nicks"] == VList(d["nicks"].items + Nicknames(d["function_nicknames"].items))
            && IsList(p, "function_ranges") && |p["function_ranges"].items| == |d["function_ranges"].items|
            && (forall i :: 0 <= i < |d["function_ranges"].items| ==>
                  RangeFor(d["function_ranges"].items[i], d, store, parse) == Ok(p["function_ranges"].items[i]))
            && IsList(p, "function_parameters") && |p["function_parameters"].items| == |d["function_parameters"].items|
            && (forall i :: 0 <= i < |d["function_parameters"].items| ==>
                  ParamsFor(d["function_parameters"].items[i], parse) == Ok(p["function_parameters"].items[i])
                  && d["function_parameters"].items[i].VStr? && p["function_parameters"].items[i].VList?
                  && |p["function_parameters"].items[i].items| == Count(d["function_parameters"].items[i].s, ',') + 1)
  {
    var p := Prepared(d, store, parse).value;
    var params := d["function_parameters"].items;
    var f := (q: Value) => ParamsFor(q, parse);
    var newParams := MapResult(params, f).value;
    assert p["function_parameters"] == VList(newParams);
    var ranges := d["function_ranges"].items;
    var g := (x: Value) => RangeFor(x, d, store, parse);
    var newRanges := MapResult(ranges, g).value;
    assert p["function_ranges"] == VList(newRanges);
    forall i | 0 <= i < |ranges|
      ensures g(ranges[i]) == Ok(newRanges[i])
    {
    }
    forall i | 0 <= i < |params|
      ensures params[i].VStr? && newParams[i].VList? && |newParams[i].items| == Count(params[i].s, ',') + 1
    {
      assert f(params[i]) == Ok(newParams[i]);
      ParameterCount(params[i].s, parse);
    }
  }

  /** The loop over `function_ranges`, collecting the new ranges. */
  method PrepareRanges(ranges: seq<Value>, d: Dict, store: Store, parse: string -> Option<real>) returns (r: Result<seq<Value>>)
    ensures r == MapResult(ranges, x => RangeFor(x, d, store, parse))
  {
    ghost var rangeFor := (x: Value) => RangeFor(x, d, store, parse);
    var newRanges: seq<Value> := [];
    for i := 0 to |ranges|
      invariant |newRanges| == i && forall j :: 0 <= j < i ==> rangeFor(ranges[j]) == Ok(newRanges[j])
    {
      var x := ranges[i];
      var next: Result<Value>;
      if x == VNone {
        if "x_lims" !in d {
          next := Err(KeyError("x_lims"));
        } else if d["x_lims"] != VNone {
          next := Ok(d["x_lims"]);
        } else {
          next := DeriveRange(store);
        }
      } else if x.VStr? {
        var bounds := ParseFloats(Split(x.s, [',']), parse);
        next := if bounds.Ok? then Ok(RealsValue(bounds.value)) else Err(bounds.failure);
      } else {
        next := Err(AttributeError);
      }
      assert next == rangeFor(x);
      if next.Err? {
        assert MapResult(ranges, rangeFor).Err?;
        return Err(next.failure);
      }
      newRanges := newRanges + [next.value];
    }
    MapResultOk(ranges, rangeFor, newRanges);
    r := Ok(newRanges);
  }

  /** The loop over `function_parameters`, collecting the parsed lists. */
  method PrepareParameters(params: seq<Value>, parse: string -> Option<real>) returns (r: Result<seq<Value>>)
    ensures r == MapResult(params, p => ParamsFor(p, parse))
  {
    ghost var paramsFor := (q: Value) => ParamsFor(q, parse);
    var newParams: seq<Value> := [];
    for i := 0 to |params|
      invariant |newParams| == i && forall j :: 0 <= j < i ==> paramsFor(params[j]) == Ok(newParams[j])
    {
      var p := ParamsFor(params[i], parse);
      if p.Err? {
        assert MapResult(params, paramsFor).Err?;
        return Err(p.failure);
      }
      newParams := newParams + [p.value];
    }
    MapResultOk(params, paramsFor, newParams);
    r := Ok(newParams);
  }

  /** `prepare_args`: the range loop, the nickname defaults, `nicks +=`, and the parameter loop. */
  method PrepareArgs(pd: PlotData, broadcast: Dict -> Dict, parse: string -> Option<real>) returns (outcome: Result<Dict>)
    modifies pd
    ensures outcome == Prepared(broadcast(old(pd.plotdict)), old(pd.rootObjects), parse)
    ensures outcome.Ok? ==> pd.plotdict == outcome.value
    ensures pd.rootObjects == old(pd.rootObjects)
  {
    pd.plotdict := broadcast(pd.plotdict);
    if !IsList(pd.plotdict, "function_ranges") {
      return ListAt(pd.plotdict, "function_ranges").PropagateFailure();
    }
    var newRanges := PrepareRanges(pd.plotdict["function_ranges"].items, pd.plotdict, pd.rootObjects, parse);
    if newRanges.Err? {
      return Err(newRanges.failure);
    }
    pd.plotdict := pd.plotdict["function_ranges" := VList(newRanges.value)];
    if !IsList(pd.plotdict, "function_nicknames") {
      return ListAt(pd.plotdict, "function_nicknames").PropagateFailure();
    }
    var names := Nicknames(pd.plotdict["function_nicknames"].items);
    pd.plotdict := pd.plotdict["function_nicknames" := VList(names)];
    if !IsList(pd.plotdict, "nicks") {
      return ListAt(pd.plotdict, "nicks").PropagateFailure();
    }
    pd.plotdict := pd.plotdict["nicks" := VList(pd.plotdict["nicks"].items + names)];
    if !IsList(pd.plotdict, "function_parameters") {
      return ListAt(pd.plotdict, "function_parameters").PropagateFailure();
    }
    var newParams := PrepareParameters(pd.plotdict["function_parameters"].items, parse);
    if newParams.Err? {
      return Err(newParams.failure);
    }
    pd.plotdict := pd.plotdict["function_parameters" := VList(newParams.value)];
    outcome := Ok(pd.plotdict);
  }

  // ---------------------------------------------------------------------------
  // create_function, do_rootfit, do_roofit (functionplot.py:86-152)

  /** The ROOT work behind `create_function`, as uninterpreted functions. */
  datatype FitOps = FitOps(
    npar: Value -> nat,                                              // `TF1.GetNpar()` of a formula
    tf1: (Value, Value, Value, seq<Value>) -> RootObject,            // a TF1 with its start parameters set
    fitted: (Value, Value, Value, seq<Value>, RootObject) -> RootObject,  // that TF1 after `Fit` to a histogram
    rooCurve: (Value, Value, Value, seq<Value>, RootObject) -> RootObject) // the RooFit curve after `fitTo`

  /** The start parameters `do_rootfit` sets: the first `GetNpar()` of them. */
  function StartParameters(formula: Value, params: Value, ops: FitOps): (r: Result<seq<Value>>)
    ensures r.Ok? ==> |r.value| == ops.npar(formula)
    ensures r.Err? <==> ops.npar(formula) > 0 && (!params.VList? || |params.items| < ops.npar(formula))
    ensures r.Ok? && params.VList? ==> r.value == params.items[..ops.npar(formula)]
  {
    var n := ops.npar(formula);
    if n == 0 then Ok([])
    else if !params.VList? then Err(TypeError)
    else if |params.items| < n then Err(IndexError)
    else Ok(params.items[..n])
  }

  /**
   * `do_rootfit`: set the start parameters, then fit to the histogram.  As written
   * it calls `Fit` on the histogram even when there is none (a plain function),
   * which raises AttributeError; corrected, a plain function is only drawn.
   */
  function RootFit(variant: Variant, formula: Value, low: Value, high: Value, params: Value,
                   histogram: Option<RootObject>, ops: FitOps): (r: Result<RootObject>)
    ensures variant == AsWritten && histogram.None? ==> r.Err?
  {
    var start :- StartParameters(formula, params, ops);
    match histogram
    case Some(h) => Ok(ops.fitted(formula, low, high, start, h))
    case None => if variant == AsWritten then Err(AttributeError) else Ok(ops.tf1(formula, low, high, start))
  }

  /** The three line shapes the RooFit backend knows. */
  predicate RooFitShape(formula: Value) {
    formula == VStr("voigtian") || formula == VStr("breitwiegner") || formula == VStr("gaus")
  }

  /**
   * `do_roofit`: nine start parameters (mean, sigma and width, each value, low and high)
   * are read before the line shape is checked; an unknown shape exits.
   */
  function RooFit(formula: Value, low: Value, high: Value, params: Value, histogram: Option<RootObject>, ops: FitOps): (r: Result<RootObject>)
    ensures r.Ok? <==> histogram.Some? && params.VList? && |params.items| >= 9 && RooFitShape(formula)
    ensures histogram.Some? && params.VList? && |params.items| >= 9 && formula.VStr? && !RooFitShape(formula) ==> r == Err(Exit(0))
  {
    if histogram.None? then Err(AttributeError)
    else if !params.VList? then Err(TypeError)
    else if |params.items| < 9 then Err(IndexError)
    else if RooFitShape(formula) then Ok(ops.rooCurve(formula, low, high, params.items[..9], histogram.value))
    else if !formula.VStr? then Err(TypeError)
    else Err(Exit(0))
  }

  /** `create_function`: only the "RooFit" and "ROOT" backends; any other exits. */
  function CreateFunction(variant: Variant, formula: Value, low: Value, high: Value, params: Value,
                          histogram: Option<RootObject>, backend: Value, ops: FitOps): (r: Result<RootObject>)
    ensures backend != VStr("RooFit") && backend != VStr("ROOT") ==> r == Err(Exit(0))
  {
    if backend == VStr("RooFit") then RooFit(formula, low, high, params, histogram, ops)
    else if backend == VStr("ROOT") then RootFit(variant, formula, low, high, params, histogram, ops)
    else Err(Exit(0))
  }

  // ---------------------------------------------------------------------------
  // run (functionplot.py:62-83)

  /** One zipped entry of the six function lists. */
  datatype FunctionEntry = FunctionEntry(formula: Value, nick: Value, params: Value, fitNick: Value, range: Value, backend: Value)

  /** `x_range[0], x_range[1]` */
  function Bounds(range: Value): (r: Result<(Value, Value)>)
    ensures r.Ok? <==> range.VList? && |range.items| >= 2
    ensures r.Ok? ==> r.value == (range.items[0], range.items[1])
  {
    if !range.VList? then Err(TypeError)
    else if |range.items| < 2 then Err(IndexError)
    else Ok((range.items[0], range.items[1]))
  }

  /** A fit happens only for a fit nick that is set and names a stored object. */
  predicate FitsTo(e: FunctionEntry, store: Store) {
    e.fitNick != VNone && e.fitNick.VStr? && e.fitNick.s in store
  }

  /** One entry: a fit to the named histogram, or a plain function with the ROOT backend. */
  function EntryStep(variant: Variant, store: Store, e: FunctionEntry, ops: FitOps): (r: Result<Store>)
    ensures r.Ok? ==> e.nick.VStr? && r.value.Keys == store.Keys + {e.nick.s}
    ensures r.Ok? ==> forall k :: k in store && k != e.nick.s ==> r.value[k] == store[k]
  {
    var bounds :- Bounds(e.range);
    var made :-
      if FitsTo(e, store) then CreateFunction(variant, e.formula, bounds.0, bounds.1, e.params, Some(store[e.fitNick.s]), e.backend, ops)
      else CreateFunction(variant, e.formula, bounds.0, bounds.1, e.params, None, VStr("ROOT"), ops);
    if e.nick.VStr? then Ok(store[e.nick.s := made]) else Err(TypeError)
  }

  /** Without a usable fit nick the function is plain: its backend argument is ignored and nothing is fitted. */
  lemma PlainUnlessFitNickStored(store: Store, e: FunctionEntry, ops: FitOps)
    requires !FitsTo(e, store)
    requires EntryStep(Corrected, store, e, ops).Ok?
    ensures var start := StartParameters(e.formula, e.params, ops).value;
            EntryStep(Corrected, store, e, ops).value[e.nick.s] == ops.tf1(e.formula, e.range.items[0], e.range.items[1], start)
  {
  }

  /** With a stored fit nick and the ROOT backend the function is fitted to that object. */
  lemma FittedWhenFitNickStored(store: Store, e: FunctionEntry, ops: FitOps)
    requires FitsTo(e, store) && e.backend == VStr("ROOT")
    requires EntryStep(Corrected, store, e, ops).Ok?
    ensures var start := StartParameters(e.formula, e.params, ops).value;
            EntryStep(Corrected, store, e, ops).value[e.nick.s]
              == ops.fitted(e.formula, e.range.items[0], e.range.items[1], start, store[e.fitNick.s])
  {
  }

  function EntriesFrom(variant: Variant, store: Store, entries: seq<FunctionEntry>, i: nat, ops: FitOps): Result<Store>
    decreases |entries| - i
  {
    if i >= |entries| then Ok(store)
    else match EntryStep(variant, store, entries[i], ops)
      case Err(f) => Err(f)
      case Ok(s1) => EntriesFrom(variant, s1, entries, i + 1, ops)
  }

  /** One entry of the loop succeeds and hands its store to the rest. */
  lemma EntriesUnfold(variant: Variant, store: Store, entries: seq<FunctionEntry>, i: nat, ops: FitOps)
    requires i < |entries| && EntriesFrom(variant, store, entries, i, ops).Ok?
    ensures EntryStep(variant, store, entries[i], ops).Ok?
    ensures EntriesFrom(variant, store, entries, i, ops)
            == EntriesFrom(variant, EntryStep(variant, store, entries[i], ops).value, entries, i + 1, ops)
  {
  }

  /** Some entry from `i` on has `k` as its function nick. */
  predicate NamedBy(entries: seq<FunctionEntry>, i: nat, k: string) {
    exists j :: i <= j < |entries| && entries[j].nick == VStr(k)
  }

  /**
   * Every function nick from entry `i` on ends up in the store, no other key is
   * added, and a key that no function nick names keeps its object.
   */
  lemma {:induction false} EveryNickStored(variant: Variant, store: Store, entries: seq<FunctionEntry>, i: nat, ops: FitOps)
    requires EntriesFrom(variant, store, entries, i, ops).Ok?
    ensures var r := EntriesFrom(variant, store, entries, i, ops).value;
            && store.Keys <= r.Keys
            && (forall j :: i <= j < |entries| ==> entries[j].nick.VStr? && entries[j].nick.s in r)
            && (forall k :: k in r ==> k in store || exists j :: i <= j < |entries| && entries[j].nick == VStr(k))
            && (forall k :: k in store && !NamedBy(entries, i, k) ==> r[k] == store[k])
    decreases |entries| - i
  {
    if i < |entries| {
      EntriesUnfold(variant, store, entries, i, ops);
      var s1 := EntryStep(variant, store, entries[i], ops).value;
      EveryNickStored(variant, s1, entries, i + 1, ops);
      var r := EntriesFrom(variant, s1, entries, i + 1, ops).value;
      forall j | i <= j < |entries|
        ensures entries[j].nick.VStr? && entries[j].nick.s in r
      {
      }
      forall k | k in r
        ensures k in store || exists j :: i <= j < |entries| && entries[j].nick == VStr(k)
      {
        if k !in store && k !in s1 {
          var j :| i + 1 <= j < |entries| && entries[j].nick == VStr(k);
        } else if k !in store {
          assert entries[i].nick == VStr(k);
        }
      }
      forall k | k in store && !NamedBy(entries, i, k)
        ensures r[k] == store[k]
      {
        assert !NamedBy(entries, i + 1, k);
      }
    }
  }

  /** The six lists `run` zips, in argument order. */
  const RunKeys: seq<string> := ["functions", "function_nicknames", "function_parameters", "function_fit", "function_ranges", "fit_backend"]

  /** Each row of the six-list `zip` holds item `i` of each list, in the order of `RunKeys`. */
  lemma RowFields(d: Dict)
    requires ZipKeys(d, RunKeys).Ok?
    ensures var rows := ZipKeys(d, RunKeys).value;
            forall i :: 0 <= i < |rows| ==>
              && rows[i][0] == ItemOf(d, "functions", i) && rows[i][1] == ItemOf(d, "function_nicknames", i)
              && rows[i][2] == ItemOf(d, "function_parameters", i) && rows[i][3] == ItemOf(d, "function_fit", i)
              && rows[i][4] == ItemOf(d, "function_ranges", i) && rows[i][5] == ItemOf(d, "fit_backend", i)
  {
    var rows := ZipKeys(d, RunKeys).value;
    ZipKeysColumns(d, RunKeys);
    forall i | 0 <= i < |rows|
      ensures forall j :: 0 <= j < 6 ==> rows[i][j] == ItemOf(d, RunKeys[j], i)
    {
    }
  }

  /** `zip` of the six lists: all six are looked up first, then iterated; each may be a list or a string. */
  function ZipEntries(d: Dict): (r: Result<seq<FunctionEntry>>)
    ensures r.Ok? <==> ZipKeys(d, RunKeys).Ok?
    ensures r.Err? ==> r.failure == ZipKeys(d, RunKeys).failure
    ensures r.Ok? ==> |r.value| == |ZipKeys(d, RunKeys).value|
    ensures r.Ok? ==> forall i :: 0 <= i < |r.value| ==> r.value[i] == FunctionEntry(
              ItemOf(d, "functions", i), ItemOf(d, "function_nicknames", i), ItemOf(d, "function_parameters", i),
              ItemOf(d, "function_fit", i), ItemOf(d, "function_ranges", i), ItemOf(d, "fit_backend", i))
  {
    var rows :- ZipKeys(d, RunKeys);
    RowFields(d);
    Ok(seq(|rows|, i requires 0 <= i < |rows| => FunctionEntry(rows[i][0], rows[i][1], rows[i][2], rows[i][3], rows[i][4], rows[i][5])))
  }

  /**
   * `run`.  Without functions, the code as written calls `os.exit(1)` with `os`
   * never imported (NameError); corrected, it exits with status 1.
   */
  function RunSpec(variant: Variant, s: PlotState, ops: FitOps): Result<Store>
  {
    var functions :- Get(s.plotdict, "functions");
    if functions == VNone then (if variant == AsWritten then Err(NameError("os")) else Err(Exit(1)))
    else
      var entries :- ZipEntries(s.plotdict);
      EntriesFrom(variant, s.rootObjects, entries, 0, ops)
  }

  /** Without functions the code as written fails on the missing `os` module instead of exiting. */
  lemma MissingFunctionsDiscrepancy(s: PlotState, ops: FitOps)
    requires "functions" in s.plotdict && s.plotdict["functions"] == VNone
    ensures RunSpec(AsWritten, s, ops) == Err(NameError("os"))
    ensures RunSpec(Corrected, s, ops) == Err(Exit(1))
  {
  }

  /**
   * A plain function (no usable fit nick) with a range and enough start parameters:
   * as written `do_rootfit` fails on the missing histogram, corrected the drawn
   * function is stored under its nick.
   */
  lemma PlainFunctionDiscrepancy(store: Store, e: FunctionEntry, ops: FitOps)
    requires !FitsTo(e, store)
    requires e.range.VList? && |e.range.items| >= 2 && e.nick.VStr?
    requires e.params.VList? && ops.npar(e.formula) <= |e.params.items|
    ensures EntryStep(AsWritten, store, e, ops) == Err(AttributeError)
    ensures EntryStep(Corrected, store, e, ops)
            == Ok(store[e.nick.s := ops.tf1(e.formula, e.range.items[0], e.range.items[1], e.params.items[..ops.npar(e.formula)])])
  {
  }

  /** `run`, with the defects corrected: the entry loop writing the store. */
  method Run(pd: PlotData, ops: FitOps) returns (outcome: Result<Store>)
    modifies pd
    ensures outcome == RunSpec(Corrected, old(pd.State()), ops)
    ensures outcome.Ok? ==> pd.rootObjects == outcome.value
    ensures pd.plotdict == old(pd.plotdict)
  {
    if "functions" !in pd.plotdict {
      return Err(KeyError("functions"));
    }
    if pd.plotdict["functions"] == VNone {
      return Err(Exit(1));
    }
    var zipped := ZipEntries(pd.plotdict);
    if zipped.Err? {
      return Err(zipped.failure);
    }
    outcome := StoreEntries(pd, zipped.value, ops);
  }

  /** The entry loop of `run`: each entry's function stored under its nick, in place. */
  method StoreEntries(pd: PlotData, entries: seq<FunctionEntry>, ops: FitOps) returns (outcome: Result<Store>)
    modifies pd
    ensures outcome == EntriesFrom(Corrected, old(pd.rootObjects), entries, 0, ops)
    ensures outcome.Ok? ==> pd.rootObjects == outcome.value
    ensures pd.plotdict == old(pd.plotdict)
  {
    for i := 0 to |entries|
      invariant pd.plotdict == old(pd.plotdict)
      invariant EntriesFrom(Corrected, old(pd.rootObjects), entries, 0, ops) == EntriesFrom(Corrected, pd.rootObjects, entries, i, ops)
    {
      var e := entries[i];
      var bounds := Bounds(e.range);
      if bounds.Err? {
        return Err(bounds.failure);
      }
      var made: Result<RootObject>;
      if e.fitNick != VNone && e.fitNick.VStr? && e.fitNick.s in pd.rootObjects {
        var histogram := pd.rootObjects[e.fitNick.s];
        made := CreateFunction(Corrected, e.formula, bounds.value.0, bounds.value.1, e.params, Some(histogram), e.backend, ops);
      } else {
        made := CreateFunction(Corrected, e.formula, bounds.value.0, bounds.value.1, e.params, None, VStr("ROOT"), ops);
      }
      if made.Err? {
        return Err(made.failure);
      }
      if !e.nick.VStr? {
        return Err(TypeError);
      }
      pd.rootObjects := pd.rootObjects[e.nick.s := made.value];
    }
    outcome := Ok(pd.rootObjects);
  }
}
