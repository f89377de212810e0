/**
 * Projections of 2-D (or 3-D) histograms by slice fits (`ProjectByFit` of clipl):
 * result-nick defaults and the non-duplicating append to `nicks` in `prepare_args`,
 * and in `run` the input validation, the choice of fit range, backend and slice
 * selection, and the store update after the loop.
 *
 * `FitSlicesY`/`FitSlicesZ`, the formula post-processing and the RooFit slice fits
 * are uninterpreted functions in `SliceOps`; `float` and `int` parsing are the
 * parameters `parse` and `parseInt`.
 */
module ProjectByFitClipl {
  import opened Wrappers
  import opened PyValues
  import opened Strings

  // ---------------------------------------------------------------------------
  // prepare_args (projectbyfit.py:63-77)

  /** `x.replace("\\", "") if x != None else x` */
  function CleanFitRange(x: Value): (r: Result<Value>)
    ensures x == VNone ==> r == Ok(VNone)
    ensures x.VStr? ==> r.Ok? && r.value.VStr? && r.value.s == Without(x.s, '\\')
    ensures x != VNone && !x.VStr? ==> r == Err(AttributeError)
  {
    if x == VNone then Ok(VNone)
    else if x.VStr? then
      ReplaceCharByNothing(x.s, '\\');
      Ok(VStr(ReplaceAll(x.s, ['\\'], [])))
    else Err(AttributeError)
  }

  /** A cleaned fit range holds no backslash, and cleaning twice changes nothing. */
  lemma CleanFitRangeIdempotent(x: Value)
    requires x.VStr?
    ensures '\\' !in CleanFitRange(x).value.s
    ensures CleanFitRange(CleanFitRange(x).value) == CleanFitRange(x)
  {
    var w := Without(x.s, '\\');
    ReplaceCharByNothing(w, '\\');
    WithoutAbsent(w, '\\');
  }

  /** The cleaned fit-range list: same length, `None` entries kept. */
  function CleanFitRanges(ranges: seq<Value>): (r: Result<seq<Value>>)
    ensures r.Ok? ==> |r.value| == |ranges|
    ensures r.Ok? ==> forall i :: 0 <= i < |ranges| && ranges[i] == VNone ==> r.value[i] == VNone
  {
    MapResult(ranges, CleanFitRange)
  }

  /** `"projection_result_nicks_{nick}".format(nick="_".join([nick]))` */
  function DefaultResultNick(toNick: Value): (r: Result<Value>)
    ensures toNick.VStr? ==> r == Ok(VStr("projection_result_nicks_" + toNick.s))
    ensures !toNick.VStr? ==> r == Err(TypeError)
  {
    if toNick.VStr? then Ok(VStr("projection_result_nicks_" + Join("_", [toNick.s]))) else Err(TypeError)
  }

  /** One entry of the result-nick loop: default the result nick in place, then append it to `nicks` if absent. */
  function ResultNickStep(d: Dict, i: nat, notOverride: Value, toNick: Value, resultNick: Value): Result<Dict>
  {
    var d1 :- DefaultedResultNick(d, i, toNick, resultNick);
    AppendedResultNick(d1, i, notOverride)
  }

  /** `projection_result_nicks[index]` replaced by its default when it is `None`. */
  function DefaultedResultNick(d: Dict, i: nat, toNick: Value, resultNick: Value): Result<Dict>
  {
    var results :- ListAt(d, "projection_result_nicks");
    if resultNick != VNone then Ok(d)
    else if i >= |results| then Err(IndexError)
    else
      var n :- DefaultResultNick(toNick);
      Ok(d["projection_result_nicks" := VList(results[i := n])])
  }

  /** The result nick of entry `i` appended to `nicks` when it is absent there and may override. */
  function AppendedResultNick(d: Dict, i: nat, notOverride: Value): Result<Dict>
  {
    var current :- ListAt(d, "projection_result_nicks");
    if i >= |current| then Err(IndexError)
    else
      var nicks :- ListAt(d, "nicks");
      if current[i] !in nicks && Truthy(notOverride) then Ok(d["nicks" := VList(nicks + [current[i]])])
      else Ok(d)
  }

  /** The rows of `zip(not_override, to_nick, result_nicks)` from `i` on. */
  function ResultNicksFrom(d: Dict, rows: seq<seq<Value>>, i: nat): Result<Dict>
    requires forall j :: 0 <= j < |rows| ==> |rows[j]| == 3
    decreases |rows| - i
  {
    if i >= |rows| then Ok(d)
    else match ResultNickStep(d, i, rows[i][0], rows[i][1], rows[i][2])
      case Err(f) => Err(f)
      case Ok(d1) => ResultNicksFrom(d1, rows, i + 1)
  }

  /**
   * One step only appends to `nicks`, appends at most one value, and appends
   * it only when absent, so a list without duplicates keeps none.
   */
  lemma ResultNickStepAppends(d: Dict, i: nat, notOverride: Value, toNick: Value, resultNick: Value)
    requires ResultNickStep(d, i, notOverride, toNick, resultNick).Ok?
    ensures var d1 := ResultNickStep(d, i, notOverride, toNick, resultNick).value;
            && IsList(d, "nicks") && IsList(d1, "nicks")
            && var before, after := d["nicks"].items, d1["nicks"].items;
            && (after == before || (|after| == |before| + 1 && after[..|before|] == before && after[|before|] !in before))
            && (NoDuplicates(before) ==> NoDuplicates(after))
  {
    var d1 := ResultNickStep(d, i, notOverride, toNick, resultNick).value;
    var before, after := d["nicks"].items, d1["nicks"].items;
    if after != before {
      assert after == before + [after[|before|]];
      assert after[..|before|] == before;
    }
  }

  /** Over the whole loop `nicks` only grows at its end, and gains no duplicate. */
  lemma {:induction false} ResultNicksKeepPrefix(d: Dict, rows: seq<seq<Value>>, i: nat)
    requires forall j :: 0 <= j < |rows| ==> |rows[j]| == 3
    requires IsList(d, "nicks")
    requires ResultNicksFrom(d, rows, i).Ok?
    ensures var p := ResultNicksFrom(d, rows, i).value;
            && IsList(p, "nicks")
            && |d["nicks"].items| <= |p["nicks"].items|
            && p["nicks"].items[..|d["nicks"].items|] == d["nicks"].items
            && (NoDuplicates(d["nicks"].items) ==> NoDuplicates(p["nicks"].items))
    decreases |rows| - i
  {
    if i < |rows| {
      var d1 := ResultNickStep(d, i, rows[i][0], rows[i][1], rows[i][2]).value;
      ResultNickStepAppends(d, i, rows[i][0], rows[i][1], rows[i][2]);
      ResultNicksKeepPrefix(d1, rows, i + 1);
      var p := ResultNicksFrom(d1, rows, i + 1).value;
      var a, b, c := d["nicks"].items, d1["nicks"].items, p["nicks"].items;
      assert c[..|a|] == c[..|b|][..|a|];
    }
  }

  /** The keys broadcast to lists before preparation. */
  const ProjectionKeys: set<string> := {
    "projection_functions", "projection_parameters", "projection_to_plot", "projection_fit_range",
    "projection_to_nick", "projection_fit_backend", "projection_bins_minx", "projection_bins_maxx",
    "projection_options", "projection_cuts_bins_filled", "projection_fit_slices_z", "projection_bins_miny",
    "projection_bins_maxy", "projection_result_nicks", "projection_not_override"}

  function Prepared(d: Dict): Result<Dict>
  {
    var ranges :- ListAt(d, "projection_fit_range");
    var cleaned :- CleanFitRanges(ranges);
    var d1 := d["projection_fit_range" := VList(cleaned)];
    var rows :- ZipKeys(d1, ["projection_not_override", "projection_to_nick", "projection_result_nicks"]);
    ResultNicksFrom(d1, rows, 0)
  }

  /** With a list `nicks` free of duplicates, preparation leaves it so and only appends. */
  lemma PreparedNicks(d: Dict)
    requires IsList(d, "nicks") && NoDuplicates(d["nicks"].items)
    requires Prepared(d).Ok?
    ensures var p := Prepared(d).value;
            && IsList(p, "nicks") && NoDuplicates(p["nicks"].items)
            && |d["nicks"].items| <= |p["nicks"].items|
            && p["nicks"].items[..|d["nicks"].items|] == d["nicks"].items
  {
    var ranges := d["projection_fit_range"].items;
    var d1 := d["projection_fit_range" := VList(CleanFitRanges(ranges).value)];
    var rows := ZipKeys(d1, ["projection_not_override", "projection_to_nick", "projection_result_nicks"]).value;
    assert Prepared(d) == ResultNicksFrom(d1, rows, 0);
    assert d1["nicks"] == d["nicks"];
    ResultNicksKeepPrefix(d1, rows, 0);
  }

  /** A missing result nick of an entry is replaced by the default named after its input nick. */
  lemma DefaultResultNickWritten(d: Dict, i: nat, notOverride: Value, toNick: string)
    requires ResultNickStep(d, i, notOverride, VStr(toNick), VNone).Ok?
    ensures var d1 := ResultNickStep(d, i, notOverride, VStr(toNick), VNone).value;
            && IsList(d1, "projection_result_nicks") && i < |d1["projection_result_nicks"].items|
            && d1["projection_result_nicks"].items[i] == VStr("projection_result_nicks_" + toNick)
  {
  }

  /** One turn of the result-nick loop, on the plot dictionary in place. */
  method ResultNickInPlace(pd: PlotData, index: nat, notOverride: Value, toNick: Value, resultNick: Value)
    returns (step: Result<Dict>)
    modifies pd
    ensures step == ResultNickStep(old(pd.plotdict), index, notOverride, toNick, resultNick)
    ensures step.Ok? ==> pd.plotdict == step.value
    ensures pd.rootObjects == old(pd.rootObjects)
  {
    var defaulted := DefaultResultNickInPlace(pd, index, toNick, resultNick);
    if defaulted.Err? {
      return Err(defaulted.failure);
    }
    step := AppendResultNickInPlace(pd, index, notOverride);
  }

  /** `projection_result_nicks[index]` set to its default when it is `None`, in place. */
  method DefaultResultNickInPlace(pd: PlotData, index: nat, toNick: Value, resultNick: Value)
    returns (step: Result<Dict>)
    modifies pd
    ensures step == DefaultedResultNick(old(pd.plotdict), index, toNick, resultNick)
    ensures step.Ok? ==> pd.plotdict == step.value
    ensures pd.rootObjects == old(pd.rootObjects)
  {
    if !IsList(pd.plotdict, "projection_result_nicks") {
      return ListAt(pd.plotdict, "projection_result_nicks").PropagateFailure();
    }
    if resultNick == VNone {
      var results := pd.plotdict["projection_result_nicks"].items;
      if index >= |results| {
        return Err(IndexError);
      }
      if !toNick.VStr? {
        return Err(TypeError);
      }
      var n := VStr("projection_result_nicks_" + Join("_", [toNick.s]));
      pd.plotdict := pd.plotdict["projection_result_nicks" := VList(results[index := n])];
    }
    step := Ok(pd.plotdict);
  }

  /** The result nick appended to `nicks` when absent and `not_override` holds, in place. */
  method AppendResultNickInPlace(pd: PlotData, index: nat, notOverride: Value) returns (step: Result<Dict>)
    modifies pd
    ensures step == AppendedResultNick(old(pd.plotdict), index, notOverride)
    ensures step.Ok? ==> pd.plotdict == step.value
    ensures pd.rootObjects == old(pd.rootObjects)
  {
    if !IsList(pd.plotdict, "projection_result_nicks") {
      return ListAt(pd.plotdict, "projection_result_nicks").PropagateFailure();
    }
    var current := pd.plotdict["projection_result_nicks"].items;
    if index >= |current| {
      return Err(IndexError);
    }
    if !IsList(pd.plotdict, "nicks") {
      return ListAt(pd.plotdict, "nicks").PropagateFailure();
    }
    if current[index] !in pd.plotdict["nicks"].items && Truthy(notOverride) {
      pd.plotdict := pd.plotdict["nicks" := VList(pd.plotdict["nicks"].items + [current[index]])];
    }
    step := Ok(pd.plotdict);
  }

  /** `prepare_args`: the fit-range cleanup and the result-nick loop, in place. */
  method PrepareArgs(pd: PlotData, broadcast: Dict -> Dict) returns (outcome: Result<Dict>)
    modifies pd
    ensures outcome == Prepared(broadcast(old(pd.plotdict)))
    ensures outcome.Ok? ==> pd.plotdict == outcome.value
    ensures pd.rootObjects == old(pd.rootObjects)
  {
    pd.plotdict := broadcast(pd.plotdict);
    var ranges := ListAt(pd.plotdict, "projection_fit_range");
    if ranges.Err? {
      return Err(ranges.failure);
    }
    var cleaned := CleanFitRanges(ranges.value);
    if cleaned.Err? {
      return Err(cleaned.failure);
    }
    pd.plotdict := pd.plotdict["projection_fit_range" := VList(cleaned.value)];
    var zipped := ZipKeys(pd.plotdict, ["projection_not_override", "projection_to_nick", "projection_result_nicks"]);
    if zipped.Err? {
      return Err(zipped.failure);
    }
    assert Prepared(broadcast(old(pd.plotdict))) == ResultNicksFrom(pd.plotdict, zipped.value, 0);
    outcome := ResultNicksInPlace(pd, zipped.value);
  }

  /** The loop over `zip(not_override, to_nick, result_nicks)`, on the plot dictionary in place. */
  method ResultNicksInPlace(pd: PlotData, rows: seq<seq<Value>>) returns (outcome: Result<Dict>)
    requires forall j :: 0 <= j < |rows| ==> |rows[j]| == 3
    modifies pd
    ensures outcome == ResultNicksFrom(old(pd.plotdict), rows, 0)
    ensures outcome.Ok? ==> pd.plotdict == outcome.value
    ensures pd.rootObjects == old(pd.rootObjects)
  {
    for index := 0 to |rows|
      invariant ResultNicksFrom(old(pd.plotdict), rows, 0) == ResultNicksFrom(pd.plotdict, rows, index)
      invariant pd.rootObjects == old(pd.rootObjects)
    {
      var step := ResultNickInPlace(pd, index, rows[index][0], rows[index][1], rows[index][2]);
      if step.Err? {
        return Err(step.failure);
      }
    }
    outcome := Ok(pd.plotdict);
  }

  // ---------------------------------------------------------------------------
  // run (projectbyfit.py:79-149)

  /** One zipped entry of the fifteen projection lists. */
  datatype Projection = Projection(
    formula: Value, startParameter: Value, toPlot: Value, fitRange: Value, nick: Value,
    backend: Value, binMinX: Value, binMaxX: Value, option: Value, cutBinsFilled: Value,
    binMinY: Value, binMaxY: Value, slicesZ: Value, resultNick: Value, notOverride: Value)

  const RunKeys: seq<string> := [
    "projection_functions", "projection_parameters", "projection_to_plot", "projection_fit_range",
    "projection_to_nick", "projection_fit_backend", "projection_bins_minx", "projection_bins_maxx",
    "projection_options", "projection_cuts_bins_filled", "projection_bins_miny", "projection_bins_maxy",
    "projection_fit_slices_z", "projection_result_nicks", "projection_not_override"]

  function ToProjection(row: seq<Value>): Projection
    requires |row| == 15
  {
    Projection(row[0], row[1], row[2], row[3], row[4], row[5], row[6], row[7], row[8], row[9],
               row[10], row[11], row[12], row[13], row[14])
  }

  /** Which fitted parameter histograms the result is built from. */
  datatype Selection =
    | SingleSlice(index: string)          // `parameter_to_plot.isdigit()`: that parameter's histogram
    | Combined(formula: string, count: nat)  // otherwise: all `count` parameter histograms through the formula

  /** The arguments of a ROOT slice fit. */
  datatype SliceFit = SliceFit(histogram: RootObject, formula: Value, low: real, high: real, start: seq<real>,
                               bins: seq<int>, option: Value, slicesZ: bool)

  /** The ROOT and RooFit work of `run`, as uninterpreted functions. */
  datatype SliceOps = SliceOps(
    rootSlices: (SliceFit, Selection) -> RootObject,
    rooSlices: (RootObject, Value, seq<real>, Value) -> RootObject)

  /**
   * The fit range: "low,high" when given (only the first two values are read),
   * otherwise the whole Y axis, or the Z axis for `FitSlicesZ`.
   */
  function FitRange(fitRange: Value, histogram: RootObject, slicesZ: bool, parse: string -> Option<real>): (r: Result<(real, real)>)
    ensures fitRange == VNone && !slicesZ ==> r == Ok((histogram.yAxis.low, histogram.yAxis.high))
    ensures fitRange == VNone && slicesZ ==> r == Ok((histogram.zAxis.low, histogram.zAxis.high))
    ensures fitRange.VStr? && r.Ok? ==> var parts := Split(fitRange.s, [',']);
              |parts| >= 2 && parse(parts[0]) == Some(r.value.0) && parse(parts[1]) == Some(r.value.1)
  {
    if fitRange != VNone then
      if !fitRange.VStr? then Err(AttributeError)
      else
        var parts := Split(fitRange.s, [',']);
        var low :- ParseFloat(parts[0], parse);
        if |parts| < 2 then Err(IndexError)
        else
          var high :- ParseFloat(parts[1], parse);
          Ok((low, high))
    else if !slicesZ then Ok((histogram.yAxis.low, histogram.yAxis.high))
    else Ok((histogram.zAxis.low, histogram.zAxis.high))
  }

  /** `[float(x) for x in start_parameter.split(",")]` */
  function StartParameters(v: Value, parse: string -> Option<real>): (r: Result<seq<real>>)
    ensures r.Ok? ==> v.VStr? && |r.value| == Count(v.s, ',') + 1
  {
    if v.VStr? then
      SplitCount(v.s, ',');
      ParseFloats(Split(v.s, [',']), parse)
    else Err(AttributeError)
  }

  /** The class the input must have: TH3 for `FitSlicesZ`, TH2 otherwise. */
  predicate AcceptedClass(histogram: RootObject, slicesZ: bool) {
    StartsWith(histogram.className, if slicesZ then "TH3" else "TH2")
  }

  /** The fitted histogram of one entry, from the store as it was before `run`. */
  function Fitted(store: Store, e: Projection, ops: SliceOps, parse: string -> Option<real>, parseInt: string -> Option<int>): (r: Result<RootObject>)
    ensures r.Ok? ==> e.nick.VStr? && e.nick.s in store && AcceptedClass(store[e.nick.s], Truthy(e.slicesZ))
    ensures r.Ok? ==> e.backend == VStr("ROOT") || e.backend == VStr("RooFit")
    ensures e.nick.VStr? && e.nick.s in store && !AcceptedClass(store[e.nick.s], Truthy(e.slicesZ)) ==> r == Err(Exit(1))
    ensures !(e.nick.VStr? && e.nick.s in store) ==> r == Lookup(store, e.nick).PropagateFailure()
  {
    var histogram :- Lookup(store, e.nick);
    var slicesZ := Truthy(e.slicesZ);
    if !AcceptedClass(histogram, slicesZ) then Err(Exit(1))
    else
      var range :- FitRange(e.fitRange, histogram, slicesZ, parse);
      var start :- StartParameters(e.startParameter, parse);
      if e.backend == VStr("ROOT") then
        var binArgs := if slicesZ then [e.binMinX, e.binMaxX, e.binMinY, e.binMaxY, e.cutBinsFilled]
                       else [e.binMinX, e.binMaxX, e.cutBinsFilled];
        var bins :- MapResult(binArgs, v => IntOf(v, parseInt));
        var selection :-
          if !e.toPlot.VStr? then Err(AttributeError)
          else if IsDigits(e.toPlot.s) then Ok(SingleSlice(e.toPlot.s))
          else Ok(Combined(e.toPlot.s, |start|));
        Ok(ops.rootSlices(SliceFit(histogram, e.formula, range.0, range.1, start, bins, e.option, slicesZ), selection))
      else if e.backend == VStr("RooFit") then Ok(ops.rooSlices(histogram, e.formula, start, e.toPlot))
      else Err(Exit(1))
  }

  /** A ROOT fit reads one parameter histogram for an all-digit selection, otherwise combines one per start parameter. */
  lemma SelectionRule(store: Store, e: Projection, ops: SliceOps, parse: string -> Option<real>, parseInt: string -> Option<int>)
    requires e.backend == VStr("ROOT") && e.toPlot.VStr?
    requires Fitted(store, e, ops, parse, parseInt).Ok?
    ensures var start := StartParameters(e.startParameter, parse).value;
            exists fit: SliceFit :: fit.option == e.option && fit.start == start &&
              Fitted(store, e, ops, parse, parseInt).value
                == ops.rootSlices(fit, if IsDigits(e.toPlot.s) then SingleSlice(e.toPlot.s) else Combined(e.toPlot.s, Count(e.startParameter.s, ',') + 1))
  {
  }

  /** Any backend but ROOT and RooFit stops the process with status 1 once the input passes its checks. */
  lemma UnknownBackendExits(store: Store, e: Projection, ops: SliceOps, parse: string -> Option<real>, parseInt: string -> Option<int>)
    requires e.backend != VStr("ROOT") && e.backend != VStr("RooFit")
    requires e.nick.VStr? && e.nick.s in store && AcceptedClass(store[e.nick.s], Truthy(e.slicesZ))
    requires FitRange(e.fitRange, store[e.nick.s], Truthy(e.slicesZ), parse).Ok?
    requires StartParameters(e.startParameter, parse).Ok?
    ensures Fitted(store, e, ops, parse, parseInt) == Err(Exit(1))
  {
  }

  /** The key a result is stored under: the result nick with not-override set, else the input nick. */
  function ResultKey(e: Projection): (r: Result<string>)
    ensures r.Ok? ==> (Truthy(e.notOverride) ==> e.resultNick == VStr(r.value)) && (!Truthy(e.notOverride) ==> e.nick == VStr(r.value))
  {
    var key := if Truthy(e.notOverride) then e.resultNick else e.nick;
    if key.VStr? then Ok(key.s) else Err(TypeError)
  }

  /** The results of the entries from `i` on, added to `results` in order. */
  function ResultsFrom(store: Store, entries: seq<Projection>, i: nat, results: Store,
                       ops: SliceOps, parse: string -> Option<real>, parseInt: string -> Option<int>): Result<Store>
    decreases |entries| - i
  {
    if i >= |entries| then Ok(results)
    else
      var fitted :- Fitted(store, entries[i], ops, parse, parseInt);
      var key :- ResultKey(entries[i]);
      ResultsFrom(store, entries, i + 1, results[key := fitted], ops, parse, parseInt)
  }

  /** Entry `j` is the last one from `i` on to write its key. */
  ghost predicate LastWith(entries: seq<Projection>, j: nat, key: string) {
    j < |entries| && ResultKey(entries[j]) == Ok(key)
    && forall l :: j < l < |entries| ==> ResultKey(entries[l]) != Ok(key)
  }

  /**
   * A later entry with the same key wins: every key ends with the result of the
   * last entry writing it, and keys no entry writes keep their earlier value.
   */
  lemma {:induction false} LaterEntryWins(store: Store, entries: seq<Projection>, i: nat, results: Store,
                                          ops: SliceOps, parse: string -> Option<real>, parseInt: string -> Option<int>)
    requires ResultsFrom(store, entries, i, results, ops, parse, parseInt).Ok?
    ensures var r := ResultsFrom(store, entries, i, results, ops, parse, parseInt).value;
            && (forall j: nat, key: string :: i <= j && LastWith(entries, j, key) ==>
                  key in r && Fitted(store, entries[j], ops, parse, parseInt) == Ok(r[key]))
            && (forall key :: key in results && (forall j :: i <= j < |entries| ==> ResultKey(entries[j]) != Ok(key)) ==>
                  key in r && r[key] == results[key])
    decreases |entries| - i
  {
    if i < |entries| {
      var fitted := Fitted(store, entries[i], ops, parse, parseInt).value;
      var key := ResultKey(entries[i]).value;
      var results1 := results[key := fitted];
      LaterEntryWins(store, entries, i + 1, results1, ops, parse, parseInt);
      var r := ResultsFrom(store, entries, i, results, ops, parse, parseInt).value;
      assert r == ResultsFrom(store, entries, i + 1, results1, ops, parse, parseInt).value;
      forall j: nat, k: string | i <= j && LastWith(entries, j, k)
        ensures k in r && Fitted(store, entries[j], ops, parse, parseInt) == Ok(r[k])
      {
        if j == i {
          assert k == key;
          assert k in results1 && forall l :: i + 1 <= l < |entries| ==> ResultKey(entries[l]) != Ok(k);
        } else {
          assert i + 1 <= j;
        }
      }
      forall k | k in results && (forall j :: i <= j < |entries| ==> ResultKey(entries[j]) != Ok(k))
        ensures k in r && r[k] == results[k]
      {
        assert ResultKey(entries[i]) != Ok(k);
        assert k != key && k in results1 && results1[k] == results[k];
        assert forall j :: i + 1 <= j < |entries| ==> ResultKey(entries[j]) != Ok(k);
      }
    }
  }

  /** Each row of the fifteen-list `zip` holds item `i` of each list, in the order of `RunKeys`. */
  lemma RowFields(d: Dict)
    requires ZipKeys(d, RunKeys).Ok?
    ensures var rows := ZipKeys(d, RunKeys).value;
            forall i :: 0 <= i < |rows| ==> ToProjection(rows[i]) == Projection(
              ItemOf(d, "projection_functions", i), ItemOf(d, "projection_parameters", i),
              ItemOf(d, "projection_to_plot", i), ItemOf(d, "projection_fit_range", i),
              ItemOf(d, "projection_to_nick", i), ItemOf(d, "projection_fit_backend", i),
              ItemOf(d, "projection_bins_minx", i), ItemOf(d, "projection_bins_maxx", i),
              ItemOf(d, "projection_options", i), ItemOf(d, "projection_cuts_bins_filled", i),
              ItemOf(d, "projection_bins_miny", i), ItemOf(d, "projection_bins_maxy", i),
              ItemOf(d, "projection_fit_slices_z", i), ItemOf(d, "projection_result_nicks", i),
              ItemOf(d, "projection_not_override", i))
  {
    var rows := ZipKeys(d, RunKeys).value;
    ZipKeysColumns(d, RunKeys);
    forall i | 0 <= i < |rows|
      ensures forall j :: 0 <= j < 15 ==> rows[i][j] == ItemOf(d, RunKeys[j], i)
    {
    }
  }

  /** The entries of `zip` over the fifteen projection lists. */
  function Projections(d: Dict): (r: Result<seq<Projection>>)
    ensures r.Ok? <==> ZipKeys(d, RunKeys).Ok?
    ensures r.Ok? ==> |r.value| == |ZipKeys(d, RunKeys).value|
    ensures r.Ok? ==> forall i :: 0 <= i < |r.value| ==> r.value[i] == Projection(
              ItemOf(d, "projection_functions", i), ItemOf(d, "projection_parameters", i),
              ItemOf(d, "projection_to_plot", i), ItemOf(d, "projection_fit_range", i),
              ItemOf(d, "projection_to_nick", i), ItemOf(d, "projection_fit_backend", i),
              ItemOf(d, "projection_bins_minx", i), ItemOf(d, "projection_bins_maxx", i),
              ItemOf(d, "projection_options", i), ItemOf(d, "projection_cuts_bins_filled", i),
              ItemOf(d, "projection_bins_miny", i), ItemOf(d, "projection_bins_maxy", i),
              ItemOf(d, "projection_fit_slices_z", i), ItemOf(d, "projection_result_nicks", i),
              ItemOf(d, "projection_not_override", i))
  {
    var rows :- ZipKeys(d, RunKeys);
    RowFields(d);
    Ok(seq(|rows|, i requires 0 <= i < |rows| => ToProjection(rows[i])))
  }

  /** `run`: fits on the store as it was, then `root_objects.update(result_histograms)`. */
  function RunSpec(s: PlotState, ops: SliceOps, parse: string -> Option<real>, parseInt: string -> Option<int>): Result<Store>
  {
    var entries :- Projections(s.plotdict);
    var results :- ResultsFrom(s.rootObjects, entries, 0, map[], ops, parse, parseInt);
    Ok(s.rootObjects + results)
  }

  /**
   * The store after `run`: each key ends with the result of the last entry
   * writing it, and a key no entry writes keeps its value.
   */
  lemma RunUpdatesStore(s: PlotState, entries: seq<Projection>, results: Store,
                        ops: SliceOps, parse: string -> Option<real>, parseInt: string -> Option<int>)
    requires Projections(s.plotdict) == Ok(entries)
    requires ResultsFrom(s.rootObjects, entries, 0, map[], ops, parse, parseInt) == Ok(results)
    ensures RunSpec(s, ops, parse, parseInt) == Ok(s.rootObjects + results)
    ensures forall j: nat, key: string :: LastWith(entries, j, key) ==>
              key in results && Fitted(s.rootObjects, entries[j], ops, parse, parseInt) == Ok((s.rootObjects + results)[key])
    ensures forall key :: key in s.rootObjects && (forall j :: 0 <= j < |entries| ==> ResultKey(entries[j]) != Ok(key)) ==>
              (s.rootObjects + results)[key] == s.rootObjects[key]
  {
    LaterEntryWins(s.rootObjects, entries, 0, map[], ops, parse, parseInt);
    ResultKeysWritten(s.rootObjects, entries, 0, map[], ops, parse, parseInt);
    UpdateKeeps(s.rootObjects, results);
  }

  lemma UpdateKeeps(store: Store, results: Store)
    ensures forall key :: key in results ==> (store + results)[key] == results[key]
    ensures forall key :: key in store && key !in results ==> (store + results)[key] == store[key]
  {
  }

  /** The results hold exactly the keys already there and the keys the entries write. */
  lemma {:induction false} ResultKeysWritten(store: Store, entries: seq<Projection>, i: nat, results: Store,
                                             ops: SliceOps, parse: string -> Option<real>, parseInt: string -> Option<int>)
    requires ResultsFrom(store, entries, i, results, ops, parse, parseInt).Ok?
    ensures forall key :: key in ResultsFrom(store, entries, i, results, ops, parse, parseInt).value ==>
              key in results || exists j :: i <= j < |entries| && ResultKey(entries[j]) == Ok(key)
    decreases |entries| - i
  {
    if i < |entries| {
      var fitted := Fitted(store, entries[i], ops, parse, parseInt).value;
      var key := ResultKey(entries[i]).value;
      ResultKeysWritten(store, entries, i + 1, results[key := fitted], ops, parse, parseInt);
    }
  }

  /** The loop of `run`: each entry fitted and filed under its result key, the store read only. */
  method CollectResults(store: Store, entries: seq<Projection>, ops: SliceOps,
                        parse: string -> Option<real>, parseInt: string -> Option<int>) returns (outcome: Result<Store>)
    ensures outcome == ResultsFrom(store, entries, 0, map[], ops, parse, parseInt)
  {
    var results: Store := map[];
    for i := 0 to |entries|
      invariant ResultsFrom(store, entries, 0, map[], ops, parse, parseInt)
                == ResultsFrom(store, entries, i, results, ops, parse, parseInt)
    {
      var fitted := Fitted(store, entries[i], ops, parse, parseInt);
      if fitted.Err? {
        return Err(fitted.failure);
      }
      var key := ResultKey(entries[i]);
      if key.Err? {
        return Err(key.failure);
      }
      results := results[key.value := fitted.value];
    }
    outcome := Ok(results);
  }

  /** `run`: the entry loop collects results without touching the store, which is updated once at the end. */
  method Run(pd: PlotData, ops: SliceOps, parse: string -> Option<real>, parseInt: string -> Option<int>) returns (outcome: Result<Store>)
    modifies pd
    ensures outcome == RunSpec(old(pd.State()), ops, parse, parseInt)
    ensures outcome.Ok? ==> pd.rootObjects == outcome.value
    ensures pd.plotdict == old(pd.plotdict)
  {
    var projections := Projections(pd.plotdict);
    if projections.Err? {
      return Err(projections.failure);
    }
    var results := CollectResults(pd.rootObjects, projections.value, ops, parse, parseInt);
    if results.Err? {
      return Err(results.failure);
    }
    pd.rootObjects := pd.rootObjects + results.value;
    outcome := Ok(pd.rootObjects);
  }
}