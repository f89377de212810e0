/**
 * The HarryPlotter `ProjectByFit`: TH2 histograms only, `FitSlicesY` or RooFit, and
 * each input histogram replaced in the store by its projection (delete, then update).
 *
 * The fit range and start parameters are read as in the clipl module, whose
 * functions are reused. The ROOT and RooFit slice fits are uninterpreted.
 */
module ProjectByFitHarry {
  import opened Wrappers
  import opened PyValues
  import opened Strings
  import ProjectByFitClipl

  // ---------------------------------------------------------------------------
  // prepare_args (projectbyfit.py:36-41)

  const ProjectionKeys: set<string> := {
    "projection_function", "projection_parameters", "projection_to_plot",
    "projection_fit_range", "projection_to_nick", "fit_backend"}

  /** Only `projection_fit_range` changes: its strings lose their backslashes. */
  function Prepared(d: Dict): (r: Result<Dict>)
    ensures r.Ok? ==> IsList(d, "projection_fit_range") && r.value.Keys == d.Keys
    ensures r.Ok? ==> forall k :: k in d && k != "projection_fit_range" ==> r.value[k] == d[k]
    ensures r.Ok? ==> var before, after := d["projection_fit_range"].items, r.value["projection_fit_range"];
                      && after.VList? && |after.items| == |before|
                      && forall i :: 0 <= i < |before| ==>
                           (before[i] == VNone ==> after.items[i] == VNone)
                           && (before[i].VStr? ==> after.items[i] == VStr(Without(before[i].s, '\\')))
  {
    var ranges :- ListAt(d, "projection_fit_range");
    var cleaned :- ProjectByFitClipl.CleanFitRanges(ranges);
    Ok(d["projection_fit_range" := VList(cleaned)])
  }

  /** A fit range that is neither `None` nor a string stops preparation. */
  lemma PreparedRejectsNonString(d: Dict, i: nat)
    requires IsList(d, "projection_fit_range") && i < |d["projection_fit_range"].items|
    requires var x := d["projection_fit_range"].items[i]; x != VNone && !x.VStr?
    ensures Prepared(d) == Err(AttributeError)
  {
    var ranges := d["projection_fit_range"].items;
    assert ProjectByFitClipl.CleanFitRange(ranges[i]).Err?;
    assert ProjectByFitClipl.CleanFitRanges(ranges).Err?;
  }

  /** `prepare_args` after the list broadcast: the fit ranges are rewritten in place. */
  method PrepareArgs(pd: PlotData, broadcast: Dict -> Dict) returns (outcome: Result<Dict>)
    modifies pd
    ensures outcome == Prepared(broadcast(old(pd.plotdict)))
    ensures outcome.Ok? ==> pd.plotdict == outcome.value
    ensures pd.rootObjects == old(pd.rootObjects)
  {
    pd.plotdict := broadcast(pd.plotdict);
    outcome := Prepared(pd.plotdict);
    if outcome.Ok? {
      pd.plotdict := outcome.value;
    }
  }

  // ---------------------------------------------------------------------------
  // run (projectbyfit.py:43-81)

  /** One zipped entry of the six projection lists. */
  datatype Projection = Projection(formula: Value, startParameter: Value, selection: Value,
                                   fitRange: Value, nick: Value, backend: Value)

  const RunKeys: seq<string> := [
    "projection_function", "projection_parameters", "projection_to_plot",
    "projection_fit_range", "projection_to_nick", "fit_backend"]

  /** Each row of the six-list `zip` holds item `i` of each list, in the order of `RunKeys`. */
  lemma RowFields(d: Dict)
    requires ZipKeys(d, RunKeys).Ok?
    ensures var rows := ZipKeys(d, RunKeys).value;
            forall i :: 0 <= i < |rows| ==>
              && rows[i][0] == ItemOf(d, "projection_function", i) && rows[i][1] == ItemOf(d, "projection_parameters", i)
              && rows[i][2] == ItemOf(d, "projection_to_plot", i) && rows[i][3] == ItemOf(d, "projection_fit_range", i)
              && rows[i][4] == ItemOf(d, "projection_to_nick", i) && rows[i][5] == ItemOf(d, "fit_backend", i)
  {
    var rows := ZipKeys(d, RunKeys).value;
    ZipKeysColumns(d, RunKeys);
    forall i | 0 <= i < |rows|
      ensures forall j :: 0 <= j < 6 ==> rows[i][j] == ItemOf(d, RunKeys[j], i)
    {
    }
  }

  /** The entries of the six-list `zip`, one field per list. */
  function Projections(d: Dict): (r: Result<seq<Projection>>)
    ensures r.Ok? <==> ZipKeys(d, RunKeys).Ok?
    ensures r.Ok? ==> |r.value| == |ZipKeys(d, RunKeys).value|
    ensures r.Ok? ==> forall i :: 0 <= i < |r.value| ==> r.value[i] == Projection(
              ItemOf(d, "projection_function", i), ItemOf(d, "projection_parameters", i),
              ItemOf(d, "projection_to_plot", i), ItemOf(d, "projection_fit_range", i),
              ItemOf(d, "projection_to_nick", i), ItemOf(d, "fit_backend", i))
  {
    var rows :- ZipKeys(d, RunKeys);
    RowFields(d);
    Ok(seq(|rows|, i requires 0 <= i < |rows| => Projection(rows[i][0], rows[i][1], rows[i][2], rows[i][3], rows[i][4], rows[i][5])))
  }

  /** The arguments of a `FitSlicesY` fit. */
  datatype SliceFit = SliceFit(histogram: RootObject, formula: Value, low: real, high: real, start: seq<real>)

  /** The projection `FitSlicesY` leaves under `<name>_<selection>`, and the RooFit slice fit. */
  datatype SliceOps = SliceOps(
    rootSlices: (SliceFit, Value) -> RootObject,
    rooSlices: (RootObject, Value, seq<real>, Value) -> RootObject)

  /**
   * The fitted histogram of one entry. With a backend other than ROOT and RooFit the
   * code as written assigns nothing, so `fitted_histogram` still holds the previous
   * entry's result (`last`), or is unbound on the first entry; corrected, it exits.
   */
  function Fitted(variant: Variant, store: Store, e: Projection, last: Option<RootObject>,
                  ops: SliceOps, parse: string -> Option<real>): (r: Result<RootObject>)
    ensures r.Ok? ==> e.nick.VStr? && e.nick.s in store && StartsWith(store[e.nick.s].className, "TH2")
    ensures e.nick.VStr? && e.nick.s in store && !StartsWith(store[e.nick.s].className, "TH2") ==> r == Err(Exit(1))
    ensures !(e.nick.VStr? && e.nick.s in store) ==> r == Lookup(store, e.nick).PropagateFailure()
  {
    var histogram :- Lookup(store, e.nick);
    if !StartsWith(histogram.className, "TH2") then Err(Exit(1))
    else
      var range :- ProjectByFitClipl.FitRange(e.fitRange, histogram, false, parse);
      var start :- ProjectByFitClipl.StartParameters(e.startParameter, parse);
      if e.backend == VStr("ROOT") then Ok(ops.rootSlices(SliceFit(histogram, e.formula, range.0, range.1, start), e.selection))
      else if e.backend == VStr("RooFit") then Ok(ops.rooSlices(histogram, e.formula, start, e.selection))
      else match variant
        case AsWritten => if last.Some? then Ok(last.value) else Err(UnboundLocalError("fitted_histogram"))
        case Corrected => Err(Exit(1))
  }

  /** What the entry loop accumulates: `result_histograms`, `histograms_to_replace` and the last `fitted_histogram`. */
  datatype Acc = Acc(results: Store, toReplace: seq<string>, last: Option<RootObject>)

  function Step(variant: Variant, store: Store, e: Projection, acc: Acc, ops: SliceOps, parse: string -> Option<real>): Result<Acc>
  {
    var fitted :- Fitted(variant, store, e, acc.last, ops, parse);
    Ok(Acc(acc.results[e.nick.s := fitted], acc.toReplace + [e.nick.s], Some(fitted)))
  }

  function AccFrom(variant: Variant, store: Store, entries: seq<Projection>, i: nat, acc: Acc,
                   ops: SliceOps, parse: string -> Option<real>): Result<Acc>
    decreases |entries| - i
  {
    if i >= |entries| then Ok(acc)
    else
      var acc1 :- Step(variant, store, entries[i], acc, ops, parse);
      AccFrom(variant, store, entries, i + 1, acc1, ops, parse)
  }

  /** `for nick in l: del store[nick]` */
  function DeleteAll(store: Store, l: seq<string>): Result<Store>
  {
    if l == [] then Ok(store)
    else if l[0] !in store then Err(KeyError(l[0]))
    else DeleteAll(store - {l[0]}, l[1..])
  }

  /**
   * The deletions succeed exactly when every nick is in the store and none is
   * listed twice; they then remove exactly those keys.
   */
  lemma {:induction false} DeleteAllSpec(store: Store, l: seq<string>)
    ensures DeleteAll(store, l).Ok? <==> (forall i :: 0 <= i < |l| ==> l[i] in store) && NoDuplicates(l)
    ensures DeleteAll(store, l).Ok? ==>
              forall k :: (k in DeleteAll(store, l).value <==> k in store && k !in l)
                          && (k in DeleteAll(store, l).value ==> DeleteAll(store, l).value[k] == store[k])
  {
    if l != [] {
      var rest := store - {l[0]};
      DeleteAllSpec(rest, l[1..]);
      if l[0] in store {
        if (forall i :: 0 <= i < |l| ==> l[i] in store) && NoDuplicates(l) {
          assert forall i :: 0 <= i < |l[1..]| ==> l[1..][i] in rest by {
            forall i | 0 <= i < |l[1..]|
              ensures l[1..][i] in rest
            {
              assert l[1..][i] == l[i + 1] && l[0] != l[i + 1];
            }
          }
          assert NoDuplicates(l[1..]) by {
            forall i, j | 0 <= i < j < |l[1..]|
              ensures l[1..][i] != l[1..][j]
            {
              assert l[1..][i] == l[i + 1] && l[1..][j] == l[j + 1];
            }
          }
        }
        if DeleteAll(rest, l[1..]).Ok? {
          assert forall i :: 0 <= i < |l| ==> l[i] in store by {
            forall i | 0 <= i < |l|
              ensures l[i] in store
            {
              if i > 0 {
                assert l[i] == l[1..][i - 1];
              }
            }
          }
          assert NoDuplicates(l) by {
            forall i, j | 0 <= i < j < |l|
              ensures l[i] != l[j]
            {
              if i == 0 {
                assert l[j] == l[1..][j - 1] && l[j] in rest;
              } else {
                assert l[i] == l[1..][i - 1] && l[j] == l[1..][j - 1];
              }
            }
          }
          forall k
            ensures k in l <==> k == l[0] || k in l[1..]
          {
            assert l == [l[0]] + l[1..];
          }
        }
      }
    }
  }

  /** `run`: the entry loop, the deletions, then `root_objects.update(result_histograms)`. */
  function RunSpec(variant: Variant, s: PlotState, ops: SliceOps, parse: string -> Option<real>): Result<Store>
  {
    var entries :- Projections(s.plotdict);
    var acc :- AccFrom(variant, s.rootObjects, entries, 0, Acc(map[], [], None), ops, parse);
    var kept :- DeleteAll(s.rootObjects, acc.toReplace);
    Ok(kept + acc.results)
  }

  /**
   * `r` is `before` followed by the nick of every entry from `i` on, in order,
   * each a key of the store.
   */
  predicate ListsNicks(store: Store, entries: seq<Projection>, i: nat, before: seq<string>, r: seq<string>)
  {
    && i <= |entries|
    && |r| == |before| + |entries| - i && r[..|before|] == before
    && forall j :: i <= j < |entries| ==> entries[j].nick == VStr(r[|before| + j - i]) && entries[j].nick.s in store
  }

  /** The loop lists every entry's nick, in order, each a key of the store. */
  lemma {:induction false} AccFromNicks(variant: Variant, store: Store, entries: seq<Projection>, i: nat, acc: Acc,
                                        ops: SliceOps, parse: string -> Option<real>)
    requires i <= |entries|
    requires AccFrom(variant, store, entries, i, acc, ops, parse).Ok?
    ensures ListsNicks(store, entries, i, acc.toReplace, AccFrom(variant, store, entries, i, acc, ops, parse).value.toReplace)
    decreases |entries| - i
  {
    if i < |entries| {
      var acc1 := Step(variant, store, entries[i], acc, ops, parse).value;
      StepNick(variant, store, entries[i], acc, ops, parse);
      assert AccFrom(variant, store, entries, i, acc, ops, parse) == AccFrom(variant, store, entries, i + 1, acc1, ops, parse);
      AccFromNicks(variant, store, entries, i + 1, acc1, ops, parse);
      NicksShift(store, entries, i, acc.toReplace, acc1.toReplace,
                 AccFrom(variant, store, entries, i + 1, acc1, ops, parse).value.toReplace);
    } else {
      assert AccFrom(variant, store, entries, i, acc, ops, parse) == Ok(acc);
      assert acc.toReplace[..|acc.toReplace|] == acc.toReplace;
    }
  }

  /** Listed from the first entry on an empty list, the nicks are exactly the entries' nicks, in order. */
  lemma NicksFromStart(store: Store, entries: seq<Projection>, r: seq<string>)
    requires ListsNicks(store, entries, 0, [], r)
    ensures |r| == |entries| && forall j :: 0 <= j < |entries| ==> entries[j].nick == VStr(r[j]) && entries[j].nick.s in store
  {
    forall j | 0 <= j < |entries|
      ensures entries[j].nick == VStr(r[j]) && entries[j].nick.s in store
    {
      var none: seq<string> := [];
      assert |none| + j - 0 == j;
    }
  }

  /** The nicks listed from entry `i + 1` on, behind the nick of entry `i`, are the nicks listed from `i` on. */
  lemma NicksShift(store: Store, entries: seq<Projection>, i: nat, before: seq<string>, after: seq<string>, r: seq<string>)
    requires i < |entries| && entries[i].nick.VStr? && entries[i].nick.s in store
    requires after == before + [entries[i].nick.s]
    requires ListsNicks(store, entries, i + 1, after, r)
    ensures ListsNicks(store, entries, i, before, r)
  {
    var n := |before|;
    assert r[..n] == r[..n + 1][..n];
    assert r[n] == r[..n + 1][n] == after[n];
    forall j | i + 1 <= j < |entries|
      ensures entries[j].nick == VStr(r[n + j - i]) && entries[j].nick.s in store
    {
      assert n + j - i == |after| + j - (i + 1);
    }
  }

  /** One turn of the loop lists the entry's nick, a key of the store. */
  lemma StepNick(variant: Variant, store: Store, e: Projection, acc: Acc, ops: SliceOps, parse: string -> Option<real>)
    requires Step(variant, store, e, acc, ops, parse).Ok?
    ensures e.nick.VStr? && e.nick.s in store
    ensures Step(variant, store, e, acc, ops, parse).value.toReplace == acc.toReplace + [e.nick.s]
  {
  }

  /** The loop stores a result under exactly the nicks it lists. */
  lemma {:induction false} AccFromResultKeys(variant: Variant, store: Store, entries: seq<Projection>, i: nat, acc: Acc,
                                             ops: SliceOps, parse: string -> Option<real>)
    requires AccFrom(variant, store, entries, i, acc, ops, parse).Ok?
    requires forall k :: k in acc.results <==> k in acc.toReplace
    ensures var r := AccFrom(variant, store, entries, i, acc, ops, parse).value;
            forall k :: k in r.results <==> k in r.toReplace
    decreases |entries| - i
  {
    if i < |entries| {
      var acc1 := Step(variant, store, entries[i], acc, ops, parse).value;
      AccFromResultKeys(variant, store, entries, i + 1, acc1, ops, parse);
    }
  }

  /** With a corrected backend check, the result under a nick is the fit of the last entry with that nick. */
  lemma {:induction false} AccFromLastWins(store: Store, entries: seq<Projection>, i: nat, acc: Acc,
                                           ops: SliceOps, parse: string -> Option<real>)
    requires AccFrom(Corrected, store, entries, i, acc, ops, parse).Ok?
    ensures var r := AccFrom(Corrected, store, entries, i, acc, ops, parse).value;
            forall j :: i <= j < |entries| && (forall l :: j < l < |entries| ==> entries[l].nick != entries[j].nick) ==>
              entries[j].nick.VStr? && entries[j].nick.s in r.results
              && Fitted(Corrected, store, entries[j], None, ops, parse) == Ok(r.results[entries[j].nick.s])
    decreases |entries| - i
  {
    if i < |entries| {
      var acc1 := Step(Corrected, store, entries[i], acc, ops, parse).value;
      AccFromLastWins(store, entries, i + 1, acc1, ops, parse);
      var r := AccFrom(Corrected, store, entries, i, acc, ops, parse).value;
      assert r == AccFrom(Corrected, store, entries, i + 1, acc1, ops, parse).value;
      forall j | i <= j < |entries| && (forall l :: j < l < |entries| ==> entries[l].nick != entries[j].nick)
        ensures entries[j].nick.VStr? && entries[j].nick.s in r.results
        ensures Fitted(Corrected, store, entries[j], None, ops, parse) == Ok(r.results[entries[j].nick.s])
      {
        if j == i {
          var key := entries[i].nick.s;
          FittedIgnoresLast(store, entries[i], acc.last, ops, parse);
          assert acc1.results[key] == Fitted(Corrected, store, entries[i], acc.last, ops, parse).value;
          AccFromKeeps(store, entries, i + 1, acc1, ops, parse, key);
        }
      }
    }
  }

  /** With the corrected backend check, an entry's fit does not depend on the previous one. */
  lemma FittedIgnoresLast(store: Store, e: Projection, last: Option<RootObject>, ops: SliceOps, parse: string -> Option<real>)
    ensures Fitted(Corrected, store, e, last, ops, parse) == Fitted(Corrected, store, e, None, ops, parse)
  {
  }

  /** A nick no later entry processes keeps its result. */
  lemma {:induction false} AccFromKeeps(store: Store, entries: seq<Projection>, i: nat, acc: Acc,
                                        ops: SliceOps, parse: string -> Option<real>, key: string)
    requires AccFrom(Corrected, store, entries, i, acc, ops, parse).Ok?
    requires key in acc.results
    requires forall l :: i <= l < |entries| ==> entries[l].nick != VStr(key)
    ensures var r := AccFrom(Corrected, store, entries, i, acc, ops, parse).value;
            key in r.results && r.results[key] == acc.results[key]
    decreases |entries| - i
  {
    if i < |entries| {
      var acc1 := Step(Corrected, store, entries[i], acc, ops, parse).value;
      AccFromKeeps(store, entries, i + 1, acc1, ops, parse, key);
    }
  }

  /** What `run` does once the entry loop has succeeded: the deletions, then the update. */
  lemma RunAfterLoop(variant: Variant, s: PlotState, entries: seq<Projection>, acc: Acc,
                     ops: SliceOps, parse: string -> Option<real>)
    requires Projections(s.plotdict) == Ok(entries)
    requires AccFrom(variant, s.rootObjects, entries, 0, Acc(map[], [], None), ops, parse) == Ok(acc)
    ensures RunSpec(variant, s, ops, parse) == match DeleteAll(s.rootObjects, acc.toReplace)
              case Ok(kept) => Ok(kept + acc.results)
              case Err(f) => Err(f)
  {
  }

  /**
   * Once the entry loop succeeds, `run` succeeds exactly when the processed nicks
   * are distinct, and a nick listed twice fails its second deletion with a KeyError.
   */
  lemma RunNeedsDistinctNicks(variant: Variant, s: PlotState, entries: seq<Projection>, acc: Acc,
                              ops: SliceOps, parse: string -> Option<real>)
    requires Projections(s.plotdict) == Ok(entries)
    requires AccFrom(variant, s.rootObjects, entries, 0, Acc(map[], [], None), ops, parse) == Ok(acc)
    ensures |acc.toReplace| == |entries| && forall j :: 0 <= j < |entries| ==> entries[j].nick == VStr(acc.toReplace[j])
    ensures RunSpec(variant, s, ops, parse).Ok? <==> NoDuplicates(acc.toReplace)
    ensures RunSpec(variant, s, ops, parse).Err? ==> RunSpec(variant, s, ops, parse).failure.KeyError?
  {
    AccFromNicks(variant, s.rootObjects, entries, 0, Acc(map[], [], None), ops, parse);
    NicksFromStart(s.rootObjects, entries, acc.toReplace);
    DeleteAllSpec(s.rootObjects, acc.toReplace);
    DeleteAllFailure(s.rootObjects, acc.toReplace);
    RunAfterLoop(variant, s, entries, acc, ops, parse);
  }

  /**
   * After a successful `run` the store has the same keys; every processed nick
   * holds its result, and every other entry is untouched.
   */
  lemma RunReplaces(variant: Variant, s: PlotState, entries: seq<Projection>, acc: Acc,
                    ops: SliceOps, parse: string -> Option<real>)
    requires Projections(s.plotdict) == Ok(entries)
    requires AccFrom(variant, s.rootObjects, entries, 0, Acc(map[], [], None), ops, parse) == Ok(acc)
    requires RunSpec(variant, s, ops, parse).Ok?
    ensures var r := RunSpec(variant, s, ops, parse).value;
            && r.Keys == s.rootObjects.Keys
            && (forall k :: k in acc.toReplace ==> k in r && k in acc.results && r[k] == acc.results[k])
            && (forall k :: k in s.rootObjects && k !in acc.toReplace ==> k in r && r[k] == s.rootObjects[k])
  {
    AccFromResultKeys(variant, s.rootObjects, entries, 0, Acc(map[], [], None), ops, parse);
    ProcessedNicksInStore(variant, s.rootObjects, entries, acc, ops, parse);
    RunAfterLoop(variant, s, entries, acc, ops, parse);
    DeleteAllSpec(s.rootObjects, acc.toReplace);
    ReplaceKeys(s.rootObjects, acc.toReplace, acc.results, DeleteAll(s.rootObjects, acc.toReplace).value);
  }

  /** Every nick the entry loop lists is a key of the store. */
  lemma ProcessedNicksInStore(variant: Variant, store: Store, entries: seq<Projection>, acc: Acc,
                              ops: SliceOps, parse: string -> Option<real>)
    requires AccFrom(variant, store, entries, 0, Acc(map[], [], None), ops, parse) == Ok(acc)
    ensures forall k :: k in acc.toReplace ==> k in store
  {
    AccFromNicks(variant, store, entries, 0, Acc(map[], [], None), ops, parse);
    NicksFromStart(store, entries, acc.toReplace);
    NicksInStore(store, entries, acc.toReplace);
  }

  /** Deleting the listed keys and adding a result for exactly those keys replaces them and keeps the rest. */
  lemma ReplaceKeys(store: Store, nicks: seq<string>, results: Store, kept: Store)
    requires forall k :: k in nicks ==> k in store
    requires forall k :: k in results <==> k in nicks
    requires forall k :: (k in kept <==> k in store && k !in nicks) && (k in kept ==> kept[k] == store[k])
    ensures var r := kept + results;
            && r.Keys == store.Keys
            && (forall k :: k in nicks ==> k in r && k in results && r[k] == results[k])
            && (forall k :: k in store && k !in nicks ==> k in r && r[k] == store[k])
  {
    var r := kept + results;
    assert forall k :: k in r <==> k in store;
  }

  /** Nicks listed entry by entry, each a key of the store, are all keys of the store. */
  lemma NicksInStore(store: Store, entries: seq<Projection>, nicks: seq<string>)
    requires |nicks| == |entries|
    requires forall j :: 0 <= j < |entries| ==> entries[j].nick == VStr(nicks[j]) && entries[j].nick.s in store
    ensures forall k :: k in nicks ==> k in store
  {
    forall k | k in nicks
      ensures k in store
    {
      var j :| 0 <= j < |nicks| && nicks[j] == k;
      assert entries[j].nick == VStr(k);
    }
  }

  /** A failing deletion is always a KeyError. */
  lemma {:induction false} DeleteAllFailure(store: Store, l: seq<string>)
    ensures DeleteAll(store, l).Err? ==> DeleteAll(store, l).failure.KeyError?
  {
    if l != [] && l[0] in store {
      DeleteAllFailure(store - {l[0]}, l[1..]);
    }
  }

  /**
   * With an unknown backend the entry's nick gets the previous entry's fitted
   * histogram, or the loop fails on an unbound name if it is the first entry;
   * corrected, the run stops with status 1.
   */
  lemma StaleResultDiscrepancy(store: Store, e: Projection, last: Option<RootObject>, ops: SliceOps, parse: string -> Option<real>)
    requires e.backend != VStr("ROOT") && e.backend != VStr("RooFit")
    requires e.nick.VStr? && e.nick.s in store && StartsWith(store[e.nick.s].className, "TH2")
    requires ProjectByFitClipl.FitRange(e.fitRange, store[e.nick.s], false, parse).Ok?
    requires ProjectByFitClipl.StartParameters(e.startParameter, parse).Ok?
    ensures last.Some? ==> Fitted(AsWritten, store, e, last, ops, parse) == Ok(last.value)
    ensures last.None? ==> Fitted(AsWritten, store, e, last, ops, parse) == Err(UnboundLocalError("fitted_histogram"))
    ensures Fitted(Corrected, store, e, last, ops, parse) == Err(Exit(1))
  {
  }

  /** The entry loop of `run`: fit each entry, recording its result, its nick and the last fit. */
  method AccumulateFits(variant: Variant, store: Store, entries: seq<Projection>, ops: SliceOps, parse: string -> Option<real>)
    returns (outcome: Result<Acc>)
    ensures outcome == AccFrom(variant, store, entries, 0, Acc(map[], [], None), ops, parse)
  {
    var results: Store := map[];
    var toReplace: seq<string> := [];
    var last: Option<RootObject> := None;
    for i := 0 to |entries|
      invariant AccFrom(variant, store, entries, 0, Acc(map[], [], None), ops, parse)
                == AccFrom(variant, store, entries, i, Acc(results, toReplace, last), ops, parse)
    {
      var fitted := Fitted(variant, store, entries[i], last, ops, parse);
      if fitted.Err? {
        return Err(fitted.failure);
      }
      results := results[entries[i].nick.s := fitted.value];
      toReplace := toReplace + [entries[i].nick.s];
      last := Some(fitted.value);
    }
    outcome := Ok(Acc(results, toReplace, last));
  }

  /** `for nick in histograms_to_replace: del self.root_objects[nick]`, in place. */
  method DeleteNicks(pd: PlotData, toReplace: seq<string>) returns (outcome: Result<Store>)
    modifies pd
    ensures outcome == DeleteAll(old(pd.rootObjects), toReplace)
    ensures outcome.Ok? ==> pd.rootObjects == outcome.value
    ensures pd.plotdict == old(pd.plotdict)
  {
    for i := 0 to |toReplace|
      invariant pd.plotdict == old(pd.plotdict)
      invariant DeleteAll(old(pd.rootObjects), toReplace) == DeleteAll(pd.rootObjects, toReplace[i..])
    {
      if toReplace[i] !in pd.rootObjects {
        return Err(KeyError(toReplace[i]));
      }
      pd.rootObjects := pd.rootObjects - {toReplace[i]};
      assert toReplace[i..][1..] == toReplace[i + 1..];
    }
    assert toReplace[|toReplace|..] == [];
    outcome := Ok(pd.rootObjects);
  }

  /** `run`: accumulate in the loop, then delete each processed nick and add the results, in place. */
  method Run(variant: Variant, pd: PlotData, ops: SliceOps, parse: string -> Option<real>) returns (outcome: Result<Store>)
    modifies pd
    ensures outcome == RunSpec(variant, old(pd.State()), ops, parse)
    ensures outcome.Ok? ==> pd.rootObjects == outcome.value
    ensures pd.plotdict == old(pd.plotdict)
  {
    var projections := Projections(pd.plotdict);
    if projections.Err? {
      return Err(projections.failure);
    }
    var acc := AccumulateFits(variant, pd.rootObjects, projections.value, ops, parse);
    if acc.Err? {
      return Err(acc.failure);
    }
    RunAfterLoop(variant, pd.State(), projections.value, acc.value, ops, parse);
    var kept := DeleteNicks(pd, acc.value.toReplace);
    if kept.Err? {
      return Err(kept.failure);
    }
    pd.rootObjects := pd.rootObjects + acc.value.results;
    outcome := Ok(pd.rootObjects);
  }
}
