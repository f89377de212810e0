/**
 * Contour graphs from 2-D histograms (`ContourFromHistogram`): the expansion of
 * threshold strings and graph nicks in `prepare_args`, the insertion of graph nicks
 * and objects in `run`, and the in-place copy of boundary bins.
 *
 * ROOT's contour extraction, graph cloning, graph merging and minimum-bin search
 * are the parameters in `ContourOps`; float parsing is the parameter `parse`.
 */
module ContourFromHistogram {
  import opened Wrappers
  import opened PyValues
  import opened Strings

  /** The keys broadcast to lists before the nick expansion. */
  const ContourKeys: set<string> :=
    {"2d_histogram_nicks", "contour_thresholds", "contour_modes", "contour_graph_nicks", "contour_minima_nicks"}

  // ---------------------------------------------------------------------------
  // Thresholds (contourfromhistogram.py:51-52)

  /** One threshold argument: its whitespace-separated numbers. */
  function Thresholds(v: Value, parse: string -> Option<real>): (r: Result<seq<real>>)
    ensures v.VStr? && r.Ok? ==> |r.value| == |Words(v.s)|
    ensures !v.VStr? ==> r.Err?
  {
    if v.VStr? then ParseFloats(Words(v.s), parse) else Err(AttributeError)
  }

  // ---------------------------------------------------------------------------
  // Graph nicks (contourfromhistogram.py:54-60)

  function Repeat(x: string, n: nat): (r: seq<string>)
    ensures |r| == n && forall i :: 0 <= i < n ==> r[i] == x
  {
    seq(n, i requires 0 <= i < n => x)
  }

  /** `"%s_%d" % (name, i)` */
  function Suffixed(name: string, i: nat): string {
    name + "_" + NatToString(i)
  }

  /** `(names + [names[0]] * count)[:count]` */
  function PadNicks(names: seq<string>, count: nat): (r: seq<string>)
    requires names != []
    ensures |r| == count
    ensures forall i :: 0 <= i < count ==> r[i] == (if i < |names| then names[i] else names[0])
  {
    (names + Repeat(names[0], count))[..count]
  }

  /** Every entry gets its index appended when one nick serves several thresholds. */
  predicate ExpandAll(names: seq<string>, count: nat) {
    |names| == 1 && count > 1
  }

  function ExpandNicks(names: seq<string>, count: nat): (r: seq<string>)
    requires names != []
    ensures |r| == count
  {
    var padded := PadNicks(names, count);
    seq(count, i requires 0 <= i < count =>
      if ExpandAll(names, count) || (i > 0 && padded[i] == padded[0]) then Suffixed(padded[i], i) else padded[i])
  }

  /** The graph nicks for one histogram with `count` thresholds; an empty nick argument raises IndexError. */
  function GraphNicks(given: Value, histogramNick: Value, count: nat): (r: Result<seq<string>>)
    ensures r.Ok? ==> |r.value| == count
  {
    var base :-
      if given == VNone then (if histogramNick.VStr? then Ok("contour_" + histogramNick.s) else Err(TypeError))
      else if given.VStr? then Ok(given.s)
      else Err(AttributeError);
    var names := Words(base);
    if names == [] then Err(IndexError) else Ok(ExpandNicks(names, count))
  }

  lemma SuffixedInjective(name: string, i: nat, j: nat)
    requires Suffixed(name, i) == Suffixed(name, j)
    ensures i == j
  {
    var prefix := name + "_";
    assert Suffixed(name, i)[|prefix|..] == NatToString(i);
    assert Suffixed(name, j)[|prefix|..] == NatToString(j);
    NatToStringInjective(i, j);
  }

  /** One nick for several thresholds: entry i is that nick with "_i" appended, so all entries differ. */
  lemma ExpandAllNicks(names: seq<string>, count: nat)
    requires ExpandAll(names, count)
    ensures forall i :: 0 <= i < count ==> ExpandNicks(names, count)[i] == Suffixed(names[0], i)
    ensures forall i, j :: 0 <= i < j < count ==> ExpandNicks(names, count)[i] != ExpandNicks(names, count)[j]
  {
    var r := ExpandNicks(names, count);
    forall i, j | 0 <= i < j < count
      ensures r[i] != r[j]
    {
      if r[i] == r[j] {
        SuffixedInjective(names[0], i, j);
      }
    }
  }

  /**
   * Otherwise the first entry is the first nick unchanged, a later entry keeps its
   * nick unless it equals the first one, and the padding copies of the first nick
   * get their index appended.
   */
  lemma KeptNicks(names: seq<string>, count: nat)
    requires names != [] && !ExpandAll(names, count)
    ensures count > 0 ==> ExpandNicks(names, count)[0] == names[0]
    ensures forall i :: 0 < i < count && i < |names| && names[i] != names[0] ==> ExpandNicks(names, count)[i] == names[i]
    ensures forall i :: 0 < i < count && i < |names| && names[i] == names[0] ==> ExpandNicks(names, count)[i] == Suffixed(names[0], i)
    ensures forall i :: |names| <= i < count ==> ExpandNicks(names, count)[i] == Suffixed(names[0], i)
  {
  }

  /** Without a nick argument the graphs are named after the histogram. */
  lemma DefaultGraphNick(histogramNick: string, count: nat)
    requires NoSpace(histogramNick)
    ensures GraphNicks(VNone, VStr(histogramNick), count) == Ok(ExpandNicks(["contour_" + histogramNick], count))
  {
    var w := "contour_" + histogramNick;
    assert forall i :: 0 <= i < |w| ==> !IsSpace(w[i]) by {
      forall i | 0 <= i < |w|
        ensures !IsSpace(w[i])
      {
        if i >= 8 {
          assert w[i] == histogramNick[i - 8];
        }
      }
    }
    WordsOfWord(w, []);
    assert w + [] == w;
    assert Words(w) == [w];
  }

  // ---------------------------------------------------------------------------
  // prepare_args (contourfromhistogram.py:46-62)

  function StringsValue(xs: seq<string>): Value {
    VList(seq(|xs|, i requires 0 <= i < |xs| => VStr(xs[i])))
  }

  predicate PrepareLists(d: Dict) {
    IsList(d, "2d_histogram_nicks") && IsList(d, "contour_thresholds") && IsList(d, "contour_graph_nicks")
  }

  function ZipLength(d: Dict): nat
    requires PrepareLists(d)
  {
    var a, b, c := |d["2d_histogram_nicks"].items|, |d["contour_thresholds"].items|, |d["contour_graph_nicks"].items|;
    if a <= b && a <= c then a else if b <= c then b else c
  }

  /** The dictionary after entry `i` is expanded: its thresholds and its graph nicks, written in place. */
  function PrepareEntry(d: Dict, i: nat, parse: string -> Option<real>): (r: Result<Dict>)
    requires PrepareLists(d) && i < ZipLength(d)
    ensures r.Ok? ==> PrepareLists(r.value) && ZipLength(r.value) == ZipLength(d)
    ensures r.Ok? ==> r.value.Keys == d.Keys
    ensures r.Ok? ==> r.value["2d_histogram_nicks"] == d["2d_histogram_nicks"]
    ensures r.Ok? ==> |r.value["contour_thresholds"].items| == |d["contour_thresholds"].items|
    ensures r.Ok? ==> |r.value["contour_graph_nicks"].items| == |d["contour_graph_nicks"].items|
    ensures r.Ok? ==> var ts := Thresholds(d["contour_thresholds"].items[i], parse);
                      && ts.Ok? && r.value["contour_thresholds"].items[i] == RealsValue(ts.value)
                      && r.value["contour_graph_nicks"].items[i].VList?
                      && |r.value["contour_graph_nicks"].items[i].items| == |ts.value|
    ensures r.Ok? ==> forall j :: 0 <= j < |d["contour_thresholds"].items| && j != i ==> r.value["contour_thresholds"].items[j] == d["contour_thresholds"].items[j]
    ensures r.Ok? ==> forall j :: 0 <= j < |d["contour_graph_nicks"].items| && j != i ==> r.value["contour_graph_nicks"].items[j] == d["contour_graph_nicks"].items[j]
  {
    var thresholdList := d["contour_thresholds"].items;
    var nickList := d["contour_graph_nicks"].items;
    var ts :- Thresholds(thresholdList[i], parse);
    var d1 := d["contour_thresholds" := VList(thresholdList[i := RealsValue(ts)])];
    var gs :- GraphNicks(nickList[i], d["2d_histogram_nicks"].items[i], |ts|);
    Ok(d1["contour_graph_nicks" := VList(nickList[i := StringsValue(gs)])])
  }

  /** The entries from `i` on, one after the other; the first failure ends the step. */
  function PrepareFrom(d: Dict, i: nat, parse: string -> Option<real>): Result<Dict>
    requires PrepareLists(d)
    decreases ZipLength(d) - i
  {
    if i >= ZipLength(d) then Ok(d)
    else match PrepareEntry(d, i, parse)
      case Err(f) => Err(f)
      case Ok(d1) => PrepareFrom(d1, i + 1, parse)
  }

  /** An entry after expansion: its threshold string became one number per word, and there are as many graph nicks. */
  predicate EntryPrepared(given: Value, thresholds: Value, graphNicks: Value) {
    && given.VStr? && thresholds.VList? && graphNicks.VList?
    && |thresholds.items| == |Words(given.s)|
    && |graphNicks.items| == |thresholds.items|
  }

  lemma EntryJustPrepared(d: Dict, i: nat, parse: string -> Option<real>)
    requires PrepareLists(d) && i < ZipLength(d)
    requires PrepareEntry(d, i, parse).Ok?
    ensures var d1 := PrepareEntry(d, i, parse).value;
            EntryPrepared(d["contour_thresholds"].items[i], d1["contour_thresholds"].items[i], d1["contour_graph_nicks"].items[i])
  {
  }

  /** Every entry from `i` on is expanded when the loop succeeds. */
  lemma {:induction false} PreparedEntries(d: Dict, i: nat, parse: string -> Option<real>)
    requires PrepareLists(d)
    requires PrepareFrom(d, i, parse).Ok?
    ensures var p := PrepareFrom(d, i, parse).value;
            && PrepareLists(p) && ZipLength(p) == ZipLength(d)
            && forall j :: i <= j < ZipLength(d) ==>
                 EntryPrepared(d["contour_thresholds"].items[j], p["contour_thresholds"].items[j], p["contour_graph_nicks"].items[j])
    decreases ZipLength(d) - i
  {
    if i < ZipLength(d) {
      var d1 := PrepareEntry(d, i, parse).value;
      assert PrepareFrom(d, i, parse) == PrepareFrom(d1, i + 1, parse);
      PreparedEntries(d1, i + 1, parse);
      LaterEntriesKept(d1, i + 1, parse);
      var p := PrepareFrom(d1, i + 1, parse).value;
      EntryJustPrepared(d, i, parse);
      assert p["contour_thresholds"].items[i] == d1["contour_thresholds"].items[i];
      assert p["contour_graph_nicks"].items[i] == d1["contour_graph_nicks"].items[i];
      forall j | i < j < ZipLength(d)
        ensures EntryPrepared(d["contour_thresholds"].items[j], p["contour_thresholds"].items[j], p["contour_graph_nicks"].items[j])
      {
        assert d["contour_thresholds"].items[j] == d1["contour_thresholds"].items[j];
      }
    }
  }

  /** Entries before `i` are not touched by the rest of the loop. */
  lemma {:induction false} LaterEntriesKept(d: Dict, i: nat, parse: string -> Option<real>)
    requires PrepareLists(d)
    requires PrepareFrom(d, i, parse).Ok?
    ensures var p := PrepareFrom(d, i, parse).value;
            && PrepareLists(p) && ZipLength(p) == ZipLength(d)
            && |p["contour_thresholds"].items| == |d["contour_thresholds"].items|
            && |p["contour_graph_nicks"].items| == |d["contour_graph_nicks"].items|
            && (forall j :: 0 <= j < i && j < |d["contour_thresholds"].items| ==> p["contour_thresholds"].items[j] == d["contour_thresholds"].items[j])
            && (forall j :: 0 <= j < i && j < |d["contour_graph_nicks"].items| ==> p["contour_graph_nicks"].items[j] == d["contour_graph_nicks"].items[j])
    decreases ZipLength(d) - i
  {
    if i < ZipLength(d) {
      var d1 := PrepareEntry(d, i, parse).value;
      LaterEntriesKept(d1, i + 1, parse);
    }
  }

  /** The expansion loop, writing both slots of each entry in place. */
  method PrepareArgs(pd: PlotData, broadcast: Dict -> Dict, parse: string -> Option<real>) returns (outcome: Result<Dict>)
    requires forall e: Dict :: HoldsLists(broadcast(e), ContourKeys)
    modifies pd
    ensures PrepareLists(broadcast(old(pd.plotdict))) && outcome == PrepareFrom(broadcast(old(pd.plotdict)), 0, parse)
    ensures outcome.Ok? ==> pd.plotdict == outcome.value
    ensures pd.rootObjects == old(pd.rootObjects)
  {
    pd.plotdict := broadcast(pd.plotdict);
    assert HoldsLists(pd.plotdict, ContourKeys);
    assert pd.plotdict == broadcast(old(pd.plotdict));
    assert "2d_histogram_nicks" in ContourKeys && "contour_thresholds" in ContourKeys && "contour_graph_nicks" in ContourKeys;
    var n := ZipLength(pd.plotdict);
    var index := 0;
    while index < n
      invariant PrepareLists(pd.plotdict) && ZipLength(pd.plotdict) == n
      invariant index <= n
      invariant PrepareFrom(broadcast(old(pd.plotdict)), 0, parse) == PrepareFrom(pd.plotdict, index, parse)
      invariant pd.rootObjects == old(pd.rootObjects)
      decreases n - index
    {
      var histogramNick := pd.plotdict["2d_histogram_nicks"].items[index];
      var thresholds := Thresholds(pd.plotdict["contour_thresholds"].items[index], parse);
      if thresholds.Err? {
        return Err(thresholds.failure);
      }
      var graphNicks := pd.plotdict["contour_graph_nicks"].items[index];
      pd.plotdict := pd.plotdict["contour_thresholds" := VList(pd.plotdict["contour_thresholds"].items[index := RealsValue(thresholds.value)])];
      var expanded := GraphNicks(graphNicks, histogramNick, |thresholds.value|);
      if expanded.Err? {
        return Err(expanded.failure);
      }
      pd.plotdict := pd.plotdict["contour_graph_nicks" := VList(pd.plotdict["contour_graph_nicks"].items[index := StringsValue(expanded.value)])];
      index := index + 1;
    }
    outcome := Ok(pd.plotdict);
  }

  // ---------------------------------------------------------------------------
  // run (contourfromhistogram.py:64-135)

  /** The ROOT work `run` relies on, as uninterpreted functions. */
  datatype ContourOps = ContourOps(
    contours: RootObject -> seq<seq<RootObject>>,  // the graphs of each contour level after "CONT LIST"
    clone: RootObject -> RootObject,
    merge: seq<RootObject> -> RootObject,
    minimum: RootObject -> RootObject)              // the one-point graph at the minimum bin

  /** One graph kept as a single graph: its nick goes before the histogram nick unless already present. */
  function AddSingleGraph(s: PlotState, histogramNick: Value, nick: string, graph: RootObject, ops: ContourOps): (r: Result<PlotState>)
    ensures r.Ok? ==> r.value.rootObjects == s.rootObjects[nick := ops.clone(graph)]
    ensures r.Ok? ==> r.value.plotdict.Keys == s.plotdict.Keys
  {
    var nicks :- ListAt(s.plotdict, "nicks");
    var updated :- if VStr(nick) in nicks then Ok(nicks) else InsertBefore(nicks, histogramNick, VStr(nick));
    Ok(PlotState(s.plotdict["nicks" := VList(updated)], s.rootObjects[nick := ops.clone(graph)]))
  }

  /** A single graph's nick is listed exactly once if it was not listed before, and the list is otherwise unchanged. */
  lemma SingleGraphNoDuplicate(s: PlotState, histogramNick: Value, nick: string, graph: RootObject, ops: ContourOps)
    requires AddSingleGraph(s, histogramNick, nick, graph, ops).Ok?
    ensures var before := s.plotdict["nicks"].items;
            var after := AddSingleGraph(s, histogramNick, nick, graph, ops).value.plotdict["nicks"].items;
            && VStr(nick) in after
            && (VStr(nick) in before ==> after == before)
            && (VStr(nick) !in before ==> Occurrences(after, VStr(nick)) == 1 && |after| == |before| + 1)
  {
    var before := s.plotdict["nicks"].items;
    var after := AddSingleGraph(s, histogramNick, nick, graph, ops).value.plotdict["nicks"].items;
    if VStr(nick) !in before {
      var inserted := InsertBefore(before, histogramNick, VStr(nick));
      assert inserted.Ok? && after == inserted.value;
      InsertBeforeRoundTrip(before, histogramNick, VStr(nick));
      assert Occurrences(before, VStr(nick)) == 0;
    } else {
      assert after == before;
    }
  }

  /** The graphs of one level from `g` on, with "_g" appended only when there are several. */
  function SingleGraphsFrom(s: PlotState, histogramNick: Value, graphNick: string, graphs: seq<RootObject>, g: nat, ops: ContourOps): Result<PlotState>
    decreases |graphs| - g
  {
    if g >= |graphs| then Ok(s)
    else
      var nick := if |graphs| > 1 then Suffixed(graphNick, g) else graphNick;
      match AddSingleGraph(s, histogramNick, nick, graphs[g], ops)
      case Err(f) => Err(f)
      case Ok(s1) => SingleGraphsFrom(s1, histogramNick, graphNick, graphs, g + 1, ops)
  }

  /** Several graphs merged into one: stored under the graph nick, which is inserted even if already listed. */
  function AddMergedGraph(s: PlotState, histogramNick: Value, graphNick: string, graphs: seq<RootObject>, ops: ContourOps): (r: Result<PlotState>)
    ensures r.Ok? ==> r.value.rootObjects == s.rootObjects[graphNick := ops.merge(graphs)]
  {
    var nicks :- ListAt(s.plotdict, "nicks");
    var updated :- InsertBefore(nicks, histogramNick, VStr(graphNick));
    Ok(PlotState(s.plotdict["nicks" := VList(updated)], s.rootObjects[graphNick := ops.merge(graphs)]))
  }

  /** A merged graph's nick is always inserted, once more each time, right before the histogram nick. */
  lemma MergedGraphAlwaysInserted(s: PlotState, histogramNick: Value, graphNick: string, graphs: seq<RootObject>, ops: ContourOps)
    requires AddMergedGraph(s, histogramNick, graphNick, graphs, ops).Ok?
    ensures var before := s.plotdict["nicks"].items;
            var after := AddMergedGraph(s, histogramNick, graphNick, graphs, ops).value.plotdict["nicks"].items;
            var k := IndexOf(before, histogramNick);
            && Occurrences(after, VStr(graphNick)) == Occurrences(before, VStr(graphNick)) + 1
            && after[k] == VStr(graphNick) && after[k + 1] == histogramNick
  {
    var before := s.plotdict["nicks"].items;
    var inserted := InsertBefore(before, histogramNick, VStr(graphNick));
    assert inserted.Ok? && AddMergedGraph(s, histogramNick, graphNick, graphs, ops).value.plotdict["nicks"].items == inserted.value;
    InsertBeforeRoundTrip(before, histogramNick, VStr(graphNick));
  }

  /** One contour level: nothing for no graphs, single graphs in "singlegraphs" mode or for one graph, else a merge. */
  function LevelStep(s: PlotState, mode: string, histogramNick: Value, graphNick: Value, graphs: seq<RootObject>, ops: ContourOps): Result<PlotState>
  {
    if |graphs| == 0 then Ok(s)
    else if !graphNick.VStr? then Err(TypeError)
    else if mode == "singlegraphs" || |graphs| == 1 then SingleGraphsFrom(s, histogramNick, graphNick.s, graphs, 0, ops)
    else AddMergedGraph(s, histogramNick, graphNick.s, graphs, ops)
  }

  /** A level without graphs is skipped. */
  lemma EmptyLevelSkipped(s: PlotState, mode: string, histogramNick: Value, graphNick: Value, ops: ContourOps)
    ensures LevelStep(s, mode, histogramNick, graphNick, [], ops) == Ok(s)
  {
  }

  /** A level with one graph stores it under the graph nick itself, in either mode. */
  lemma OneGraphKeepsNick(s: PlotState, mode: string, histogramNick: Value, graphNick: string, graph: RootObject, ops: ContourOps)
    requires LevelStep(s, mode, histogramNick, VStr(graphNick), [graph], ops).Ok?
    ensures LevelStep(s, mode, histogramNick, VStr(graphNick), [graph], ops).value.rootObjects == s.rootObjects[graphNick := ops.clone(graph)]
  {
    var s1 := AddSingleGraph(s, histogramNick, graphNick, graph, ops).value;
    assert SingleGraphsFrom(s1, histogramNick, graphNick, [graph], 1, ops) == Ok(s1);
  }

  /** The levels of one histogram from `i` on, zipped with the graph nicks; a missing level list raises AttributeError. */
  function LevelsFrom(s: PlotState, mode: string, histogramNick: Value, thresholds: seq<Value>, graphNicks: seq<Value>,
                      levels: seq<seq<RootObject>>, i: nat, ops: ContourOps): Result<PlotState>
    decreases |thresholds| - i
  {
    if i >= |thresholds| || i >= |graphNicks| then Ok(s)
    else if i >= |levels| then Err(AttributeError)
    else match LevelStep(s, mode, histogramNick, graphNicks[i], levels[i], ops)
      case Err(f) => Err(f)
      case Ok(s1) => LevelsFrom(s1, mode, histogramNick, thresholds, graphNicks, levels, i + 1, ops)
  }

  /** One zipped entry of the five contour lists. */
  datatype Entry = Entry(histogramNick: Value, thresholds: Value, mode: Value, graphNicks: Value, minimaNick: Value)

  function EntryStep(s: PlotState, e: Entry, ops: ContourOps): Result<PlotState>
  {
    var histogram :- Lookup(s.rootObjects, e.histogramNick);
    var thresholds :- if e.thresholds.VList? then Ok(e.thresholds.items) else Err(TypeError);
    var s1 :-
      if e.minimaNick == VNone then Ok(s)
      else if e.minimaNick.VStr? then Ok(PlotState(s.plotdict, s.rootObjects[e.minimaNick.s := ops.minimum(histogram)]))
      else Err(TypeError);
    var mode :- if e.mode.VStr? then Ok(Lower(e.mode.s)) else Err(AttributeError);
    if mode == "histogram" then Ok(s1)
    else
      var graphNicks :- if e.graphNicks.VList? then Ok(e.graphNicks.items) else Err(TypeError);
      LevelsFrom(s1, mode, e.histogramNick, thresholds, graphNicks, ops.contours(histogram), 0, ops)
  }

  /** "histogram" mode, in any case, lists no graph nick and stores nothing but the optional minimum graph. */
  lemma HistogramModeAddsNoGraphs(s: PlotState, e: Entry, ops: ContourOps)
    requires e.mode.VStr? && Lower(e.mode.s) == "histogram"
    requires EntryStep(s, e, ops).Ok?
    ensures EntryStep(s, e, ops).value.plotdict == s.plotdict
    ensures e.minimaNick == VNone ==> EntryStep(s, e, ops).value.rootObjects == s.rootObjects
    ensures e.minimaNick.VStr? ==> EntryStep(s, e, ops).value.rootObjects.Keys == s.rootObjects.Keys + {e.minimaNick.s}
  {
  }

  function EntriesFrom(s: PlotState, entries: seq<Entry>, i: nat, ops: ContourOps): Result<PlotState>
    decreases |entries| - i
  {
    if i >= |entries| then Ok(s)
    else match EntryStep(s, entries[i], ops)
      case Err(f) => Err(f)
      case Ok(s1) => EntriesFrom(s1, entries, i + 1, ops)
  }

  /** The five lists `run` zips, in argument order. */
  const RunKeys: seq<string> := ["2d_histogram_nicks", "contour_thresholds", "contour_modes", "contour_graph_nicks", "contour_minima_nicks"]

  /** Each row of the five-list `zip` holds item `i` of each list, in the order of `RunKeys`. */
  lemma RowFields(d: Dict)
    requires ZipKeys(d, RunKeys).Ok?
    ensures var rows := ZipKeys(d, RunKeys).value;
            forall i :: 0 <= i < |rows| ==>
              && rows[i][0] == ItemOf(d, "2d_histogram_nicks", i) && rows[i][1] == ItemOf(d, "contour_thresholds", i)
              && rows[i][2] == ItemOf(d, "contour_modes", i) && rows[i][3] == ItemOf(d, "contour_graph_nicks", i)
              && rows[i][4] == ItemOf(d, "contour_minima_nicks", i)
  {
    var rows := ZipKeys(d, RunKeys).value;
    ZipKeysColumns(d, RunKeys);
    forall i | 0 <= i < |rows|
      ensures forall j :: 0 <= j < 5 ==> rows[i][j] == ItemOf(d, RunKeys[j], i)
    {
    }
  }

  /** `zip` of the five contour lists, taken once before the loop: all five are looked up, then iterated. */
  function ZipEntries(d: Dict): (r: Result<seq<Entry>>)
    ensures r.Ok? <==> ZipKeys(d, RunKeys).Ok?
    ensures r.Err? ==> r.failure == ZipKeys(d, RunKeys).failure
    ensures r.Ok? ==> |r.value| == |ZipKeys(d, RunKeys).value|
    ensures r.Ok? ==> forall i :: 0 <= i < |r.value| ==> r.value[i] == Entry(
              ItemOf(d, "2d_histogram_nicks", i), ItemOf(d, "contour_thresholds", i), ItemOf(d, "contour_modes", i),
              ItemOf(d, "contour_graph_nicks", i), ItemOf(d, "contour_minima_nicks", i))
  {
    var rows :- ZipKeys(d, RunKeys);
    RowFields(d);
    Ok(seq(|rows|, i requires 0 <= i < |rows| => Entry(rows[i][0], rows[i][1], rows[i][2], rows[i][3], rows[i][4])))
  }

  function RunSpec(s: PlotState, ops: ContourOps): Result<PlotState>
  {
    var entries :- ZipEntries(s.plotdict);
    EntriesFrom(s, entries, 0, ops)
  }

  /** One graph of the loop: its nick inserted before the histogram's unless present, its clone stored. */
  method AddSingleGraphInPlace(pd: PlotData, histogramNick: Value, nick: string, graph: RootObject, ops: ContourOps)
    returns (step: Result<PlotState>)
    modifies pd
    ensures step == AddSingleGraph(old(pd.State()), histogramNick, nick, graph, ops)
    ensures step.Ok? ==> pd.State() == step.value
  {
    if "nicks" !in pd.plotdict {
      return Err(KeyError("nicks"));
    }
    if !pd.plotdict["nicks"].VList? {
      return Err(TypeError);
    }
    var nicks := pd.plotdict["nicks"].items;
    if VStr(nick) !in nicks {
      if histogramNick !in nicks {
        return Err(ValueError);
      }
      var k := IndexOf(nicks, histogramNick);
      pd.plotdict := pd.plotdict["nicks" := VList(nicks[..k] + [VStr(nick)] + nicks[k..])];
    } else {
      assert pd.plotdict["nicks" := VList(nicks)] == pd.plotdict;
    }
    pd.rootObjects := pd.rootObjects[nick := ops.clone(graph)];
    step := Ok(pd.State());
  }

  /** The innermost loop: the graphs of one level, one after the other. */
  method AddSingleGraphs(pd: PlotData, histogramNick: Value, graphNick: string, graphs: seq<RootObject>, ops: ContourOps) returns (outcome: Result<PlotState>)
    modifies pd
    ensures outcome == SingleGraphsFrom(old(pd.State()), histogramNick, graphNick, graphs, 0, ops)
    ensures outcome.Ok? ==> pd.State() == outcome.value
  {
    for g := 0 to |graphs|
      invariant SingleGraphsFrom(old(pd.State()), histogramNick, graphNick, graphs, 0, ops) == SingleGraphsFrom(pd.State(), histogramNick, graphNick, graphs, g, ops)
    {
      var nick := graphNick;
      if |graphs| > 1 {
        nick := Suffixed(graphNick, g);
      }
      SingleGraphsStep(pd.State(), histogramNick, graphNick, graphs, g, ops);
      var step := AddSingleGraphInPlace(pd, histogramNick, nick, graphs[g], ops);
      if step.Err? {
        return Err(step.failure);
      }
    }
    outcome := Ok(pd.State());
  }

  lemma SingleGraphsStep(s: PlotState, histogramNick: Value, graphNick: string, graphs: seq<RootObject>, g: nat, ops: ContourOps)
    requires g < |graphs|
    ensures var nick := if |graphs| > 1 then Suffixed(graphNick, g) else graphNick;
            var step := AddSingleGraph(s, histogramNick, nick, graphs[g], ops);
            && (step.Err? ==> SingleGraphsFrom(s, histogramNick, graphNick, graphs, g, ops) == Err(step.failure))
            && (step.Ok? ==> SingleGraphsFrom(s, histogramNick, graphNick, graphs, g, ops) == SingleGraphsFrom(step.value, histogramNick, graphNick, graphs, g + 1, ops))
  {
  }

  /** The level loop of one histogram. */
  method AddLevels(pd: PlotData, mode: string, histogramNick: Value, thresholds: seq<Value>, graphNicks: seq<Value>,
                   levels: seq<seq<RootObject>>, ops: ContourOps) returns (outcome: Result<PlotState>)
    modifies pd
    ensures outcome == LevelsFrom(old(pd.State()), mode, histogramNick, thresholds, graphNicks, levels, 0, ops)
    ensures outcome.Ok? ==> pd.State() == outcome.value
  {
    var n := if |thresholds| <= |graphNicks| then |thresholds| else |graphNicks|;
    for i := 0 to n
      invariant LevelsFrom(old(pd.State()), mode, histogramNick, thresholds, graphNicks, levels, 0, ops)
                == LevelsFrom(pd.State(), mode, histogramNick, thresholds, graphNicks, levels, i, ops)
    {
      if i >= |levels| {
        return Err(AttributeError);
      }
      var graphs := levels[i];
      if |graphs| == 0 {
        continue;
      }
      if !graphNicks[i].VStr? {
        return Err(TypeError);
      }
      var graphNick := graphNicks[i].s;
      if mode == "singlegraphs" || |graphs| == 1 {
        var r := AddSingleGraphs(pd, histogramNick, graphNick, graphs, ops);
        if r.Err? {
          return Err(r.failure);
        }
      } else {
        pd.rootObjects := pd.rootObjects[graphNick := ops.merge(graphs)];
        if "nicks" !in pd.plotdict {
          return Err(KeyError("nicks"));
        }
        if !pd.plotdict["nicks"].VList? {
          return Err(TypeError);
        }
        var nicks := pd.plotdict["nicks"].items;
        if histogramNick !in nicks {
          return Err(ValueError);
        }
        var k := IndexOf(nicks, histogramNick);
        pd.plotdict := pd.plotdict["nicks" := VList(nicks[..k] + [VStr(graphNick)] + nicks[k..])];
      }
    }
    outcome := Ok(pd.State());
  }

  /** The entry loop of `run`, in place over the zipped entries. */
  method RunEntries(pd: PlotData, entries: seq<Entry>, ops: ContourOps) returns (outcome: Result<PlotState>)
    modifies pd
    ensures outcome == EntriesFrom(old(pd.State()), entries, 0, ops)
    ensures outcome.Ok? ==> pd.State() == outcome.value
  {
    for i := 0 to |entries|
      invariant EntriesFrom(old(pd.State()), entries, 0, ops) == EntriesFrom(pd.State(), entries, i, ops)
    {
      var e := entries[i];
      var histogram := Lookup(pd.rootObjects, e.histogramNick);
      if histogram.Err? {
        return Err(histogram.failure);
      }
      if !e.thresholds.VList? {
        return Err(TypeError);
      }
      if e.minimaNick != VNone {
        if !e.minimaNick.VStr? {
          return Err(TypeError);
        }
        pd.rootObjects := pd.rootObjects[e.minimaNick.s := ops.minimum(histogram.value)];
      }
      if !e.mode.VStr? {
        return Err(AttributeError);
      }
      var mode := Lower(e.mode.s);
      if mode != "histogram" {
        if !e.graphNicks.VList? {
          return Err(TypeError);
        }
        var r := AddLevels(pd, mode, e.histogramNick, e.thresholds.items, e.graphNicks.items, ops.contours(histogram.value), ops);
        if r.Err? {
          return Err(r.failure);
        }
      }
    }
    outcome := Ok(pd.State());
  }

  /** `run`: the five lists zipped, then the entry loop. */
  method Run(pd: PlotData, ops: ContourOps) returns (outcome: Result<PlotState>)
    modifies pd
    ensures outcome == RunSpec(old(pd.State()), ops)
    ensures outcome.Ok? ==> pd.State() == outcome.value
  {
    var zipped := ZipEntries(pd.plotdict);
    if zipped.Err? {
      return Err(zipped.failure);
    }
    outcome := RunEntries(pd, zipped.value, ops);
  }

  // ---------------------------------------------------------------------------
  // Boundary bins (contourfromhistogram.py:162-174)

  /** The interior bin a bin copies from: underflow takes bin 1, overflow takes the last bin. */
  function Clamp(i: nat, nbins: nat): nat {
    if i == 0 then 1 else if i > nbins then nbins else i
  }

  lemma ClampInterior(i: nat, nbins: nat)
    requires nbins >= 1 && i <= nbins + 1
    ensures 1 <= Clamp(i, nbins) <= nbins
    ensures Clamp(Clamp(i, nbins), nbins) == Clamp(i, nbins)
    ensures 1 <= i <= nbins ==> Clamp(i, nbins) == i
  {
  }

  /** A histogram's bin contents and errors, each of shape (nx+2) x (ny+2) x (nz+2) with under- and overflow. */
  predicate BinArrays(content: array3<real>, errors: array3<real>) {
    && content != errors
    && content.Length0 == errors.Length0 && content.Length1 == errors.Length1 && content.Length2 == errors.Length2
    && BinShape(content)
  }

  /** At least one interior bin along each axis. */
  predicate BinShape(bins: array3<real>) {
    bins.Length0 >= 3 && bins.Length1 >= 3 && bins.Length2 >= 3
  }

  /** The bins of column (x, y) copy, along z, from column (fromX, fromY) at clamped z. */
  method CopyColumn(bins: array3<real>, x: nat, y: nat, fromX: nat, fromY: nat)
    requires BinShape(bins)
    requires x < bins.Length0 && y < bins.Length1
    requires 1 <= fromX <= bins.Length0 - 2 && 1 <= fromY <= bins.Length1 - 2
    modifies bins
    ensures forall c :: 0 <= c < bins.Length2 ==> bins[x, y, c] == old(bins[fromX, fromY, Clamp(c, bins.Length2 - 2)])
    ensures forall a, b, c :: 0 <= a < bins.Length0 && 0 <= b < bins.Length1 && 0 <= c < bins.Length2 && (a != x || b != y) ==>
              bins[a, b, c] == old(bins[a, b, c])
  {
    var nz := bins.Length2 - 2;
    for z := 0 to nz + 2
      invariant forall c :: 0 <= c < z ==> bins[x, y, c] == old(bins[fromX, fromY, Clamp(c, nz)])
      invariant forall c :: z <= c < nz + 2 ==> bins[x, y, c] == old(bins[x, y, c])
      invariant forall a, b, c :: 0 <= a < bins.Length0 && 0 <= b < bins.Length1 && 0 <= c < nz + 2 && (a != x || b != y) ==>
                  bins[a, b, c] == old(bins[a, b, c])
    {
      var fromZ := Clamp(z, nz);
      ClampInterior(z, nz);
      if x == fromX && y == fromY && fromZ < z {
        ClampInterior(fromZ, nz);
      }
      if (x, y, z) != (fromX, fromY, fromZ) {
        bins[x, y, z] := bins[fromX, fromY, fromZ];
      }
    }
  }

  /** The bins of plane x copy, along y and z, from plane fromX at clamped y and z. */
  method CopyPlane(bins: array3<real>, x: nat, fromX: nat)
    requires BinShape(bins)
    requires x < bins.Length0 && 1 <= fromX <= bins.Length0 - 2
    modifies bins
    ensures forall b, c :: 0 <= b < bins.Length1 && 0 <= c < bins.Length2 ==>
              bins[x, b, c] == old(bins[fromX, Clamp(b, bins.Length1 - 2), Clamp(c, bins.Length2 - 2)])
    ensures forall a, b, c :: 0 <= a < bins.Length0 && 0 <= b < bins.Length1 && 0 <= c < bins.Length2 && a != x ==>
              bins[a, b, c] == old(bins[a, b, c])
  {
    var ny, nz := bins.Length1 - 2, bins.Length2 - 2;
    for y := 0 to ny + 2
      invariant forall b, c :: 0 <= b < y && 0 <= c < nz + 2 ==> bins[x, b, c] == old(bins[fromX, Clamp(b, ny), Clamp(c, nz)])
      invariant forall b, c :: y <= b < ny + 2 && 0 <= c < nz + 2 ==> bins[x, b, c] == old(bins[x, b, c])
      invariant forall a, b, c :: 0 <= a < bins.Length0 && 0 <= b < ny + 2 && 0 <= c < nz + 2 && a != x ==>
                  bins[a, b, c] == old(bins[a, b, c])
    {
      var fromY := Clamp(y, ny);
      ClampInterior(y, ny);
      ClampInterior(fromY, ny);
      assert forall c :: 1 <= c <= nz ==> Clamp(c, nz) == c;
      // column (fromX, fromY) still holds its original values at interior z
      assert forall c :: 1 <= c <= nz ==> bins[fromX, fromY, c] == old(bins[fromX, fromY, c]);
      CopyColumn(bins, x, y, fromX, fromY);
      forall c | 0 <= c < nz + 2
        ensures 1 <= Clamp(c, nz) <= nz
      {
        ClampInterior(c, nz);
      }
    }
  }

  /**
   * Every bin ends up with the value that the bin at its clamped index had before;
   * interior bins therefore keep theirs.  Since only interior bins are read and they
   * never change, the order of the loops does not matter.
   */
  method ClampBins(bins: array3<real>)
    requires BinShape(bins)
    modifies bins
    ensures forall x, y, z :: 0 <= x < bins.Length0 && 0 <= y < bins.Length1 && 0 <= z < bins.Length2 ==>
              bins[x, y, z] == old(bins[Clamp(x, bins.Length0 - 2), Clamp(y, bins.Length1 - 2), Clamp(z, bins.Length2 - 2)])
  {
    var nx, ny, nz := bins.Length0 - 2, bins.Length1 - 2, bins.Length2 - 2;
    for x := 0 to nx + 2
      invariant forall a, b, c :: 0 <= a < x && 0 <= b < ny + 2 && 0 <= c < nz + 2 ==>
                  bins[a, b, c] == old(bins[Clamp(a, nx), Clamp(b, ny), Clamp(c, nz)])
      invariant forall a, b, c :: x <= a < nx + 2 && 0 <= b < ny + 2 && 0 <= c < nz + 2 ==>
                  bins[a, b, c] == old(bins[a, b, c])
    {
      var fromX := Clamp(x, nx);
      ClampInterior(x, nx);
      ClampInterior(fromX, nx);
      assert forall b :: 1 <= b <= ny ==> Clamp(b, ny) == b;
      assert forall c :: 1 <= c <= nz ==> Clamp(c, nz) == c;
      // plane fromX still holds its original values at interior y and z
      assert forall b, c :: 1 <= b <= ny && 1 <= c <= nz ==> bins[fromX, b, c] == old(bins[fromX, b, c]);
      CopyPlane(bins, x, fromX);
      forall b | 0 <= b < ny + 2
        ensures 1 <= Clamp(b, ny) <= ny
      {
        ClampInterior(b, ny);
      }
      forall c | 0 <= c < nz + 2
        ensures 1 <= Clamp(c, nz) <= nz
      {
        ClampInterior(c, nz);
      }
    }
  }

  /**
   * `_manipulate_boundary_bins`: every bin ends with the content and error of its
   * clamped bin.  The contents and the errors are separate arrays, so copying all
   * contents and then all errors leaves the same state as copying both bin by bin.
   */
  method ManipulateBoundaryBins(content: array3<real>, errors: array3<real>)
    requires BinArrays(content, errors)
    modifies content, errors
    ensures forall x, y, z :: 0 <= x < content.Length0 && 0 <= y < content.Length1 && 0 <= z < content.Length2 ==>
              content[x, y, z] == old(content[Clamp(x, content.Length0 - 2), Clamp(y, content.Length1 - 2), Clamp(z, content.Length2 - 2)])
    ensures forall x, y, z :: 0 <= x < errors.Length0 && 0 <= y < errors.Length1 && 0 <= z < errors.Length2 ==>
              errors[x, y, z] == old(errors[Clamp(x, errors.Length0 - 2), Clamp(y, errors.Length1 - 2), Clamp(z, errors.Length2 - 2)])
  {
    ClampBins(content);
    ClampBins(errors);
  }
}
