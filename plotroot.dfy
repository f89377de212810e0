/**
 * The ROOT plot module's argument defaults (`PlotRoot.prepare_args`) and the two
 * bookkeeping decisions of its drawing code: which draw option each plot gets
 * (`make_plots`) and which legend entries are made (`add_labels`).
 *
 * ROOT colour resolution is the parameter `resolve`; the list-broadcasting step is
 * the parameter `broadcast`, of which only "the named keys hold lists" is assumed.
 */
module PlotRoot {
  import opened Wrappers
  import opened PyValues
  import opened Strings

  /** The keys that are broadcast to lists before the defaults are applied. */
  const ListKeys: set<string> :=
    {"nicks", "colors", "labels", "markers", "marker_styles", "marker_sizes", "line_styles",
     "line_widths", "x_errors", "y_errors", "stacks", "axes", "fill_styles"}

  // ---------------------------------------------------------------------------
  // Number of items (plotroot.py:80)

  /** `len(v)` */
  function Length(v: Value): Result<nat>
  {
    match v
    case VList(items) => Ok(|items|)
    case VStr(s) => Ok(|s|)
    case _ => Err(TypeError)
  }

  /** The length of `d[key]`, or None when it holds `None`. */
  function LengthIfSet(d: Dict, key: string): Result<Option<nat>>
  {
    if key !in d then Err(KeyError(key))
    else if d[key] == VNone then Ok(None)
    else match Length(d[key])
      case Err(f) => Err(f)
      case Ok(n) => Ok(Some(n))
  }

  /** `max(len(d[l]) for l in ["nicks", "stacks"] if d[l] is not None)` */
  function NumItems(d: Dict): (r: Result<nat>)
    ensures r.Ok? ==> "nicks" in d && "stacks" in d
    ensures r.Ok? && d["nicks"] != VNone ==> Length(d["nicks"]).Ok? && Length(d["nicks"]).value <= r.value
    ensures r.Ok? && d["stacks"] != VNone ==> Length(d["stacks"]).Ok? && Length(d["stacks"]).value <= r.value
    ensures r.Ok? ==> (d["nicks"] != VNone && Length(d["nicks"]) == Ok(r.value))
                      || (d["stacks"] != VNone && Length(d["stacks"]) == Ok(r.value))
    ensures "nicks" in d && "stacks" in d && d["nicks"] == VNone && d["stacks"] == VNone ==> r == Err(ValueError)
  {
    var a :- LengthIfSet(d, "nicks");
    var b :- LengthIfSet(d, "stacks");
    if a.None? && b.None? then Err(ValueError)
    else if a.None? then Ok(b.value)
    else if b.None? then Ok(a.value)
    else Ok(if a.value >= b.value then a.value else b.value)
  }

  // ---------------------------------------------------------------------------
  // Colours (plotroot.py:84-95)

  /** The colour slot `index` after the defaults: `None` becomes `index + 1`, a name is resolved. */
  function ColorSlot(color: Value, index: nat, resolve: string -> int): Result<Value>
  {
    match color
    case VNone => Ok(VInt(index + 1))
    case VStr(s) => Ok(VInt(resolve(s)))
    case _ => Err(AttributeError)  // `color.startswith` on a value that is not a string
  }

  function DefaultColors(colors: seq<Value>, resolve: string -> int): (r: Result<seq<Value>>)
    ensures r.Ok? <==> forall i :: 0 <= i < |colors| ==> colors[i] == VNone || colors[i].VStr?
    ensures r.Ok? ==> |r.value| == |colors|
    ensures r.Ok? ==> forall i :: 0 <= i < |colors| && colors[i] == VNone ==> r.value[i] == VInt(i + 1)
    ensures r.Ok? ==> forall i :: 0 <= i < |colors| && colors[i].VStr? ==> r.value[i] == VInt(resolve(colors[i].s))
  {
    if exists i :: 0 <= i < |colors| && ColorSlot(colors[i], i, resolve).Err? then Err(AttributeError)
    else Ok(seq(|colors|, i requires 0 <= i < |colors| => ColorSlot(colors[i], i, resolve).value))
  }

  /** After the colour defaults every colour is a ROOT colour index. */
  lemma ColorsAreIndices(colors: seq<Value>, resolve: string -> int)
    requires DefaultColors(colors, resolve).Ok?
    ensures forall i :: 0 <= i < |colors| ==> DefaultColors(colors, resolve).value[i].VInt?
  {
  }

  /** The colour loop, overwriting `colors[index]` in place. */
  method PrepareColors(pd: PlotData, resolve: string -> int) returns (outcome: Result<seq<Value>>)
    requires IsList(pd.plotdict, "colors")
    modifies pd
    ensures outcome == DefaultColors(old(pd.plotdict)["colors"].items, resolve)
    ensures outcome.Ok? ==> pd.plotdict == old(pd.plotdict)["colors" := VList(outcome.value)]
    ensures pd.rootObjects == old(pd.rootObjects)
  {
    var colors := pd.plotdict["colors"].items;
    var written := colors;
    for index := 0 to |colors|
      invariant |written| == |colors|
      invariant forall j :: 0 <= j < index ==> ColorSlot(colors[j], j, resolve).Ok? && written[j] == ColorSlot(colors[j], j, resolve).value
      invariant forall j :: index <= j < |colors| ==> written[j] == colors[j]
      invariant pd.plotdict == old(pd.plotdict)["colors" := VList(written)]
      invariant pd.rootObjects == old(pd.rootObjects)
    {
      var slot := ColorSlot(colors[index], index, resolve);
      if slot.Err? {
        return Err(slot.failure);
      }
      written := written[index := slot.value];
      pd.plotdict := pd.plotdict["colors" := VList(written)];
    }
    assert written == seq(|colors|, i requires 0 <= i < |colors| => ColorSlot(colors[i], i, resolve).value);
    outcome := Ok(written);
  }

  // ---------------------------------------------------------------------------
  // Markers and fill styles (plotroot.py:98-120)

  function Min3(a: nat, b: nat, c: nat): (m: nat)
    ensures m <= a && m <= b && m <= c && (m == a || m == b || m == c)
  {
    if a <= b && a <= c then a else if b <= c then b else c
  }

  /** The marker an unset slot gets. */
  function MarkerDefault(index: nat, markers: seq<Value>, stacks: seq<Value>): string
    requires index < |stacks|
  {
    if index == 0 then (if |markers| > 1 then "E" else "HIST")
    else if Occurrences(stacks, stacks[index]) == 1 then "LINE" else "HIST"
  }

  /** The marker slot `index` once an unset marker has its default. */
  function EffectiveMarker(index: nat, markers: seq<Value>, stacks: seq<Value>): (m: Value)
    requires index < |markers| && index < |stacks|
    ensures m != VNone
  {
    if markers[index] == VNone then VStr(MarkerDefault(index, markers, stacks)) else markers[index]
  }

  /**
   * An unset marker becomes "E" at index 0 when there are several markers and "HIST"
   * when there is one; later, "LINE" exactly when no other plot has the same stack,
   * else "HIST".
   */
  lemma MarkerDefaultRule(markers: seq<Value>, stacks: seq<Value>, i: nat)
    requires i < |markers| && i < |stacks| && markers[i] == VNone
    ensures i == 0 ==> EffectiveMarker(i, markers, stacks) == VStr(if |markers| > 1 then "E" else "HIST")
    ensures i > 0 ==> (EffectiveMarker(i, markers, stacks) == VStr("LINE")
                       <==> forall j :: 0 <= j < |stacks| && j != i ==> stacks[j] != stacks[i])
    ensures i > 0 ==> EffectiveMarker(i, markers, stacks) in {VStr("LINE"), VStr("HIST")}
  {
    OccursOnce(stacks, i);
  }

  /** Marker and fill style of one slot after the fill-style default. */
  function ApplyFill(marker: Value, fill: Value): Result<(Value, Value)>
  {
    if fill != VNone then Ok((marker, fill))
    else if !marker.VStr? then Err(AttributeError)  // `marker.upper()`
    else
      var upper := Upper(marker.s);
      if Contains(upper, "HIST") then Ok((marker, VInt(1001)))
      else if Contains(upper, "LINE") then Ok((VStr(ReplaceAll(upper, "LINE", "HIST")), VInt(0)))
      else if Contains(upper, "E") then Ok((marker, VInt(3003)))
      else Ok((marker, VInt(0)))
  }

  function MarkerFillSlot(markers: seq<Value>, fills: seq<Value>, stacks: seq<Value>, index: nat): Result<(Value, Value)>
    requires index < Min3(|markers|, |fills|, |stacks|)
  {
    ApplyFill(EffectiveMarker(index, markers, stacks), fills[index])
  }

  /**
   * The marker and fill-style lists after the defaults.  Only the slots that `zip`
   * visits are rewritten; the lists keep their lengths.
   */
  function DefaultMarkersAndFills(markers: seq<Value>, fills: seq<Value>, stacks: seq<Value>): (r: Result<(seq<Value>, seq<Value>)>)
    ensures var n := Min3(|markers|, |fills|, |stacks|);
            r.Err? <==> exists i :: 0 <= i < n && fills[i] == VNone && !EffectiveMarker(i, markers, stacks).VStr?
    ensures r.Ok? ==> |r.value.0| == |markers| && |r.value.1| == |fills|
    ensures var n := Min3(|markers|, |fills|, |stacks|);
            r.Ok? ==> && (forall i :: n <= i < |markers| ==> r.value.0[i] == markers[i])
                      && (forall i :: n <= i < |fills| ==> r.value.1[i] == fills[i])
    ensures var n := Min3(|markers|, |fills|, |stacks|);
            r.Ok? ==> forall i :: 0 <= i < n ==> r.value.0[i] != VNone && r.value.1[i] != VNone
    ensures var n := Min3(|markers|, |fills|, |stacks|);
            r.Ok? ==> forall i :: 0 <= i < n && fills[i] != VNone ==>
                        r.value.1[i] == fills[i] && r.value.0[i] == EffectiveMarker(i, markers, stacks)
  {
    var n := Min3(|markers|, |fills|, |stacks|);
    if exists i :: 0 <= i < n && fills[i] == VNone && !EffectiveMarker(i, markers, stacks).VStr? then Err(AttributeError)
    else Ok((
      seq(|markers|, i requires 0 <= i < |markers| => if i < n then MarkerFillSlot(markers, fills, stacks, i).value.0 else markers[i]),
      seq(|fills|, i requires 0 <= i < |fills| => if i < n then MarkerFillSlot(markers, fills, stacks, i).value.1 else fills[i])))
  }

  /**
   * The fill-style rule, checked case-insensitively in this order: 1001 exactly when
   * the marker holds HIST; else, if it holds LINE, fill 0 and the marker upper-cased
   * with LINE replaced by HIST (so it then holds HIST); else 3003 exactly when it holds E.
   */
  lemma FillStyleRule(markers: seq<Value>, fills: seq<Value>, stacks: seq<Value>, i: nat)
    requires i < Min3(|markers|, |fills|, |stacks|) && fills[i] == VNone
    requires DefaultMarkersAndFills(markers, fills, stacks).Ok?
    ensures var r := DefaultMarkersAndFills(markers, fills, stacks).value;
            var upper := Upper(EffectiveMarker(i, markers, stacks).s);
            && (r.1[i] == VInt(1001) <==> Contains(upper, "HIST"))
            && (!Contains(upper, "HIST") && Contains(upper, "LINE") ==>
                  r.1[i] == VInt(0) && r.0[i] == VStr(ReplaceAll(upper, "LINE", "HIST")) && Contains(r.0[i].s, "HIST"))
            && (!(!Contains(upper, "HIST") && Contains(upper, "LINE")) ==> r.0[i] == EffectiveMarker(i, markers, stacks))
            && (r.1[i] == VInt(3003) <==> !Contains(upper, "HIST") && !Contains(upper, "LINE") && Contains(upper, "E"))
            && (r.1[i] == VInt(0) || r.1[i] == VInt(1001) || r.1[i] == VInt(3003))
  {
    var upper := Upper(EffectiveMarker(i, markers, stacks).s);
    var r := DefaultMarkersAndFills(markers, fills, stacks).value;
    assert (r.0[i], r.1[i]) == MarkerFillSlot(markers, fills, stacks, i).value;
    if !Contains(upper, "HIST") && Contains(upper, "LINE") {
      ReplacePlacesNew(upper, "LINE", "HIST");
    }
  }

  /** Applying the defaults a second time changes nothing. */
  lemma MarkerDefaultsIdempotent(markers: seq<Value>, fills: seq<Value>, stacks: seq<Value>)
    requires DefaultMarkersAndFills(markers, fills, stacks).Ok?
    ensures var r := DefaultMarkersAndFills(markers, fills, stacks).value;
            DefaultMarkersAndFills(r.0, r.1, stacks) == Ok(r)
  {
    var r := DefaultMarkersAndFills(markers, fills, stacks).value;
    var n := Min3(|markers|, |fills|, |stacks|);
    assert Min3(|r.0|, |r.1|, |stacks|) == n;
    forall i | 0 <= i < n
      ensures MarkerFillSlot(r.0, r.1, stacks, i) == Ok((r.0[i], r.1[i]))
    {
    }
    var again := DefaultMarkersAndFills(r.0, r.1, stacks).value;
    assert again.0 == r.0;
    assert again.1 == r.1;
  }

  /** One turn of the marker loop: the marker default, then the fill-style default. */
  method MarkerFillAt(markers: seq<Value>, fills: seq<Value>, stacks: seq<Value>, index: nat) returns (slot: Result<(Value, Value)>)
    requires index < Min3(|markers|, |fills|, |stacks|)
    ensures slot == MarkerFillSlot(markers, fills, stacks, index)
    ensures slot.Err? <==> fills[index] == VNone && !EffectiveMarker(index, markers, stacks).VStr?
  {
    var marker := markers[index];
    if marker == VNone {
      marker := VStr(MarkerDefault(index, markers, stacks));
    }
    slot := ApplyFill(marker, fills[index]);
  }

  /** The marker loop over `zip(markers, fill_styles, stacks)`, overwriting both slots in place. */
  method PrepareMarkers(pd: PlotData) returns (outcome: Result<(seq<Value>, seq<Value>)>)
    requires IsList(pd.plotdict, "markers") && IsList(pd.plotdict, "fill_styles") && IsList(pd.plotdict, "stacks")
    modifies pd
    ensures outcome == DefaultMarkersAndFills(old(pd.plotdict)["markers"].items, old(pd.plotdict)["fill_styles"].items, old(pd.plotdict)["stacks"].items)
    ensures outcome.Ok? ==> pd.plotdict == old(pd.plotdict)["markers" := VList(outcome.value.0)]["fill_styles" := VList(outcome.value.1)]
    ensures pd.rootObjects == old(pd.rootObjects)
  {
    var markers, fills, stacks := pd.plotdict["markers"].items, pd.plotdict["fill_styles"].items, pd.plotdict["stacks"].items;
    var n := Min3(|markers|, |fills|, |stacks|);
    var ms, fs := markers, fills;
    assert pd.plotdict == old(pd.plotdict)["markers" := VList(ms)]["fill_styles" := VList(fs)];
    for index := 0 to n
      invariant |ms| == |markers| && |fs| == |fills|
      invariant forall j :: 0 <= j < index ==> MarkerFillSlot(markers, fills, stacks, j).Ok?
      invariant forall j :: 0 <= j < index ==> !(fills[j] == VNone && !EffectiveMarker(j, markers, stacks).VStr?)
      invariant forall j :: 0 <= j < index ==> ms[j] == MarkerFillSlot(markers, fills, stacks, j).value.0
      invariant forall j :: 0 <= j < index ==> fs[j] == MarkerFillSlot(markers, fills, stacks, j).value.1
      invariant forall j :: index <= j < |markers| ==> ms[j] == markers[j]
      invariant forall j :: index <= j < |fills| ==> fs[j] == fills[j]
      invariant pd.plotdict == old(pd.plotdict)["markers" := VList(ms)]["fill_styles" := VList(fs)]
      invariant pd.rootObjects == old(pd.rootObjects)
    {
      var slot := MarkerFillAt(markers, fills, stacks, index);
      if slot.Err? {
        return Err(AttributeError);
      }
      ms := ms[index := slot.value.0];
      fs := fs[index := slot.value.1];
      pd.plotdict := pd.plotdict["markers" := VList(ms)]["fill_styles" := VList(fs)];
    }
    assert ms == seq(|markers|, i requires 0 <= i < |markers| => if i < n then MarkerFillSlot(markers, fills, stacks, i).value.0 else markers[i]);
    assert fs == seq(|fills|, i requires 0 <= i < |fills| => if i < n then MarkerFillSlot(markers, fills, stacks, i).value.1 else fills[i]);
    outcome := Ok((ms, fs));
  }

  // ---------------------------------------------------------------------------
  // Error-band names (plotroot.py:122-129)

  /** The distinct names of a list, in one fixed order. */
  function Distinct(names: seq<string>): (r: seq<string>)
    ensures forall x :: x in r <==> x in names
    ensures forall i, j :: 0 <= i < j < |r| ==> r[i] != r[j]
  {
    if names == [] then []
    else
      var rest := Distinct(names[1..]);
      if names[0] in rest then rest else [names[0]] + rest
  }

  /** `[" ".join(set(stacks[1:]))]` */
  function DefaultErrbandNames(stacks: seq<Value>): Result<Value>
  {
    if stacks == [] then Ok(VList([VStr("")]))
    else
      var names :- StringItems(stacks[1..]);
      Ok(VList([VStr(Join(" ", Distinct(names)))]))
  }

  /** `[nicks.split() for nicks in names]` */
  function SplitAll(items: seq<Value>): (r: Result<seq<seq<string>>>)
    ensures r.Ok? ==> |r.value| == |items| && forall i :: 0 <= i < |items| ==> items[i].VStr? && r.value[i] == Words(items[i].s)
  {
    if items == [] then Ok([])
    else if !items[0].VStr? then Err(AttributeError)
    else match SplitAll(items[1..])
      case Err(f) => Err(f)
      case Ok(rest) => Ok([Words(items[0].s)] + rest)
  }

  predicate AllStacked(groups: seq<seq<string>>, stacks: seq<Value>) {
    forall i, j :: 0 <= i < |groups| && 0 <= j < |groups[i]| ==> VStr(groups[i][j]) in stacks
  }

  /** The error-band name groups, or exit status 1 for a name that is not a stack. */
  function ErrbandGroups(given: Value, stacks: seq<Value>): Result<seq<seq<string>>>
  {
    var names :- if given == VNone then DefaultErrbandNames(stacks) else Ok(given);
    var items :- Iterate(names);
    var groups :- SplitAll(items);
    if AllStacked(groups, stacks) then Ok(groups) else Err(Exit(1))
  }

  /** An accepted set of error-band names names only stacks; a name that is not a stack ends the process with status 1. */
  lemma ErrbandValidation(given: Value, stacks: seq<Value>)
    ensures ErrbandGroups(given, stacks).Ok? ==> AllStacked(ErrbandGroups(given, stacks).value, stacks)
    ensures given.VList? && SplitAll(given.items).Ok? ==>
              (ErrbandGroups(given, stacks).Ok? <==> AllStacked(SplitAll(given.items).value, stacks))
    ensures given.VList? && SplitAll(given.items).Ok? && !AllStacked(SplitAll(given.items).value, stacks) ==>
              ErrbandGroups(given, stacks) == Err(Exit(1))
  {
  }

  /** Every list of strings can be split. */
  lemma {:induction false} SplitAllStrings(items: seq<Value>)
    requires forall i :: 0 <= i < |items| ==> items[i].VStr?
    ensures SplitAll(items).Ok?
  {
    if items != [] {
      SplitAllStrings(items[1..]);
    }
  }

  /**
   * The default passes its own check: when the stacks are strings without
   * whitespace, the default is a single group holding each name of `stacks[1:]` once.
   */
  lemma DefaultErrbandPasses(stacks: seq<Value>, names: seq<string>)
    requires |stacks| >= 1 && StringItems(stacks[1..]) == Ok(names)
    requires forall i :: 0 <= i < |names| ==> NoSpace(names[i])
    ensures ErrbandGroups(VNone, stacks) == Ok([NonEmpty(Distinct(names))])
  {
    var d := Distinct(names);
    DistinctKeepsNoSpace(names);
    WordsOfJoin(d);
    var group := NonEmpty(d);
    var joined := VList([VStr(Join(" ", d))]);
    assert DefaultErrbandNames(stacks) == Ok(joined);
    assert Iterate(joined) == Ok([VStr(Join(" ", d))]);
    assert Words(Join(" ", d)) == group;
    assert [VStr(Join(" ", d))][1..] == [];
    assert SplitAll([]) == Ok([]);
    assert [group] + [] == [group];
    assert SplitAll([VStr(Join(" ", d))]) == Ok([group]);
    GroupIsStacked(stacks, names);
    assert AllStacked([group], stacks);
  }

  lemma DistinctKeepsNoSpace(names: seq<string>)
    requires forall i :: 0 <= i < |names| ==> NoSpace(names[i])
    ensures forall i :: 0 <= i < |Distinct(names)| ==> NoSpace(Distinct(names)[i])
  {
    var d := Distinct(names);
    forall i | 0 <= i < |d|
      ensures NoSpace(d[i])
    {
      assert d[i] in names;
    }
  }

  lemma GroupIsStacked(stacks: seq<Value>, names: seq<string>)
    requires |stacks| >= 1 && StringItems(stacks[1..]) == Ok(names)
    ensures forall j :: 0 <= j < |NonEmpty(Distinct(names))| ==> VStr(NonEmpty(Distinct(names))[j]) in stacks
  {
    var group := NonEmpty(Distinct(names));
    forall j | 0 <= j < |group|
      ensures VStr(group[j]) in stacks
    {
      assert group[j] in Distinct(names);
      NameIsStacked(stacks, names, group[j]);
    }
  }

  lemma NameIsStacked(stacks: seq<Value>, names: seq<string>, x: string)
    requires |stacks| >= 1 && StringItems(stacks[1..]) == Ok(names) && x in names
    ensures VStr(x) in stacks
  {
    var k :| 0 <= k < |names| && names[k] == x;
    assert stacks[1..][k] == VStr(x);
    assert stacks[k + 1] == VStr(x);
  }

  function GroupsValue(groups: seq<seq<string>>): Value
  {
    VList(seq(|groups|, i requires 0 <= i < |groups| => VList(seq(|groups[i]|, j requires 0 <= j < |groups[i]| => VStr(groups[i][j])))))
  }

  /** The nested membership loop of the error-band check. */
  method CheckErrbandNames(groups: seq<seq<string>>, stacks: seq<Value>) returns (known: bool)
    ensures known <==> AllStacked(groups, stacks)
  {
    for i := 0 to |groups|
      invariant forall a, b :: 0 <= a < i && 0 <= b < |groups[a]| ==> VStr(groups[a][b]) in stacks
    {
      for j := 0 to |groups[i]|
        invariant forall b :: 0 <= b < j ==> VStr(groups[i][b]) in stacks
      {
        if VStr(groups[i][j]) !in stacks {
          return false;
        }
      }
    }
    return true;
  }

  // ---------------------------------------------------------------------------
  // Legend position (plotroot.py:131-134)

  const DefaultLegend: seq<Value> := [VReal(0.6), VReal(0.6), VReal(0.9), VReal(0.9)]

  function PadLegend(legend: Value): (r: Result<Value>)
    ensures legend == VNone ==> r == Ok(VNone)
    ensures legend.VList? ==> r.Ok? && r.value.VList? && |r.value.items| == 4
    ensures legend.VList? ==> forall i :: 0 <= i < 4 && i < |legend.items| ==> r.value.items[i] == legend.items[i]
    ensures legend.VList? ==> forall i :: |legend.items| <= i < 4 ==> r.value.items[i] == DefaultLegend[i]
    ensures legend != VNone && !legend.VList? ==> r.Err?
  {
    match legend
    case VNone => Ok(VNone)
    case VList(xs) => Ok(VList((xs + (if |xs| < 4 then DefaultLegend[|xs|..] else []))[..4]))
    case _ => Err(TypeError)  // `+=` of a list onto a value that is not a list
  }

  // ---------------------------------------------------------------------------
  // The whole of prepare_args

  /** The plot dictionary after `prepare_args`. */
  function Prepared(d: Dict, broadcast: (Dict, nat) -> Dict, resolve: string -> int): Result<Dict>
    requires forall e: Dict, n: nat :: HoldsLists(broadcast(e, n), ListKeys)
  {
    var n :- NumItems(d);
    var d1 := broadcast(d, n);
    assert HoldsLists(d1, ListKeys);
    assert "colors" in ListKeys && "markers" in ListKeys && "fill_styles" in ListKeys && "stacks" in ListKeys;
    assert IsList(d1, "colors") && IsList(d1, "markers") && IsList(d1, "fill_styles") && IsList(d1, "stacks");
    var colors :- DefaultColors(d1["colors"].items, resolve);
    var d2 := d1["colors" := VList(colors)];
    var mf :- DefaultMarkersAndFills(d2["markers"].items, d2["fill_styles"].items, d2["stacks"].items);
    var d3 := d2["markers" := VList(mf.0)]["fill_styles" := VList(mf.1)];
    var given :- Get(d3, "stacks_errband_names");
    var groups :- ErrbandGroups(given, d3["stacks"].items);
    var d4 := d3["stacks_errband_names" := GroupsValue(groups)];
    var legend :- Get(d4, "legend");
    var padded :- PadLegend(legend);
    Ok(d4["legend" := padded])
  }

  /**
   * What `prepare_args` guarantees to the drawing code: every colour is an index,
   * every visited marker and fill-style slot is set, and a legend is `None` or
   * exactly four numbers.
   */
  lemma PreparedGuarantees(d: Dict, broadcast: (Dict, nat) -> Dict, resolve: string -> int)
    requires forall e: Dict, n: nat :: HoldsLists(broadcast(e, n), ListKeys)
    requires Prepared(d, broadcast, resolve).Ok?
    ensures var p := Prepared(d, broadcast, resolve).value;
            && IsList(p, "colors") && (forall i :: 0 <= i < |p["colors"].items| ==> p["colors"].items[i].VInt?)
            && IsList(p, "markers") && IsList(p, "fill_styles") && IsList(p, "stacks")
            && (forall i :: 0 <= i < Min3(|p["markers"].items|, |p["fill_styles"].items|, |p["stacks"].items|) ==>
                  p["markers"].items[i] != VNone && p["fill_styles"].items[i] != VNone)
            && "legend" in p && (p["legend"] == VNone || (p["legend"].VList? && |p["legend"].items| == 4))
  {
    var n := NumItems(d).value;
    var d1 := broadcast(d, n);
    assert HoldsLists(d1, ListKeys);
    assert "colors" in ListKeys && "markers" in ListKeys && "fill_styles" in ListKeys && "stacks" in ListKeys;
    ColorsAreIndices(d1["colors"].items, resolve);
  }

  method PrepareArgs(pd: PlotData, broadcast: (Dict, nat) -> Dict, resolve: string -> int) returns (outcome: Result<Dict>)
    requires forall e: Dict, n: nat :: HoldsLists(broadcast(e, n), ListKeys)
    modifies pd
    ensures outcome == Prepared(old(pd.plotdict), broadcast, resolve)
    ensures outcome.Ok? ==> pd.plotdict == outcome.value
    ensures pd.rootObjects == old(pd.rootObjects)
  {
    var n := NumItems(pd.plotdict);
    if n.Err? {
      return Err(n.failure);
    }
    pd.plotdict := broadcast(pd.plotdict, n.value);
    assert HoldsLists(pd.plotdict, ListKeys);
    assert "colors" in ListKeys && "markers" in ListKeys && "fill_styles" in ListKeys && "stacks" in ListKeys;
    var colors := PrepareColors(pd, resolve);
    if colors.Err? {
      return Err(colors.failure);
    }
    var markers := PrepareMarkers(pd);
    if markers.Err? {
      return Err(markers.failure);
    }
    if "stacks_errband_names" !in pd.plotdict {
      return Err(KeyError("stacks_errband_names"));
    }
    var names := pd.plotdict["stacks_errband_names"];
    if names == VNone {
      var default := DefaultErrbandNames(pd.plotdict["stacks"].items);
      if default.Err? {
        return Err(default.failure);
      }
      names := default.value;
    }
    var items := Iterate(names);
    if items.Err? {
      return Err(items.failure);
    }
    var groups := SplitAll(items.value);
    if groups.Err? {
      return Err(groups.failure);
    }
    pd.plotdict := pd.plotdict["stacks_errband_names" := GroupsValue(groups.value)];
    var known := CheckErrbandNames(groups.value, pd.plotdict["stacks"].items);
    if !known {
      return Err(Exit(1));
    }
    if "legend" !in pd.plotdict {
      return Err(KeyError("legend"));
    }
    var legend := PadLegend(pd.plotdict["legend"]);
    if legend.Err? {
      return Err(legend.failure);
    }
    pd.plotdict := pd.plotdict["legend" := legend.value];
    outcome := Ok(pd.plotdict);
  }

  // ---------------------------------------------------------------------------
  // Draw options (plotroot.py:241-276)

  datatype Pad = PlotPad | SubplotPad

  /** One object drawn: its nick, the pad and the draw option. */
  datatype Draw = Draw(nick: Value, pad: Pad, option: Value)

  /** How many of the first `i` plots go to the subplot pad (`onSubplot`) or the plot pad. */
  function PadCount(subplots: seq<Value>, i: nat, onSubplot: bool): (c: nat)
    requires i <= |subplots|
    ensures c <= i
  {
    if i == 0 then 0
    else PadCount(subplots, i - 1, onSubplot) + (if EqualsTrue(subplots[i - 1]) == onSubplot then 1 else 0)
  }

  /**
   * Whether plot `i` gets " SAME".  The pad is chosen by `subplot == True`, but this
   * test uses the truthiness of `subplot`; the counters are the pads' running indices.
   */
  predicate AppendsSame(subplots: seq<Value>, i: nat)
    requires i < |subplots|
  {
    var indexPlot := PadCount(subplots, i + 1, false) - 1;
    var indexSubplot := PadCount(subplots, i + 1, true) - 1;
    (!Truthy(subplots[i]) && indexPlot > 0) || (Truthy(subplots[i]) && indexSubplot > 0)
  }

  function DrawAt(nicks: seq<Value>, subplots: seq<Value>, markers: seq<Value>, store: Store, i: nat): Result<Option<Draw>>
    requires i < |nicks| && i < |subplots| && i < |markers|
  {
    var pad := if EqualsTrue(subplots[i]) then SubplotPad else PlotPad;
    var obj :- Lookup(store, nicks[i]);
    var option :-
      if !AppendsSame(subplots, i) then Ok(markers[i])
      else if markers[i].VStr? then Ok(VStr(markers[i].s + " SAME"))
      else Err(TypeError);
    match obj.kind
    case Histogram(_) => Ok(Some(Draw(nicks[i], pad, option)))
    case Graph =>
      if option.VStr? then Ok(Some(Draw(nicks[i], pad, VStr(option.s + (if i == 0 then " A" else "")))))
      else Err(TypeError)
    case _ => Ok(None)  // logged as not implemented, nothing drawn
  }

  /** The draws made for plots `i` onwards, stopping at the first failure. */
  function DrawsFrom(nicks: seq<Value>, subplots: seq<Value>, markers: seq<Value>, store: Store, i: nat): Result<seq<Draw>>
    decreases Min3(|nicks|, |subplots|, |markers|) - i
  {
    if i >= Min3(|nicks|, |subplots|, |markers|) then Ok([])
    else match DrawAt(nicks, subplots, markers, store, i)
      case Err(f) => Err(f)
      case Ok(d) =>
        match DrawsFrom(nicks, subplots, markers, store, i + 1)
        case Err(f) => Err(f)
        case Ok(rest) => Ok((if d.Some? then [d.value] else []) + rest)
  }

  /** With boolean subplot flags, " SAME" is appended exactly when an earlier plot went to the same pad. */
  lemma SameUnlessFirstOnPad(subplots: seq<Value>, i: nat)
    requires i < |subplots| && subplots[i].VBool?
    ensures AppendsSame(subplots, i) <==> PadCount(subplots, i, EqualsTrue(subplots[i])) > 0
  {
  }

  function Prepend<T>(acc: seq<T>, r: Result<seq<T>>): Result<seq<T>>
  {
    match r
    case Err(f) => Err(f)
    case Ok(rest) => Ok(acc + rest)
  }

  lemma PrependAssoc<T>(a: seq<T>, b: seq<T>, r: Result<seq<T>>)
    ensures Prepend(a, Prepend(b, r)) == Prepend(a + b, r)
    ensures Prepend([], r) == r
  {
    if r.Ok? {
      assert a + (b + r.value) == (a + b) + r.value;
      assert [] + r.value == r.value;
    }
  }

  /** The plot loop of `make_plots`, with its two pad counters; axis-range tracking is not modelled. */
  method MakePlots(nicks: seq<Value>, subplots: seq<Value>, markers: seq<Value>, store: Store) returns (outcome: Result<seq<Draw>>)
    ensures outcome == DrawsFrom(nicks, subplots, markers, store, 0)
  {
    var n := Min3(|nicks|, |subplots|, |markers|);
    var indexPlot, indexSubplot := -1, -1;
    var draws: seq<Draw> := [];
    PrependAssoc([], [], DrawsFrom(nicks, subplots, markers, store, 0));
    for index := 0 to n
      invariant indexPlot == PadCount(subplots, index, false) - 1
      invariant indexSubplot == PadCount(subplots, index, true) - 1
      invariant DrawsFrom(nicks, subplots, markers, store, 0) == Prepend(draws, DrawsFrom(nicks, subplots, markers, store, index))
    {
      var step := DrawAt(nicks, subplots, markers, store, index);
      var pad;
      if EqualsTrue(subplots[index]) {
        indexSubplot := indexSubplot + 1;
        pad := SubplotPad;
      } else {
        indexPlot := indexPlot + 1;
        pad := PlotPad;
      }
      assert indexPlot == PadCount(subplots, index + 1, false) - 1;
      assert indexSubplot == PadCount(subplots, index + 1, true) - 1;
      var obj := Lookup(store, nicks[index]);
      if obj.Err? {
        return Err(obj.failure);
      }
      var option := markers[index];
      if (!Truthy(subplots[index]) && indexPlot > 0) || (Truthy(subplots[index]) && indexSubplot > 0) {
        if !option.VStr? {
          return Err(TypeError);
        }
        option := VStr(option.s + " SAME");
      }
      var drawn: seq<Draw> := [];
      match obj.value.kind {
        case Histogram(_) =>
          drawn := [Draw(nicks[index], pad, option)];
        case Graph =>
          if !option.VStr? {
            return Err(TypeError);
          }
          drawn := [Draw(nicks[index], pad, VStr(option.s + (if index == 0 then " A" else "")))];
        case _ =>
      }
      assert step.Ok? && drawn == (if step.value.Some? then [step.value.value] else []);
      PrependAssoc(draws, drawn, DrawsFrom(nicks, subplots, markers, store, index + 1));
      draws := draws + drawn;
    }
    assert draws + [] == draws;
    outcome := Ok(draws);
  }

  // ---------------------------------------------------------------------------
  // Legend entries (plotroot.py:402-421)

  datatype LegendEntry = LegendEntry(obj: RootObject, text: Value, option: string)

  /** A row that gets a legend entry: on the plot pad, with a label that is neither `None` nor empty. */
  predicate KeptRow(subplot: Value, text: Value) {
    !EqualsTrue(subplot) && text != VNone && text != VStr("")
  }

  function LegendOption(marker: string): (o: string)
    ensures o == "LP" <==> Contains(Lower(marker), "e")
    ensures o == "LP" || o == "F"
  {
    if Contains(Lower(marker), "e") then "LP" else "F"
  }

  function LegendFrom(nicks: seq<Value>, subplots: seq<Value>, markers: seq<Value>, labels: seq<Value>, store: Store, i: nat): Result<seq<LegendEntry>>
    decreases |nicks| - i
  {
    if i >= |nicks| || i >= |subplots| || i >= |markers| || i >= |labels| then Ok([])
    else if EqualsTrue(subplots[i]) then LegendFrom(nicks, subplots, markers, labels, store, i + 1)
    else match Lookup(store, nicks[i])
      case Err(f) => Err(f)
      case Ok(obj) =>
        if labels[i] == VNone || labels[i] == VStr("") then LegendFrom(nicks, subplots, markers, labels, store, i + 1)
        else if !markers[i].VStr? then Err(AttributeError)  // `marker.lower()`
        else Prepend([LegendEntry(obj, labels[i], LegendOption(markers[i].s))],
                     LegendFrom(nicks, subplots, markers, labels, store, i + 1))
  }

  /** The number of rows `zip` yields for the four legend lists: the shortest length. */
  function ZipLength(nicks: seq<Value>, subplots: seq<Value>, markers: seq<Value>, labels: seq<Value>): (n: nat)
    ensures n <= |nicks| && n <= |subplots| && n <= |markers| && n <= |labels|
    ensures n == |nicks| || n == |subplots| || n == |markers| || n == |labels|
  {
    var a := if |nicks| <= |subplots| then |nicks| else |subplots|;
    var b := if |markers| <= |labels| then |markers| else |labels|;
    if a <= b then a else b
  }

  /** The indices of the rows from `i` on that get an entry, in row order. */
  function KeptIndices(n: nat, subplots: seq<Value>, labels: seq<Value>, i: nat): (r: seq<nat>)
    requires n <= |subplots| && n <= |labels|
    ensures forall k :: 0 <= k < |r| ==> i <= r[k] < n && KeptRow(subplots[r[k]], labels[r[k]])
    decreases n - i
  {
    if i >= n then []
    else (if KeptRow(subplots[i], labels[i]) then [i] else []) + KeptIndices(n, subplots, labels, i + 1)
  }

  /** Every kept row from `i` on is listed. */
  lemma {:induction false} KeptIndicesComplete(n: nat, subplots: seq<Value>, labels: seq<Value>, i: nat)
    requires n <= |subplots| && n <= |labels|
    ensures forall j :: i <= j < n && KeptRow(subplots[j], labels[j]) ==> j in KeptIndices(n, subplots, labels, i)
    decreases n - i
  {
    if i < n {
      KeptIndicesComplete(n, subplots, labels, i + 1);
      var tail := KeptIndices(n, subplots, labels, i + 1);
      assert KeptIndices(n, subplots, labels, i) == (if KeptRow(subplots[i], labels[i]) then [i] else []) + tail;
    }
  }

  predicate Increasing(r: seq<nat>) {
    forall a, b :: 0 <= a < b < |r| ==> r[a] < r[b]
  }

  /** An index below every element of an increasing list keeps it increasing in front. */
  lemma PrependIncreasing(i: nat, tail: seq<nat>)
    requires Increasing(tail)
    requires forall k :: 0 <= k < |tail| ==> i < tail[k]
    ensures Increasing([i] + tail)
  {
    var r := [i] + tail;
    forall a, b | 0 <= a < b < |r|
      ensures r[a] < r[b]
    {
      assert r[b] == tail[b - 1];
      if a > 0 {
        assert r[a] == tail[a - 1];
      }
    }
  }

  /** The listed indices increase, so the rows appear in row order. */
  lemma {:induction false} KeptIndicesIncreasing(n: nat, subplots: seq<Value>, labels: seq<Value>, i: nat)
    requires n <= |subplots| && n <= |labels|
    ensures Increasing(KeptIndices(n, subplots, labels, i))
    decreases n - i
  {
    if i < n {
      var tail := KeptIndices(n, subplots, labels, i + 1);
      assert Increasing(tail) by {
        KeptIndicesIncreasing(n, subplots, labels, i + 1);
      }
      if KeptRow(subplots[i], labels[i]) {
        assert Increasing([i] + tail) by {
          PrependIncreasing(i, tail);
        }
        assert KeptIndices(n, subplots, labels, i) == [i] + tail;
      } else {
        assert KeptIndices(n, subplots, labels, i) == tail;
      }
    }
  }

  /**
   * A legend that is made has one entry per kept row, in row order: the row's
   * object and label, with "LP" when its marker holds an 'e' in either case, else "F".
   * Only the rows `zip` yields count, so the shortest of the four lists decides.
   */
  lemma {:induction false} LegendEntriesOfKeptRows(nicks: seq<Value>, subplots: seq<Value>, markers: seq<Value>, labels: seq<Value>, store: Store, i: nat)
    requires LegendFrom(nicks, subplots, markers, labels, store, i).Ok?
    ensures var r := LegendFrom(nicks, subplots, markers, labels, store, i).value;
            var kept := KeptIndices(ZipLength(nicks, subplots, markers, labels), subplots, labels, i);
            && |r| == |kept|
            && forall k :: 0 <= k < |r| ==>
                 && nicks[kept[k]].VStr? && nicks[kept[k]].s in store
                 && markers[kept[k]].VStr?
                 && r[k] == LegendEntry(store[nicks[kept[k]].s], labels[kept[k]], LegendOption(markers[kept[k]].s))
    decreases |nicks| - i
  {
    var n := ZipLength(nicks, subplots, markers, labels);
    if i < n {
      var r := LegendFrom(nicks, subplots, markers, labels, store, i).value;
      var kept := KeptIndices(n, subplots, labels, i);
      var keptTail := KeptIndices(n, subplots, labels, i + 1);
      if KeptRow(subplots[i], labels[i]) {
        var entry := LegendEntry(store[nicks[i].s], labels[i], LegendOption(markers[i].s));
        var rest := LegendFrom(nicks, subplots, markers, labels, store, i + 1);
        assert r == [entry] + rest.value;
        assert kept == [i] + keptTail;
        LegendEntriesOfKeptRows(nicks, subplots, markers, labels, store, i + 1);
        forall k | 0 <= k < |r|
          ensures nicks[kept[k]].VStr? && nicks[kept[k]].s in store && markers[kept[k]].VStr?
          ensures r[k] == LegendEntry(store[nicks[kept[k]].s], labels[kept[k]], LegendOption(markers[kept[k]].s))
        {
          if k > 0 {
            assert kept[k] == keptTail[k - 1] && r[k] == rest.value[k - 1];
          }
        }
      } else {
        assert kept == keptTail;
        assert r == LegendFrom(nicks, subplots, markers, labels, store, i + 1).value;
        LegendEntriesOfKeptRows(nicks, subplots, markers, labels, store, i + 1);
      }
    }
  }

  /** The legend loop of `add_labels`: no legend at all when the legend position is `None`. */
  method AddLabels(legend: Value, nicks: seq<Value>, subplots: seq<Value>, markers: seq<Value>, labels: seq<Value>, store: Store)
    returns (outcome: Result<Option<seq<LegendEntry>>>)
    ensures legend == VNone ==> outcome == Ok(None)
    ensures legend != VNone ==> outcome == (match LegendFrom(nicks, subplots, markers, labels, store, 0)
                                            case Err(f) => Err(f)
                                            case Ok(es) => Ok(Some(es)))
  {
    if legend == VNone {
      return Ok(None);
    }
    var entries: seq<LegendEntry> := [];
    var n := Min3(|nicks|, |subplots|, Min3(|markers|, |labels|, |labels|));
    PrependAssoc([], [], LegendFrom(nicks, subplots, markers, labels, store, 0));
    for i := 0 to n
      invariant LegendFrom(nicks, subplots, markers, labels, store, 0) == Prepend(entries, LegendFrom(nicks, subplots, markers, labels, store, i))
    {
      if EqualsTrue(subplots[i]) {
        continue;
      }
      var obj := Lookup(store, nicks[i]);
      if obj.Err? {
        return Err(obj.failure);
      }
      if labels[i] != VNone && labels[i] != VStr("") {
        if !markers[i].VStr? {
          return Err(AttributeError);
        }
        var entry := LegendEntry(obj.value, labels[i], LegendOption(markers[i].s));
        PrependAssoc(entries, [entry], LegendFrom(nicks, subplots, markers, labels, store, i + 1));
        entries := entries + [entry];
      }
    }
    assert entries + [] == entries;
    outcome := Ok(Some(entries));
  }
}
