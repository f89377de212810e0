/**
 * The HarryPlotter orchestrator (`HarryCore`): a registry of named processors, the
 * resolution of the requested input, analysis and plot modules, the merge of JSON
 * defaults, the export of the arguments, and the strictly sequential execution of
 * every processor's `prepare_args` and `run` with a deep copy for plot processors.
 *
 * What each processor does to the plot state is a parameter (`prepare`, `execute`);
 * argparse and the JSON reader are inputs (`args`, `jsonDefaults`, `parsed`).
 */
module Core {
  import opened Wrappers
  import opened PyValues

  /** Which base class a processor derives from: InputBase, AnalysisBase or PlotBase. */
  datatype Role = InputRole | AnalysisRole | PlotRole

  datatype Processor = Processor(name: string, role: Role)

  /** Each phase call the orchestrator makes on a processor, in the order made. */
  datatype Call = ModifyParser(processor: string) | Prepare(processor: string) | Execute(processor: string)

  /** A processor's `prepare_args` or `run`: the new plot state, or the failure that stops the run. */
  type Step = (Processor, PlotState) -> Result<PlotState>

  // ---------------------------------------------------------------------------
  // The registry (core.py:46-75, 178-179)

  /** The built-in processors, registered under their class names. */
  function BuiltinProcessors(): (r: map<string, Processor>)
    ensures forall k :: k in r ==> r[k].name == k
    ensures "InputRoot" in r && r["InputRoot"].role == InputRole
    ensures "PlotRoot" in r && r["PlotRoot"].role == PlotRole
  {
    map[
      "InputRoot" := Processor("InputRoot", InputRole),
      "InputInteractive" := Processor("InputInteractive", InputRole),
      "EventSelectionOverlap" := Processor("EventSelectionOverlap", AnalysisRole),
      "ProjectByFit" := Processor("ProjectByFit", AnalysisRole),
      "FunctionPlot" := Processor("FunctionPlot", AnalysisRole),
      "Efficiency" := Processor("Efficiency", AnalysisRole),
      "ShapeYieldMerge" := Processor("ShapeYieldMerge", AnalysisRole),
      "ExtrapolationFactor" := Processor("ExtrapolationFactor", AnalysisRole),
      "BinErrorsOfEmptyBins" := Processor("BinErrorsOfEmptyBins", AnalysisRole),
      "SumOfHistograms" := Processor("SumOfHistograms", AnalysisRole),
      "NormalizeByBinWidth" := Processor("NormalizeByBinWidth", AnalysisRole),
      "NormalizeToUnity" := Processor("NormalizeToUnity", AnalysisRole),
      "NormalizeToFirstHisto" := Processor("NormalizeToFirstHisto", AnalysisRole),
      "NormalizeStackToFirstHisto" := Processor("NormalizeStackToFirstHisto", AnalysisRole),
      "CorrectNegativeBinContents" := Processor("CorrectNegativeBinContents", AnalysisRole),
      "PrintInfos" := Processor("PrintInfos", AnalysisRole),
      "Cutflow" := Processor("Cutflow", AnalysisRole),
      "PlotRoot" := Processor("PlotRoot", PlotRole),
      "PlotMpl" := Processor("PlotMpl", PlotRole),
      "ExportRoot" := Processor("ExportRoot", PlotRole)
    ]
  }

  /** The registry a new `HarryCore` starts with: the built-ins, overridden by the user's processors. */
  function InitialRegistry(userProcessors: Option<map<string, Processor>>): (r: map<string, Processor>)
    ensures var user := if userProcessors.Some? then userProcessors.value else map[];
            && r.Keys == BuiltinProcessors().Keys + user.Keys
            && (forall k :: k in user ==> r[k] == user[k])
            && (forall k :: k in BuiltinProcessors() && k !in user ==> r[k] == BuiltinProcessors()[k])
  {
    BuiltinProcessors() + (if userProcessors.Some? then userProcessors.value else map[])
  }

  predicate HasRole(available: map<string, Processor>, name: string, role: Role) {
    name in available && available[name].role == role
  }

  // ---------------------------------------------------------------------------
  // Module resolution (core.py:94-134)

  /** The requested names registered with `role`, in requested order and with repeats. */
  function Registered(names: seq<string>, available: map<string, Processor>, role: Role): (r: seq<string>)
    ensures forall x :: x in r <==> x in names && HasRole(available, x, role)
  {
    if names == [] then []
    else (if HasRole(available, names[0], role) then [names[0]] else [])
         + Registered(names[1..], available, role)
  }

  /** The requested names not registered with `role` (the ones the warning lists), in requested order. */
  function Unregistered(names: seq<string>, available: map<string, Processor>, role: Role): (r: seq<string>)
    ensures forall x :: x in r <==> x in names && !HasRole(available, x, role)
  {
    if names == [] then []
    else (if HasRole(available, names[0], role) then [] else [names[0]])
         + Unregistered(names[1..], available, role)
  }

  /** For each requested name, whether it is registered with `role`. */
  function RoleMask(names: seq<string>, available: map<string, Processor>, role: Role): (m: seq<bool>)
    ensures |m| == |names|
  {
    seq(|names|, i requires 0 <= i < |names| => HasRole(available, names[i], role))
  }

  /** Merge two lists back into one, taking from `kept` where `mask` is true and from `dropped` elsewhere. */
  function Interleave(mask: seq<bool>, kept: seq<string>, dropped: seq<string>): seq<string>
  {
    if mask == [] then []
    else if mask[0] then
      (if kept == [] then [] else [kept[0]] + Interleave(mask[1..], kept[1..], dropped))
    else
      (if dropped == [] then [] else [dropped[0]] + Interleave(mask[1..], kept, dropped[1..]))
  }

  /**
   * The resolved and the missing names partition the request: together they have
   * its length, and merging them back by the role test gives the request, in order.
   */
  lemma {:induction false} PartitionRoundTrip(names: seq<string>, available: map<string, Processor>, role: Role)
    ensures |Registered(names, available, role)| + |Unregistered(names, available, role)| == |names|
    ensures Interleave(RoleMask(names, available, role),
                       Registered(names, available, role),
                       Unregistered(names, available, role)) == names
  {
    if names != [] {
      PartitionRoundTrip(names[1..], available, role);
      PartitionStep(names, available, role);
    }
  }

  /** The first requested name goes to the side its mask bit selects, ahead of the rest. */
  lemma PartitionStep(names: seq<string>, available: map<string, Processor>, role: Role)
    requires names != []
    ensures |Registered(names, available, role)| + |Unregistered(names, available, role)|
            == 1 + |Registered(names[1..], available, role)| + |Unregistered(names[1..], available, role)|
    ensures Interleave(RoleMask(names, available, role), Registered(names, available, role), Unregistered(names, available, role))
            == [names[0]] + Interleave(RoleMask(names[1..], available, role),
                                       Registered(names[1..], available, role), Unregistered(names[1..], available, role))
  {
    var mask := RoleMask(names, available, role);
    var kept := Registered(names, available, role);
    var dropped := Unregistered(names, available, role);
    var keptTail := Registered(names[1..], available, role);
    var droppedTail := Unregistered(names[1..], available, role);
    assert mask[1..] == RoleMask(names[1..], available, role);
    if mask[0] {
      assert kept == [names[0]] + keptTail && dropped == droppedTail;
      assert kept[0] == names[0] && kept[1..] == keptTail;
    } else {
      assert kept == keptTail && dropped == [names[0]] + droppedTail;
      assert dropped[0] == names[0] && dropped[1..] == droppedTail;
    }
  }


  /** How Python iterates a module request: a list of names, or the characters of a string. */
  function NameList(v: Value): (r: Result<seq<string>>)
    ensures v.VList? && (forall i :: 0 <= i < |v.items| ==> v.items[i].VStr?) <==> r.Ok? && v.VList?
    ensures r.Ok? && v.VList? ==> |r.value| == |v.items| && forall i :: 0 <= i < |v.items| ==> v.items[i] == VStr(r.value[i])
  {
    var items :- Iterate(v);
    StringItems(items)
  }

  function FindProcessor(available: map<string, Processor>, name: string): (r: Result<Processor>)
    ensures r.Ok? <==> name in available
    ensures r.Ok? ==> r.value == available[name]
  {
    if name in available then Ok(available[name]) else Err(KeyError(name))
  }

  /** The registered processors of a list of names that are all registered. */
  function LookupAll(available: map<string, Processor>, names: seq<string>): (r: seq<Processor>)
    requires forall x :: x in names ==> x in available
    ensures |r| == |names| && forall i :: 0 <= i < |names| ==> r[i] == available[names[i]]
  {
    seq(|names|, i requires 0 <= i < |names| => available[names[i]])
  }

  /** The processors chosen for one run, and the argument dictionary as resolution left it. */
  datatype Resolution = Resolution(
    input: Processor,
    analysis: seq<Processor>,
    plots: seq<Processor>,
    missingAnalysis: seq<string>,
    missingPlots: seq<string>,
    args: Dict)
  {
    function Processors(): seq<Processor> { [input] + analysis + plots }
  }

  predicate ResolvableArgs(args: Dict) {
    "input_module" in args && "analysis_modules" in args && "plot_modules" in args
  }

  /** The name the input slot uses: the requested name if it is registered (with any role), else the default. */
  function InputName(available: map<string, Processor>, requested: Value, defaultInput: string): Result<string>
  {
    if requested.VStr? && requested.s in available then Ok(requested.s)
    else if requested.VStr? then Ok(defaultInput)
    else Err(TypeError)  // the fallback warning concatenates the request to a string
  }

  function Resolve(available: map<string, Processor>, args: Dict, defaultInput: string, defaultPlot: string): Result<Resolution>
    requires ResolvableArgs(args)
  {
    var inputName :- InputName(available, args["input_module"], defaultInput);
    var args1 := args["input_module" := VStr(inputName)];
    var input :- FindProcessor(available, inputName);
    var analysisValue := if args1["analysis_modules"] == VNone then VList([]) else args1["analysis_modules"];
    var args2 := args1["analysis_modules" := analysisValue];
    var analysisNames :- NameList(analysisValue);
    var analysis := Registered(analysisNames, available, AnalysisRole);
    var plotValue := if args2["plot_modules"].VStr? then VList([args2["plot_modules"]]) else args2["plot_modules"];
    var args3 := args2["plot_modules" := plotValue];
    var plotNames :- NameList(plotValue);
    var plots := Registered(plotNames, available, PlotRole);
    var plotProcessors :-
      if plots == [] then
        (match FindProcessor(available, defaultPlot)
         case Err(f) => Err(f)
         case Ok(p) => Ok([p]))
      else Ok(LookupAll(available, plots));
    Ok(Resolution(
      input,
      LookupAll(available, analysis),
      plotProcessors,
      Unregistered(analysisNames, available, AnalysisRole),
      Unregistered(plotNames, available, PlotRole),
      args3))
  }

  /**
   * The shape of every resolution: the input slot is the processor registered under
   * the requested name, whatever its role, or else the default; every analysis slot
   * holds an analysis processor; at least one plot processor follows, and either all
   * of them are plot processors or the default plot module stands alone. Which names
   * are selected, in order and with repeats, is stated by `Registered` and
   * `PartitionRoundTrip`.
   */
  lemma ResolutionShape(available: map<string, Processor>, args: Dict, defaultInput: string, defaultPlot: string)
    requires ResolvableArgs(args)
    requires Resolve(available, args, defaultInput, defaultPlot).Ok?
    ensures var res := Resolve(available, args, defaultInput, defaultPlot).value;
            var requested := args["input_module"];
            && requested.VStr?
            && (requested.s in available ==> res.input == available[requested.s])
            && (requested.s !in available ==> res.input == available[defaultInput])
            && (forall i :: 0 <= i < |res.analysis| ==> res.analysis[i].role == AnalysisRole)
            && |res.plots| >= 1
            && ((forall i :: 0 <= i < |res.plots| ==> res.plots[i].role == PlotRole)
                || (defaultPlot in available && res.plots == [available[defaultPlot]]))
            && |res.Processors()| == 1 + |res.analysis| + |res.plots|
  {
    var res := Resolve(available, args, defaultInput, defaultPlot).value;
    var inputName := InputName(available, args["input_module"], defaultInput).value;
    var args1 := args["input_module" := VStr(inputName)];
    var analysisValue := if args1["analysis_modules"] == VNone then VList([]) else args1["analysis_modules"];
    var args2 := args1["analysis_modules" := analysisValue];
    var analysis := Registered(NameList(analysisValue).value, available, AnalysisRole);
    assert res.analysis == LookupAll(available, analysis);
    forall i | 0 <= i < |analysis|
      ensures res.analysis[i].role == AnalysisRole
    {
      assert analysis[i] in analysis;
    }
    var plotValue := if args2["plot_modules"].VStr? then VList([args2["plot_modules"]]) else args2["plot_modules"];
    var plots := Registered(NameList(plotValue).value, available, PlotRole);
    if plots != [] {
      assert res.plots == LookupAll(available, plots);
      forall i | 0 <= i < |plots|
        ensures res.plots[i].role == PlotRole
      {
        assert plots[i] in plots;
      }
    }
  }

  /** A request of `None` for analysis modules is an empty request, not an error. */
  lemma NoAnalysisRequested(available: map<string, Processor>, args: Dict, defaultInput: string, defaultPlot: string)
    requires ResolvableArgs(args) && args["analysis_modules"] == VNone
    requires Resolve(available, args, defaultInput, defaultPlot).Ok?
    ensures Resolve(available, args, defaultInput, defaultPlot).value.analysis == []
    ensures Resolve(available, args, defaultInput, defaultPlot).value.missingAnalysis == []
    ensures Resolve(available, args, defaultInput, defaultPlot).value.args["analysis_modules"] == VList([])
  {
  }

  /** A single plot-module string is a request for that one module. */
  lemma SinglePlotString(available: map<string, Processor>, args: Dict, defaultInput: string, defaultPlot: string)
    requires ResolvableArgs(args) && args["plot_modules"].VStr?
    requires HasRole(available, args["plot_modules"].s, PlotRole)
    requires Resolve(available, args, defaultInput, defaultPlot).Ok?
    ensures Resolve(available, args, defaultInput, defaultPlot).value.plots == [available[args["plot_modules"].s]]
    ensures Resolve(available, args, defaultInput, defaultPlot).value.missingPlots == []
  {
    var name := args["plot_modules"].s;
    assert Registered([name], available, PlotRole) == [name] + Registered([], available, PlotRole);
    assert Unregistered([name], available, PlotRole) == [] + Unregistered([], available, PlotRole);
  }

  /** Unlike the analysis request, a plot request of `None` cannot be iterated. */
  lemma NoPlotRequestFails(available: map<string, Processor>, args: Dict, defaultInput: string, defaultPlot: string)
    requires ResolvableArgs(args) && args["plot_modules"] == VNone
    ensures Resolve(available, args, defaultInput, defaultPlot).Err?
  {
  }

  // ---------------------------------------------------------------------------
  // JSON defaults (core.py:81-90)

  /** `args.update({k: v for k, v in json if args.get(k) == None and v != None})` */
  function MergeJsonDefaults(args: Dict, json: Dict): (r: Dict)
    ensures r.Keys == args.Keys + (set k | k in json && json[k] != VNone)
    ensures forall k :: k in args && args[k] != VNone ==> r[k] == args[k]
    ensures forall k :: k in json && json[k] != VNone && (k !in args || args[k] == VNone) ==> r[k] == json[k]
    ensures forall k :: k in r && (k !in args || r[k] != args[k]) ==> k in json && json[k] != VNone && r[k] == json[k]
  {
    args + (map k | k in json && json[k] != VNone && (k !in args || args[k] == VNone) :: json[k])
  }

  /** Merging the same defaults twice changes nothing more. */
  lemma MergeIdempotent(args: Dict, json: Dict)
    ensures MergeJsonDefaults(MergeJsonDefaults(args, json), json) == MergeJsonDefaults(args, json)
  {
    var once := MergeJsonDefaults(args, json);
    var twice := MergeJsonDefaults(once, json);
    forall k | k in twice
      ensures k in once && twice[k] == once[k]
    {
      if k in args && args[k] != VNone {
      } else if k in json && json[k] != VNone {
        assert once[k] == json[k];
      }
    }
  }

  /** The argument dictionary after the JSON defaults are applied and `json_defaults` is put back. */
  function WithJsonDefaults(args: Dict, json: Dict): Dict
    requires "json_defaults" in args
  {
    if args["json_defaults"] == VNone then args
    else MergeJsonDefaults(args, json)["json_defaults" := args["json_defaults"]]
  }

  /** Putting `json_defaults` back after the merge is redundant: the merge never changes a key that is not None. */
  lemma RestoreIsRedundant(args: Dict, json: Dict)
    requires "json_defaults" in args && args["json_defaults"] != VNone
    ensures WithJsonDefaults(args, json) == MergeJsonDefaults(args, json)
    ensures WithJsonDefaults(args, json)["json_defaults"] == args["json_defaults"]
  {
  }

  // ---------------------------------------------------------------------------
  // Export of the arguments (core.py:151-166)

  /** Nothing to export, a JSON file to write, or the warning that no file name is known. */
  datatype Export = NoExport | Save(fileName: Value, content: Dict) | NoFileName

  const ExcludedKeys: set<string> := {"quantities", "export_json", "live", "json_defaults"}

  /** `value[0]` for the `json_defaults` entry. */
  function FirstItem(v: Value): (r: Result<Value>)
    ensures v.VList? && v.items != [] ==> r == Ok(v.items[0])
    ensures v.VList? && v.items == [] ==> r == Err(IndexError)
    ensures !v.VList? && !v.VStr? ==> r == Err(TypeError)
  {
    match v
    case VList(items) => if items == [] then Err(IndexError) else Ok(items[0])
    case VStr(s) => if s == [] then Err(IndexError) else Ok(VStr([s[0]]))
    case _ => Err(TypeError)
  }

  function ExportPlan(args: Dict): (r: Result<Export>)
    requires "export_json" in args
    ensures args["export_json"] == VNone ==> r == Ok(NoExport)
    ensures r.Ok? && r.value.Save? ==>
              && r.value.content.Keys == args.Keys - ExcludedKeys
              && (forall k :: k in r.value.content ==> r.value.content[k] == args[k])
              && (args["export_json"] != VStr("") ==> r.value.fileName == args["export_json"])
    ensures args["export_json"] != VNone && ExcludedKeys <= args.Keys && args["export_json"] != VStr("") ==> r.Ok? && r.value.Save?
    ensures args["export_json"] != VNone && !(ExcludedKeys <= args.Keys) ==> r.Err? && r.failure.KeyError?
    ensures args["export_json"] == VStr("") && ExcludedKeys <= args.Keys ==>
              var first := FirstItem(args["json_defaults"]);
              && (first.Err? ==> r == Err(first.failure))
              && (first == Ok(VNone) ==> r == Ok(NoFileName))
              && (first.Ok? && first.value != VNone ==> r.Ok? && r.value.Save? && r.value.fileName == first.value)
    ensures r == Ok(NoFileName) <==>
              args["export_json"] == VStr("") && ExcludedKeys <= args.Keys && FirstItem(args["json_defaults"]) == Ok(VNone)
  {
    if args["export_json"] == VNone then Ok(NoExport)
    else if "quantities" !in args then Err(KeyError("quantities"))
    else if "live" !in args then Err(KeyError("live"))
    else if "json_defaults" !in args then Err(KeyError("json_defaults"))
    else
      var content := args - ExcludedKeys;
      var name :- if args["export_json"] != VStr("") then Ok(args["export_json"]) else FirstItem(args["json_defaults"]);
      if name == VNone then Ok(NoFileName) else Ok(Save(name, content))
  }

  // ---------------------------------------------------------------------------
  // Sequential execution (core.py:168-176)

  /** One processor's turn: `prepare_args`, then `run` on what `prepare_args` left. */
  function RunOne(p: Processor, s: PlotState, prepare: Step, execute: Step): Result<PlotState>
  {
    match prepare(p, s)
    case Err(f) => Err(f)
    case Ok(s1) => execute(p, s1)
  }

  /**
   * The canonical plot state after each processor in turn: an input or analysis
   * processor's result becomes the state the next one sees; a plot processor works
   * on a copy that is dropped.  The first failure ends the run.
   */
  function Pipeline(ps: seq<Processor>, s: PlotState, prepare: Step, execute: Step): Result<PlotState>
  {
    if ps == [] then Ok(s)
    else match RunOne(ps[0], s, prepare, execute)
      case Err(f) => Err(f)
      case Ok(s1) => Pipeline(ps[1..], if ps[0].role == PlotRole then s else s1, prepare, execute)
  }

  /** The phase calls made by `Pipeline`, up to and including the one that fails. */
  function PipelineTrace(ps: seq<Processor>, s: PlotState, prepare: Step, execute: Step): seq<Call>
  {
    if ps == [] then []
    else match prepare(ps[0], s)
      case Err(_) => [Prepare(ps[0].name)]
      case Ok(s1) =>
        match execute(ps[0], s1)
        case Err(_) => [Prepare(ps[0].name), Execute(ps[0].name)]
        case Ok(s2) =>
          [Prepare(ps[0].name), Execute(ps[0].name)]
          + PipelineTrace(ps[1..], if ps[0].role == PlotRole then s else s2, prepare, execute)
  }

  /** Every processor's two phases, one processor after the other. */
  function PhaseOrder(ps: seq<Processor>): seq<Call>
  {
    if ps == [] then [] else [Prepare(ps[0].name), Execute(ps[0].name)] + PhaseOrder(ps[1..])
  }

  function NonPlot(ps: seq<Processor>): (r: seq<Processor>)
    ensures forall i :: 0 <= i < |r| ==> r[i].role != PlotRole && r[i] in ps
  {
    if ps == [] then []
    else (if ps[0].role == PlotRole then [] else [ps[0]]) + NonPlot(ps[1..])
  }

  /** In a run that completes, `prepare_args` and `run` of each processor finish before the next processor starts. */
  lemma {:induction false} CompleteRunOrder(ps: seq<Processor>, s: PlotState, prepare: Step, execute: Step)
    requires Pipeline(ps, s, prepare, execute).Ok?
    ensures PipelineTrace(ps, s, prepare, execute) == PhaseOrder(ps)
  {
    if ps != [] {
      var s1 := RunOne(ps[0], s, prepare, execute).value;
      CompleteRunOrder(ps[1..], if ps[0].role == PlotRole then s else s1, prepare, execute);
    }
  }

  /**
   * Plot isolation: in a run that completes, the canonical state is what the input
   * and analysis processors alone make of it; nothing a plot processor does reaches it.
   */
  lemma {:induction false} PlotIsolation(ps: seq<Processor>, s: PlotState, prepare: Step, execute: Step)
    requires Pipeline(ps, s, prepare, execute).Ok?
    ensures Pipeline(ps, s, prepare, execute) == Pipeline(NonPlot(ps), s, prepare, execute)
  {
    if ps != [] {
      var s1 := RunOne(ps[0], s, prepare, execute).value;
      PlotIsolation(ps[1..], if ps[0].role == PlotRole then s else s1, prepare, execute);
      if ps[0].role != PlotRole {
        assert NonPlot(ps) == [ps[0]] + NonPlot(ps[1..]);
        assert NonPlot(ps)[0] == ps[0] && NonPlot(ps)[1..] == NonPlot(ps[1..]);
        assert Pipeline(NonPlot(ps), s, prepare, execute) == Pipeline(NonPlot(ps[1..]), s1, prepare, execute);
      } else {
        assert NonPlot(ps) == NonPlot(ps[1..]);
        assert Pipeline(ps, s, prepare, execute) == Pipeline(ps[1..], s, prepare, execute);
      }
    }
  }

  /**
   * One processor's turn on `plotData`: a plot processor works on a fresh copy, so
   * `plotData` keeps its state; any other processor changes `plotData` itself.
   * Returns the object the next processor receives.
   */
  method RunProcessor(plotData: PlotData, p: Processor, prepare: Step, execute: Step)
    returns (outcome: Result<PlotState>, calls: seq<Call>, next: PlotData)
    modifies plotData
    ensures outcome == RunOne(p, old(plotData.State()), prepare, execute)
    ensures calls == PipelineTrace([p], old(plotData.State()), prepare, execute)
    ensures next == plotData || fresh(next)
    ensures outcome.Ok? ==> next.State() == if p.role == PlotRole then old(plotData.State()) else outcome.value
  {
    var before := plotData.State();
    var tmpPlotData := plotData;
    if p.role == PlotRole {
      tmpPlotData := new PlotData(before);
    }
    next := plotData;
    calls := [Prepare(p.name)];
    var prepared := prepare(p, tmpPlotData.State());
    if prepared.Err? {
      return Err(prepared.failure), calls, next;
    }
    tmpPlotData.SetState(prepared.value);
    calls := calls + [Execute(p.name)];
    var executed := execute(p, tmpPlotData.State());
    if executed.Err? {
      return Err(executed.failure), calls, next;
    }
    tmpPlotData.SetState(executed.value);
    if p.role != PlotRole {
      next := tmpPlotData;
    }
    outcome := executed;
  }

  /** A processor's turn followed by the rest of the list is the pipeline of the whole list. */
  lemma PipelineStep(ps: seq<Processor>, s: PlotState, prepare: Step, execute: Step)
    requires ps != []
    ensures var r := RunOne(ps[0], s, prepare, execute);
            var calls := PipelineTrace([ps[0]], s, prepare, execute);
            && (r.Err? ==> Pipeline(ps, s, prepare, execute) == r && PipelineTrace(ps, s, prepare, execute) == calls)
            && (r.Ok? ==> var next := if ps[0].role == PlotRole then s else r.value;
                  && Pipeline(ps, s, prepare, execute) == Pipeline(ps[1..], next, prepare, execute)
                  && PipelineTrace(ps, s, prepare, execute) == calls + PipelineTrace(ps[1..], next, prepare, execute))
  {
  }

  /** After `trace`, the first `i` processors have brought the canonical state to `s`. */
  ghost predicate Reached(ps: seq<Processor>, initial: PlotState, prepare: Step, execute: Step, i: nat, trace: seq<Call>, s: PlotState)
    requires i <= |ps|
  {
    && Pipeline(ps, initial, prepare, execute) == Pipeline(ps[i..], s, prepare, execute)
    && PipelineTrace(ps, initial, prepare, execute) == trace + PipelineTrace(ps[i..], s, prepare, execute)
  }

  /** Processor `i`'s turn either ends the pipeline with its failure or reaches the next processor. */
  lemma ReachedStep(ps: seq<Processor>, initial: PlotState, prepare: Step, execute: Step, i: nat, trace: seq<Call>, s: PlotState)
    requires i < |ps| && Reached(ps, initial, prepare, execute, i, trace, s)
    ensures var r := RunOne(ps[i], s, prepare, execute);
            var calls := PipelineTrace([ps[i]], s, prepare, execute);
            && (r.Err? ==> Pipeline(ps, initial, prepare, execute) == r && PipelineTrace(ps, initial, prepare, execute) == trace + calls)
            && (r.Ok? ==> Reached(ps, initial, prepare, execute, i + 1, trace + calls, if ps[i].role == PlotRole then s else r.value))
  {
    var tail := ps[i..];
    assert tail[0] == ps[i] && tail[1..] == ps[i + 1..];
    PipelineStep(tail, s, prepare, execute);
    var r := RunOne(ps[i], s, prepare, execute);
    if r.Ok? {
      var next := if ps[i].role == PlotRole then s else r.value;
      var calls := PipelineTrace([ps[i]], s, prepare, execute);
      var rest := PipelineTrace(ps[i + 1..], next, prepare, execute);
      assert trace + (calls + rest) == (trace + calls) + rest;
    }
  }

  /**
   * The execution loop: one `PlotData` object is threaded through input and analysis
   * processors; each plot processor gets a fresh copy.
   */
  method ExecuteProcessors(ps: seq<Processor>, initial: PlotState, prepare: Step, execute: Step)
    returns (outcome: Result<PlotState>, trace: seq<Call>)
    ensures outcome == Pipeline(ps, initial, prepare, execute)
    ensures trace == PipelineTrace(ps, initial, prepare, execute)
  {
    var plotData := new PlotData(initial);
    trace := [];
    for i := 0 to |ps|
      invariant fresh(plotData)
      invariant Reached(ps, initial, prepare, execute, i, trace, plotData.State())
    {
      ReachedStep(ps, initial, prepare, execute, i, trace, plotData.State());
      var r, calls, next := RunProcessor(plotData, ps[i], prepare, execute);
      trace := trace + calls;
      if r.Err? {
        return r, trace;
      }
      plotData := next;
    }
    assert ps[|ps|..] == [];
    outcome := Ok(plotData.State());
  }

  // ---------------------------------------------------------------------------
  // The orchestrator object

  class HarryCore {
    var availableProcessors: map<string, Processor>
    var processors: seq<Processor>

    constructor (userProcessors: Option<map<string, Processor>>)
      ensures availableProcessors == InitialRegistry(userProcessors)
      ensures processors == []
    {
      availableProcessors := BuiltinProcessors() + (if userProcessors.Some? then userProcessors.value else map[]);
      processors := [];
    }

    /** Adds or overwrites exactly one registry entry. */
    method RegisterProcessor(name: string, processor: Processor)
      modifies this
      ensures availableProcessors == old(availableProcessors)[name := processor]
      ensures processors == old(processors)
    {
      availableProcessors := availableProcessors[name := processor];
    }

    /**
     * One run: apply the JSON defaults, resolve the processors, let each extend the
     * parser in order, export the re-parsed arguments `parsed` if asked to, then run
     * every processor in order.  Returns what was exported and the calls made.
     */
    method Run(args: Dict, jsonDefaults: Dict, defaultInput: string, defaultPlot: string,
               parsed: Dict, prepare: Step, execute: Step)
      returns (outcome: Result<Export>, trace: seq<Call>)
      requires "json_defaults" in args && ResolvableArgs(args)
      requires "export_json" in parsed
      modifies this
      ensures availableProcessors == old(availableProcessors)
      ensures var res := Resolve(old(availableProcessors), WithJsonDefaults(args, jsonDefaults), defaultInput, defaultPlot);
              && (res.Err? ==> outcome == Err(res.failure) && trace == [])
              && (res.Ok? ==> processors == res.value.Processors())
              && (res.Ok? && ExportPlan(parsed).Err? ==> outcome == Err(ExportPlan(parsed).failure) && trace == ParserCalls(processors))
              && (res.Ok? && ExportPlan(parsed).Ok? ==>
                    var run := Pipeline(processors, PlotState(parsed, map[]), prepare, execute);
                    && trace == ParserCalls(processors) + PipelineTrace(processors, PlotState(parsed, map[]), prepare, execute)
                    && (run.Ok? ==> outcome == ExportPlan(parsed))
                    && (run.Err? ==> outcome == Err(run.failure)))
    {
      var a := args;
      var jsonDefaultInitialisation := a["json_defaults"];
      if jsonDefaultInitialisation != VNone {
        a := MergeJsonDefaults(a, jsonDefaults);
        a := a["json_defaults" := jsonDefaultInitialisation];
      }
      processors := [];
      trace := [];
      var resolution := Resolve(availableProcessors, a, defaultInput, defaultPlot);
      if resolution.Err? {
        return Err(resolution.failure), trace;
      }
      var chosen := [resolution.value.input] + resolution.value.analysis + resolution.value.plots;
      processors := chosen;
      trace := ModifyParsers(chosen);
      var plan := ExportPlan(parsed);
      if plan.Err? {
        return Err(plan.failure), trace;
      }
      var run, calls := ExecuteProcessors(chosen, PlotState(parsed, map[]), prepare, execute);
      trace := trace + calls;
      if run.Err? {
        return Err(run.failure), trace;
      }
      outcome := plan;
    }
  }

  /** `modify_argument_parser` on every processor, in processor order. */
  function ParserCalls(ps: seq<Processor>): (r: seq<Call>)
    ensures |r| == |ps|
    ensures forall i :: 0 <= i < |ps| ==> r[i] == ModifyParser(ps[i].name)
  {
    seq(|ps|, i requires 0 <= i < |ps| => ModifyParser(ps[i].name))
  }

  lemma ParserCallsAppend(ps: seq<Processor>, p: Processor)
    ensures ParserCalls(ps + [p]) == ParserCalls(ps) + [ModifyParser(p.name)]
  {
  }

  /** The loop letting each processor extend the argument parser, in order. */
  method ModifyParsers(ps: seq<Processor>) returns (trace: seq<Call>)
    ensures trace == ParserCalls(ps)
  {
    trace := [];
    for i := 0 to |ps|
      invariant trace == ParserCalls(ps[..i])
    {
      assert ps[..i + 1] == ps[..i] + [ps[i]];
      ParserCallsAppend(ps[..i], ps[i]);
      trace := trace + [ModifyParser(ps[i].name)];
    }
    assert ps[..|ps|] == ps;
  }
}
