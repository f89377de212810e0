# HarryPlotter core bookkeeping, modelled in Dafny

HarryPlotter is a plotting framework on top of ROOT. A run goes through these steps:

- `HarryCore` resolves one input module, any number of analysis modules and at least one plot module from a registry of processors.
- It merges JSON defaults into the parsed arguments and optionally exports the arguments.
- It calls every processor's `prepare_args` and `run`, one processor after the other, on a shared `PlotData`.
- `PlotData` holds the argument dictionary `plotdict` and the object store `root_objects`.
- Input and analysis processors pass their changes on. Each plot processor works on a deep copy.

Below the ROOT calls, every processor does deterministic bookkeeping on `plotdict` lists and on `root_objects`. This project models that bookkeeping and proves what it guarantees. It covers:

- the orchestrator (`Core`);
- the ROOT plot module's defaults, draw options and legend entries (`PlotRoot`);
- contour nick expansion, graph insertion and the boundary-bin copy (`ContourFromHistogram`);
- function plots and fits (`FunctionPlot`);
- the two `ProjectByFit` modules (`ProjectByFitClipl`, `ProjectByFitHarry`);
- file resolution of the input module (`InputFile`);
- the expression and label dictionaries (`Expressions`, `Labels`).

Shared definitions:

- `Wrappers` holds `Option`, `Result` and the failures a run can end with:
  - `Exit(status)` for `sys.exit`;
  - `KeyError`, `ValueError`, `TypeError`, `IndexError`, `AttributeError`, `NameError`, `UnboundLocalError`.
- `PyValues` holds the dynamic Python values of `plotdict`, opaque ROOT objects, the plot state and the `PlotData` class.
- `Strings` holds the string operations the source relies on: `split`, `join`, `replace`, `startswith`, `in`, `upper`/`lower`.

Code that mutates state is modelled as methods:

- Methods on `PlotData` rewrite `plotdict` and `root_objects` in place.
- The boundary-bin copy works on three-dimensional arrays.
- `ExpressionsDict`, `LabelsDict` and `HarryCore` are classes.

Each method is proved equal to a specification function. The lemmas state the source's promises about that function.

Several places in the source behave differently from what their authors evidently meant. In each case the operation takes a `Variant` argument: `AsWritten` models the code as written, and `Corrected` the evident intent. A lemma shows the difference. `FunctionPlot.Run` follows the corrected behaviour. `ProjectByFitHarry.Run` and `ExpressionsDict.GetExpression` take the variant as an argument and model both. The cases are listed under "## Findings".

## Model

| member | source | states |
|---|---|---|
| Core.BuiltinProcessors | HarryPlotter/python/core.py:52-73 | every built-in processor is registered under its own name; InputRoot is an input and PlotRoot a plot processor |
| Core.InitialRegistry | HarryPlotter/python/core.py:49-74 | the registry holds the built-in names and the user's names; a user processor replaces a built-in of the same name; other built-ins are kept |
| Core.HarryCore.constructor | HarryPlotter/python/core.py:46-75 | a new orchestrator has the initial registry and no processors |
| Core.HarryCore.RegisterProcessor | HarryPlotter/python/core.py:178-179 | exactly one registry entry is added or overwritten, nothing else changes |
| Core.Registered | HarryPlotter/python/core.py:104-106 | a name is selected exactly when it was requested and is registered with the wanted role |
| Core.Unregistered | HarryPlotter/python/core.py:109-111 | a name is reported missing exactly when it was requested and is not registered with the wanted role |
| Core.PartitionRoundTrip | HarryPlotter/python/core.py:104-130 | selected and missing names together have the request's length, and interleaving them back by the role test gives the request in order |
| Core.NameList | HarryPlotter/python/core.py:104 | a module request is usable exactly when it is a list of strings, and then it gives those strings in order |
| Core.ResolutionShape | HarryPlotter/python/core.py:95-126 | the input slot is the registered requested name, whatever its role, or else the default; all analysis slots have the analysis role; at least one plot processor follows, and either all plot slots have the plot role or the default plot module stands alone |
| Core.NoAnalysisRequested | HarryPlotter/python/core.py:101-102 | a `None` analysis request is an empty list: no analysis processors and none missing |
| Core.SinglePlotString | HarryPlotter/python/core.py:118-119 | a single plot-module string is a one-element request |
| Core.NoPlotRequestFails | HarryPlotter/python/core.py:120 | a `None` plot request cannot be iterated and the run fails |
| Core.MergeJsonDefaults | HarryPlotter/python/core.py:86 | the merge adds the JSON keys that are not `None`; a key that is set and not `None` keeps its value; a key missing or `None` in the arguments takes its JSON value when that is not `None`; every changed key takes its non-`None` JSON value |
| Core.MergeIdempotent | HarryPlotter/python/core.py:86 | merging the same defaults twice gives the same result as merging them once |
| Core.RestoreIsRedundant | HarryPlotter/python/core.py:89-90 | putting `json_defaults` back after the merge changes nothing, because the merge keeps it |
| Core.ExportPlan | HarryPlotter/python/core.py:153-166 | no export without `export_json`; a missing excluded key fails with KeyError; an export holds every argument except exactly `quantities`, `export_json`, `live` and `json_defaults`, with unchanged values; a non-empty `export_json` is the file name; an empty one takes `json_defaults[0]`, whose failure is the plan's failure; the plan is "no file name" exactly when that item is `None` |
| Core.CompleteRunOrder | HarryPlotter/python/core.py:169-172 | in a run that completes, the calls are `prepare_args` and then `run` of each processor, one processor after the other |
| Core.PlotIsolation | HarryPlotter/python/core.py:169-174 | in a run that completes, the state is what the input and analysis processors alone make of it; plot processors never affect it |
| Core.RunProcessor | HarryPlotter/python/core.py:170-174 | a plot processor works on a fresh copy and leaves `plotData` as it was; any other processor leaves its result in `plotData`, which the next one receives |
| Core.ExecuteProcessors | HarryPlotter/python/core.py:169-174 | the loop with its deep copies returns the pipeline's state or first failure, and its call trace |
| Core.HarryCore.Run | HarryPlotter/python/core.py:77-176 | defaults are merged; on a resolution failure nothing runs; otherwise the processor list is the resolution and the parser calls follow its order; a failing export plan stops the run after the parser calls; otherwise the pipeline's calls and outcome follow |
| Core.ModifyParsers | HarryPlotter/python/core.py:137-138 | the parser loop calls `modify_argument_parser` of every processor once, in processor order |
| Core.ParserCalls | HarryPlotter/python/core.py:137-138 | `modify_argument_parser` is called once per processor, in processor order |
| PyValues.ZipKeysColumns | HarryPlotter/python/analysis_modules/functionplot.py:66-72 | a successful `zip` found and iterated every list, stops at the shortest, and row i holds item i of each |
| PyValues.OccursOnce | HarryPlotter/python/plot_modules/plotroot.py:106 | `stacks.count(stack) == 1` holds exactly when no other position has the same stack |
| PyValues.InsertBeforeRoundTrip | clipl/analysis_modules/contourfromhistogram.py:111 | removing the inserted nick gives back the list, and the nick occurs once more than before |
| PlotRoot.NumItems | HarryPlotter/python/plot_modules/plotroot.py:80 | the item count is the greater length of `nicks` and `stacks`, skipping a `None` one; with both `None` it fails |
| PlotRoot.DefaultColors | HarryPlotter/python/plot_modules/plotroot.py:84-95 | a `None` colour at index i becomes i+1, a colour name its resolved index, and anything else fails; the length is kept |
| PlotRoot.ColorsAreIndices | HarryPlotter/python/plot_modules/plotroot.py:84-95 | after the defaults every colour is an integer index |
| PlotRoot.PrepareColors | HarryPlotter/python/plot_modules/plotroot.py:84-95 | the in-place loop writes exactly the default colours and changes nothing else |
| PlotRoot.MarkerDefaultRule | HarryPlotter/python/plot_modules/plotroot.py:102-106 | an unset marker at index 0 is "E" with several markers and "HIST" with one; later it is "LINE" exactly when its stack occurs once, else "HIST" |
| PlotRoot.EffectiveMarker | HarryPlotter/python/plot_modules/plotroot.py:102-106 | a marker slot is never left unset |
| PlotRoot.DefaultMarkersAndFills | HarryPlotter/python/plot_modules/plotroot.py:99-120 | the lengths are kept and slots beyond the zip are untouched; every visited slot is set; a given fill style keeps the marker (defaulted if unset) and the fill; it fails exactly when an unset fill meets a non-string marker |
| PlotRoot.FillStyleRule | HarryPlotter/python/plot_modules/plotroot.py:109-117 | an unset fill style becomes 1001 exactly for HIST; otherwise for LINE it becomes 0, with the marker upper-cased and LINE replaced by HIST; otherwise 3003 exactly for E; outside the LINE rewrite the marker is kept; the tests ignore case |
| PlotRoot.MarkerDefaultsIdempotent | HarryPlotter/python/plot_modules/plotroot.py:99-120 | applying the marker and fill defaults again changes nothing |
| PlotRoot.MarkerFillAt | HarryPlotter/python/plot_modules/plotroot.py:102-117 | one slot gets its defaulted marker and fill style; it fails exactly when the fill style is unset and the marker is not a string |
| PlotRoot.PrepareMarkers | HarryPlotter/python/plot_modules/plotroot.py:99-120 | the in-place loop writes exactly the defaulted markers and fill styles |
| PlotRoot.Distinct | HarryPlotter/python/plot_modules/plotroot.py:123 | `set(...)` keeps exactly the names of the list, each once |
| PlotRoot.SplitAll | HarryPlotter/python/plot_modules/plotroot.py:124 | each error-band entry is split into its whitespace-separated words |
| PlotRoot.SplitAllStrings | HarryPlotter/python/plot_modules/plotroot.py:124 | a list of strings can always be split |
| PlotRoot.ErrbandValidation | HarryPlotter/python/plot_modules/plotroot.py:124-129 | accepted error-band names all occur in `stacks`; a name that does not ends the process with status 1 |
| PlotRoot.DefaultErrbandPasses | HarryPlotter/python/plot_modules/plotroot.py:123-129 | the default is one group holding each name of `stacks[1:]` once, and it passes the check |
| PlotRoot.GroupIsStacked | HarryPlotter/python/plot_modules/plotroot.py:123 | every name of the default group is a stack |
| PlotRoot.CheckErrbandNames | HarryPlotter/python/plot_modules/plotroot.py:125-129 | the nested membership loop accepts exactly when every name is a stack |
| PlotRoot.PadLegend | HarryPlotter/python/plot_modules/plotroot.py:132-134 | a `None` legend stays `None`; a list becomes exactly four entries: the user's first values, then 0.6, 0.6, 0.9, 0.9 from its length on |
| PlotRoot.PreparedGuarantees | HarryPlotter/python/plot_modules/plotroot.py:74-134 | after `prepare_args`: every colour is an index, every visited marker and fill slot is set, and the legend is `None` or four entries |
| PlotRoot.PrepareArgs | HarryPlotter/python/plot_modules/plotroot.py:74-134 | the method's new dictionary is the specification's, and the object store is unchanged |
| PlotRoot.SameUnlessFirstOnPad | HarryPlotter/python/plot_modules/plotroot.py:251-266 | with boolean subplot flags, " SAME" is appended exactly when an earlier plot went to the same pad |
| PlotRoot.MakePlots | HarryPlotter/python/plot_modules/plotroot.py:241-280 | the loop with its two pad counters produces the specified draws |
| PlotRoot.LegendOption | HarryPlotter/python/plot_modules/plotroot.py:420 | the option is "LP" exactly when the marker holds an 'e' in either case, otherwise "F" |
| PlotRoot.KeptIndices | HarryPlotter/python/plot_modules/plotroot.py:415-419 | only rows on the plot pad whose label is neither `None` nor empty are listed |
| PlotRoot.KeptIndicesComplete | HarryPlotter/python/plot_modules/plotroot.py:415-419 | every row on the plot pad with a label that is neither `None` nor empty is listed |
| PlotRoot.KeptIndicesIncreasing | HarryPlotter/python/plot_modules/plotroot.py:415-419 | the listed indices increase, so the rows keep their order |
| PlotRoot.LegendEntriesOfKeptRows | HarryPlotter/python/plot_modules/plotroot.py:409-420 | one legend entry per kept row among the rows `zip` yields (the shortest of the four lists decides), in order, with the row's object, label and option |
| PlotRoot.ZipLength | HarryPlotter/python/plot_modules/plotroot.py:409-414 | the number of zipped rows is the shortest of the four lengths |
| PlotRoot.AddLabels | HarryPlotter/python/plot_modules/plotroot.py:405-421 | no legend for a `None` position; otherwise the specified entries |
| ContourFromHistogram.Thresholds | clipl/analysis_modules/contourfromhistogram.py:51 | a threshold string gives one number per whitespace-separated word; a non-string fails |
| ContourFromHistogram.PadNicks | clipl/analysis_modules/contourfromhistogram.py:58 | exactly one nick per threshold: the given nicks, then copies of the first |
| ContourFromHistogram.ExpandNicks | clipl/analysis_modules/contourfromhistogram.py:57-59 | the expanded list has one nick per threshold |
| ContourFromHistogram.GraphNicks | clipl/analysis_modules/contourfromhistogram.py:54-59 | a histogram gets exactly as many graph nicks as thresholds |
| ContourFromHistogram.SuffixedInjective | clipl/analysis_modules/contourfromhistogram.py:59 | different indices give different "_i" suffixes |
| ContourFromHistogram.ExpandAllNicks | clipl/analysis_modules/contourfromhistogram.py:57-59 | one nick for several thresholds: every entry, index 0 included, gets "_i", so all entries differ |
| ContourFromHistogram.KeptNicks | clipl/analysis_modules/contourfromhistogram.py:58-59 | otherwise the first nick is kept, a later one equal to the first gets "_i", the others are kept, and the padding copies get "_i" |
| ContourFromHistogram.DefaultGraphNick | clipl/analysis_modules/contourfromhistogram.py:54-56 | without a nick argument the graphs are named "contour_" + histogram nick |
| ContourFromHistogram.PrepareEntry | clipl/analysis_modules/contourfromhistogram.py:50-60 | one entry's thresholds and graph nicks are written in place with equal lengths, and every other slot and key is kept |
| ContourFromHistogram.EntryJustPrepared | clipl/analysis_modules/contourfromhistogram.py:51-60 | after its step an entry has one number per threshold word and as many graph nicks |
| ContourFromHistogram.PreparedEntries | clipl/analysis_modules/contourfromhistogram.py:50-60 | after a successful loop every entry is expanded |
| ContourFromHistogram.LaterEntriesKept | clipl/analysis_modules/contourfromhistogram.py:50-60 | later steps never touch earlier entries, and the list lengths are kept |
| ContourFromHistogram.PrepareArgs | clipl/analysis_modules/contourfromhistogram.py:46-62 | the in-place loop gives the specified dictionary and leaves the store unchanged |
| ContourFromHistogram.AddSingleGraph | clipl/analysis_modules/contourfromhistogram.py:106-115 | the graph's clone is stored under its nick, and no plot-dictionary key is added |
| ContourFromHistogram.SingleGraphNoDuplicate | clipl/analysis_modules/contourfromhistogram.py:110-111 | a single graph's nick ends up in `nicks`; it is inserted only if absent, and then occurs exactly once |
| ContourFromHistogram.AddMergedGraph | clipl/analysis_modules/contourfromhistogram.py:127-134 | the merged graph is stored under the graph nick |
| ContourFromHistogram.MergedGraphAlwaysInserted | clipl/analysis_modules/contourfromhistogram.py:133-134 | a merged graph's nick is inserted every time, right before the first occurrence of the histogram nick |
| ContourFromHistogram.EmptyLevelSkipped | clipl/analysis_modules/contourfromhistogram.py:101-103 | a level without graphs changes nothing |
| ContourFromHistogram.OneGraphKeepsNick | clipl/analysis_modules/contourfromhistogram.py:105-115 | a level with one graph stores it under the graph nick itself, in any mode |
| ContourFromHistogram.HistogramModeAddsNoGraphs | clipl/analysis_modules/contourfromhistogram.py:75-86 | "histogram" mode, in any case, leaves `plotdict` unchanged and stores at most the minimum graph |
| ContourFromHistogram.SingleGraphsStep | clipl/analysis_modules/contourfromhistogram.py:106-115 | each graph of a level is named with "_g" only when there are several |
| ContourFromHistogram.AddSingleGraphInPlace | clipl/analysis_modules/contourfromhistogram.py:110-115 | one graph is handled in place: its nick is inserted before the histogram's unless present, and its clone is stored |
| ContourFromHistogram.AddSingleGraphs | clipl/analysis_modules/contourfromhistogram.py:106-116 | the graph loop of one level gives the specified state |
| ContourFromHistogram.AddLevels | clipl/analysis_modules/contourfromhistogram.py:98-135 | the level loop of one histogram gives the specified state |
| ContourFromHistogram.ZipEntries | clipl/analysis_modules/contourfromhistogram.py:66 | all five lists are looked up before any is iterated; entry i holds item i of each list, in argument order |
| ContourFromHistogram.RunEntries | clipl/analysis_modules/contourfromhistogram.py:67-135 | the loop, in place, gives the specified plot state: each entry applied to the state the previous one left, the first failure stopping it |
| ContourFromHistogram.Run | clipl/analysis_modules/contourfromhistogram.py:64-135 | `run` gives the specified state |
| ContourFromHistogram.ClampInterior | clipl/analysis_modules/contourfromhistogram.py:163-168 | the bin copied from is interior; clamping twice equals clamping once; an interior bin is its own source |
| ContourFromHistogram.CopyColumn | clipl/analysis_modules/contourfromhistogram.py:167-174 | one column copies its clamped source bins; every other bin is unchanged |
| ContourFromHistogram.CopyPlane | clipl/analysis_modules/contourfromhistogram.py:165-174 | one plane copies its clamped source bins; every other bin is unchanged |
| ContourFromHistogram.ClampBins | clipl/analysis_modules/contourfromhistogram.py:162-174 | every bin of one array ends with the old value of its clamped bin, whatever order the loops copy in |
| ContourFromHistogram.ManipulateBoundaryBins | clipl/analysis_modules/contourfromhistogram.py:162-174 | every bin ends with the old content and error of its clamped bin; so interior bins keep theirs, and the result does not depend on loop order |
| FunctionPlot.DerivedRange | HarryPlotter/python/analysis_modules/functionplot.py:38-43 | the derived range fails with ValueError exactly for an empty store |
| FunctionPlot.DerivedRangeBounds | HarryPlotter/python/analysis_modules/functionplot.py:38-43 | the derived range is the least lower edge and the least (not greatest) upper edge of the stored objects |
| FunctionPlot.SeqMin | HarryPlotter/python/analysis_modules/functionplot.py:43 | `min` returns an element no greater than any other |
| FunctionPlot.RangeOfEdges | HarryPlotter/python/analysis_modules/functionplot.py:38-43 | lists holding exactly the stored lower and upper edges have the derived range as their minima |
| FunctionPlot.DeriveRange | HarryPlotter/python/analysis_modules/functionplot.py:38-43 | the collecting loop followed by the two minima gives the derived range |
| FunctionPlot.RangeFor | HarryPlotter/python/analysis_modules/functionplot.py:32-48 | an explicit range gives one value per comma-separated part |
| FunctionPlot.RangePrecedence | HarryPlotter/python/analysis_modules/functionplot.py:32-48 | an explicit string comes first, then `x_lims`, then the range derived from the store; any other value fails |
| FunctionPlot.Nicknames | HarryPlotter/python/analysis_modules/functionplot.py:51 | a given nickname is kept, and an unset one at index i becomes "function_nick<i>" |
| FunctionPlot.NicknamesSet | HarryPlotter/python/analysis_modules/functionplot.py:51 | no nickname is left unset, and generated nicknames differ from each other |
| FunctionPlot.ParamsFor | HarryPlotter/python/analysis_modules/functionplot.py:56 | a parameter argument that is not a string fails |
| FunctionPlot.ParameterCount | HarryPlotter/python/analysis_modules/functionplot.py:54-57 | a parameter string gives one value more than it has commas |
| FunctionPlot.PreparedGuarantees | HarryPlotter/python/analysis_modules/functionplot.py:28-57 | after `prepare_args` the nicknames are set and appended in order after the old `nicks`; position i of the ranges holds the range rule applied to the old entry i, and position i of the parameters the parsed old entry i, with commas+1 values |
| FunctionPlot.PrepareRanges | HarryPlotter/python/analysis_modules/functionplot.py:31-49 | the range loop maps every range by the precedence rule, stopping at the first failure |
| FunctionPlot.PrepareParameters | HarryPlotter/python/analysis_modules/functionplot.py:54-57 | the parameter loop parses every parameter string, stopping at the first failure |
| FunctionPlot.PrepareArgs | HarryPlotter/python/analysis_modules/functionplot.py:28-59 | the method's new dictionary is the specification's, and the store is unchanged |
| FunctionPlot.StartParameters | HarryPlotter/python/analysis_modules/functionplot.py:113-114 | exactly the first `GetNpar()` start parameters are set, and too few of them fail |
| FunctionPlot.RootFit | HarryPlotter/python/analysis_modules/functionplot.py:110-116 | as written, a ROOT fit without a histogram always fails |
| FunctionPlot.RooFit | HarryPlotter/python/analysis_modules/functionplot.py:119-152 | a RooFit fit succeeds exactly with a histogram, nine start parameters and one of voigtian, breitwiegner, gaus; another name exits with status 0 |
| FunctionPlot.CreateFunction | HarryPlotter/python/analysis_modules/functionplot.py:86-100 | a backend other than ROOT and RooFit exits with status 0 |
| FunctionPlot.Bounds | HarryPlotter/python/analysis_modules/functionplot.py:77 | the first two range values, when there are two |
| FunctionPlot.EntryStep | HarryPlotter/python/analysis_modules/functionplot.py:75-83 | one entry stores one object, under its nick: the keys gain at most that nick, and every other key keeps its object |
| FunctionPlot.PlainUnlessFitNickStored | HarryPlotter/python/analysis_modules/functionplot.py:82-83 | without a stored fit nick the function is plain, whatever its backend |
| FunctionPlot.FittedWhenFitNickStored | HarryPlotter/python/analysis_modules/functionplot.py:75-81 | with a stored fit nick and the ROOT backend, the function is fitted to that object |
| FunctionPlot.EveryNickStored | HarryPlotter/python/analysis_modules/functionplot.py:68-83 | `run` stores an object under every function nick, keeps every old key and adds no other key; a key that no function nick names keeps its object |
| FunctionPlot.MissingFunctionsDiscrepancy | HarryPlotter/python/analysis_modules/functionplot.py:64-66 | without functions, the code as written fails with NameError on `os`; corrected, it exits with status 1 |
| FunctionPlot.PlainFunctionDiscrepancy | HarryPlotter/python/analysis_modules/functionplot.py:110-116 | a plain function fails with AttributeError as written; corrected, it is stored under its nick |
| FunctionPlot.ZipEntries | HarryPlotter/python/analysis_modules/functionplot.py:66-72 | all six lists are looked up before any is iterated; entry i holds item i of each list, in argument order |
| FunctionPlot.StoreEntries | HarryPlotter/python/analysis_modules/functionplot.py:73-83 | the entry loop, in place, gives the specified store, and `plotdict` is unchanged |
| FunctionPlot.Run | HarryPlotter/python/analysis_modules/functionplot.py:62-83 | the entry loop writes the corrected specification's store and leaves `plotdict` unchanged |
| ProjectByFitClipl.CleanFitRange | clipl/analysis_modules/projectbyfit.py:70 | `None` stays `None`; a string loses its backslashes; any other value fails |
| ProjectByFitClipl.CleanFitRangeIdempotent | clipl/analysis_modules/projectbyfit.py:70 | a cleaned range holds no backslash, and cleaning it again changes nothing |
| ProjectByFitClipl.CleanFitRanges | clipl/analysis_modules/projectbyfit.py:70 | the length is kept and `None` entries stay `None` |
| ProjectByFitClipl.DefaultResultNick | clipl/analysis_modules/projectbyfit.py:74 | the default result nick is "projection_result_nicks_" + input nick; a non-string input nick fails |
| ProjectByFitClipl.ResultNickStepAppends | clipl/analysis_modules/projectbyfit.py:72-77 | one step leaves `nicks` unchanged or appends one nick that was absent, so no duplicate appears |
| ProjectByFitClipl.ResultNicksKeepPrefix | clipl/analysis_modules/projectbyfit.py:72-77 | the loop only appends to `nicks` and adds no duplicate |
| ProjectByFitClipl.PreparedNicks | clipl/analysis_modules/projectbyfit.py:63-77 | after `prepare_args` a duplicate-free `nicks` is still duplicate-free and starts with the old nicks |
| ProjectByFitClipl.DefaultResultNickWritten | clipl/analysis_modules/projectbyfit.py:73-74 | an unset result nick is replaced in place by the default |
| ProjectByFitClipl.DefaultResultNickInPlace | clipl/analysis_modules/projectbyfit.py:73-74 | an unset result nick is set in place to the default; a set one is kept |
| ProjectByFitClipl.AppendResultNickInPlace | clipl/analysis_modules/projectbyfit.py:76-77 | the result nick is appended to `nicks` in place exactly when it is absent and `not_override` holds |
| ProjectByFitClipl.ResultNickInPlace | clipl/analysis_modules/projectbyfit.py:73-77 | one turn of the loop, on the dictionary in place, gives the specified step |
| ProjectByFitClipl.ResultNicksInPlace | clipl/analysis_modules/projectbyfit.py:72-77 | the whole loop, on the dictionary in place, gives the specified dictionary |
| ProjectByFitClipl.PrepareArgs | clipl/analysis_modules/projectbyfit.py:63-77 | the method's new dictionary is the specification's, and the store is unchanged |
| ProjectByFitClipl.FitRange | clipl/analysis_modules/projectbyfit.py:110-118 | a given range uses its first two comma-separated values; otherwise the Y axis, or the Z axis for FitSlicesZ |
| ProjectByFitClipl.StartParameters | clipl/analysis_modules/projectbyfit.py:119 | one start parameter per comma-separated part |
| ProjectByFitClipl.Fitted | clipl/analysis_modules/projectbyfit.py:102-142 | a fit happens only for a stored TH3 (FitSlicesZ) or TH2 input and the ROOT or RooFit backend; a nick not in the store fails as the lookup does; a stored input of the wrong class exits with status 1 |
| ProjectByFitClipl.SelectionRule | clipl/analysis_modules/projectbyfit.py:122-137 | with ROOT, an all-digit selection reads that one slice, otherwise all slices are combined; the fit option reaches the fit unchanged |
| ProjectByFitClipl.UnknownBackendExits | clipl/analysis_modules/projectbyfit.py:140-142 | any other backend exits with status 1 |
| ProjectByFitClipl.ResultKey | clipl/analysis_modules/projectbyfit.py:144-147 | the result key is the result nick with not-override set, else the input nick |
| ProjectByFitClipl.LaterEntryWins | clipl/analysis_modules/projectbyfit.py:84-147 | each key holds the fit of the last entry writing it, computed on the pre-run store; keys no entry writes keep their value |
| ProjectByFitClipl.Projections | clipl/analysis_modules/projectbyfit.py:84-100 | the zip succeeds exactly when all fifteen lists can be looked up and iterated; entry i holds item i of each list, each in the field named after it |
| ProjectByFitClipl.RunUpdatesStore | clipl/analysis_modules/projectbyfit.py:82-149 | the store after `run` is the old store updated by the results; the last writer wins; untouched keys keep their object |
| ProjectByFitClipl.UpdateKeeps | clipl/analysis_modules/projectbyfit.py:149 | `update` takes the new value for every result key and keeps the others |
| ProjectByFitClipl.ResultKeysWritten | clipl/analysis_modules/projectbyfit.py:144-147 | results exist only under keys that some entry writes |
| ProjectByFitClipl.CollectResults | clipl/analysis_modules/projectbyfit.py:84-147 | the loop gives the specified results: each entry fitted and filed under its result key, later entries overwriting earlier ones, the first failure stopping it |
| ProjectByFitClipl.Run | clipl/analysis_modules/projectbyfit.py:79-149 | the store is written once, after the loop, as specified; `plotdict` is unchanged |
| ProjectByFitHarry.Prepared | HarryPlotter/python/analysis_modules/projectbyfit.py:41 | only `projection_fit_range` changes: same length, `None` kept, strings lose their backslashes |
| ProjectByFitHarry.PreparedRejectsNonString | HarryPlotter/python/analysis_modules/projectbyfit.py:41 | a fit range that is neither `None` nor a string fails |
| ProjectByFitHarry.PrepareArgs | HarryPlotter/python/analysis_modules/projectbyfit.py:36-41 | the method's new dictionary is the specification's, and the store is unchanged |
| ProjectByFitHarry.Projections | HarryPlotter/python/analysis_modules/projectbyfit.py:48-53 | entry i holds item i of each of the six lists, each in the field named after it |
| ProjectByFitHarry.Fitted | HarryPlotter/python/analysis_modules/projectbyfit.py:55-74 | a result exists only for a stored TH2 input; a nick not in the store fails as the lookup does; a stored input that is not a TH2 exits with status 1 |
| ProjectByFitHarry.DeleteAllSpec | HarryPlotter/python/analysis_modules/projectbyfit.py:79-80 | the deletions succeed exactly when every nick is stored and none is listed twice; they then remove exactly those keys |
| ProjectByFitHarry.DeleteAllFailure | HarryPlotter/python/analysis_modules/projectbyfit.py:80 | a failed deletion is a KeyError |
| ProjectByFitHarry.AccumulateFits | HarryPlotter/python/analysis_modules/projectbyfit.py:46-77 | the entry loop gives the specified results, nick list and last fit, or its first failure |
| ProjectByFitHarry.DeleteNicks | HarryPlotter/python/analysis_modules/projectbyfit.py:79-80 | the deletions in place give the specified store, and `plotdict` is unchanged |
| ProjectByFitHarry.FittedIgnoresLast | HarryPlotter/python/analysis_modules/projectbyfit.py:55-74 | with the corrected backend check, an entry's fit does not depend on the previous entry's |
| ProjectByFitHarry.AccFromNicks | HarryPlotter/python/analysis_modules/projectbyfit.py:48-77 | the loop lists every entry's nick in order, and each is a stored key |
| ProjectByFitHarry.AccFromResultKeys | HarryPlotter/python/analysis_modules/projectbyfit.py:76-77 | results are stored under exactly the listed nicks |
| ProjectByFitHarry.AccFromLastWins | HarryPlotter/python/analysis_modules/projectbyfit.py:76 | the result under a nick is the fit of the last entry with that nick |
| ProjectByFitHarry.AccFromKeeps | HarryPlotter/python/analysis_modules/projectbyfit.py:76 | a nick no later entry processes keeps its result |
| ProjectByFitHarry.RunNeedsDistinctNicks | HarryPlotter/python/analysis_modules/projectbyfit.py:79-80 | once the loop succeeds, `run` succeeds exactly when the processed nicks are distinct; a nick listed twice fails with KeyError |
| ProjectByFitHarry.RunReplaces | HarryPlotter/python/analysis_modules/projectbyfit.py:76-81 | after `run` the store has the same keys; every processed nick holds its result, and every other entry is untouched |
| ProjectByFitHarry.StaleResultDiscrepancy | HarryPlotter/python/analysis_modules/projectbyfit.py:68-77 | with an unknown backend, the code as written stores the previous entry's result, or fails on an unbound name for the first entry; corrected, it exits with status 1 |
| ProjectByFitHarry.Run | HarryPlotter/python/analysis_modules/projectbyfit.py:43-81 | the loop, the deletions and the update give the specified store; `plotdict` is unchanged |
| InputFile.Flatten | HarryPlotter/python/input_modules/inputfile.py:51 | the extended list holds exactly the files of the glob results |
| InputFile.FlattenSnoc | HarryPlotter/python/input_modules/inputfile.py:51 | each glob result is appended after the earlier ones, so argument order is kept |
| InputFile.PathFor | HarryPlotter/python/input_modules/inputfile.py:50 | a part is joined with the directory only when the directory is non-empty; an absolute part is returned as it is, whatever the directory; a relative part with a non-string directory fails with AttributeError |
| InputFile.Patterns | HarryPlotter/python/input_modules/inputfile.py:49-50 | each part gives the expanded path, in order |
| InputFile.Resolve | HarryPlotter/python/input_modules/inputfile.py:44-54 | a "root:/" entry resolves to itself alone; a resolved entry is never empty; a non-string entry fails |
| InputFile.ResolveGlobs | HarryPlotter/python/input_modules/inputfile.py:49-54 | another entry resolves exactly to the files its patterns match; with no match the process exits with status 1 |
| InputFile.FlattenEmpty | HarryPlotter/python/input_modules/inputfile.py:51-52 | the extended file list is empty exactly when every glob matched nothing |
| InputFile.GlobParts | HarryPlotter/python/input_modules/inputfile.py:49-51 | the loop over the parts globs each expanded path, in order, and extends the files with what it matches |
| InputFile.ResolveEntry | HarryPlotter/python/input_modules/inputfile.py:40-55 | one entry resolves as specified: a "root:/" URL to itself, otherwise to its globbed parts, exiting when they match nothing |
| InputFile.Prepared | HarryPlotter/python/input_modules/inputfile.py:32-34 | a `None` file list exits with status 1 before any other preparation |
| InputFile.ResolvedKeeps | HarryPlotter/python/input_modules/inputfile.py:39-55 | resolution keeps every other key and the length of `files` |
| InputFile.ResolvedEntries | HarryPlotter/python/input_modules/inputfile.py:39-55 | each zipped entry is replaced by its resolved files; the other entries are kept |
| InputFile.PrepareArgs | HarryPlotter/python/input_modules/inputfile.py:29-55 | the method's new dictionary is the specification's, and the store is unchanged |
| Expressions.ExpressionsDict.constructor | HarryPlotter/python/utility/expressions.py:13-20 | the dictionary holds exactly the additional expressions, or nothing |
| Expressions.ExpressionsDict.GetExpression | HarryPlotter/python/utility/expressions.py:22-23 | as written it always fails with NameError; corrected, it returns the expression stored under the lower-cased name, or the name itself |
| Expressions.ExpressionsDict.ReplaceExpressions | HarryPlotter/python/utility/expressions.py:25-29 | the loop applies every key's substitution in iteration order |
| Expressions.SubstitutedConcat | HarryPlotter/python/utility/expressions.py:27-29 | substituting one sequence of keys and then another is substituting their concatenation |
| Expressions.SubstitutedSingle | HarryPlotter/python/utility/expressions.py:28 | one key replaces all its non-overlapping occurrences by its value |
| Expressions.SubstitutedAbsent | HarryPlotter/python/utility/expressions.py:27-29 | keys that never occur leave the string unchanged |
| Expressions.SubstitutedBySelf | HarryPlotter/python/utility/expressions.py:27-29 | keys mapped to themselves leave the string unchanged |
| Expressions.GetExpressionDiscrepancy | HarryPlotter/python/utility/expressions.py:23 | for every dictionary and name the lookup as written fails, and the corrected one succeeds |
| Expressions.EmptyDictionaryIdentity | HarryPlotter/python/utility/expressions.py:27-29 | with an empty dictionary, substitution is the identity |
| Labels.LabelsDict.constructor | clipl/utility/labels.py:13-27 | the dictionary holds exactly the additional labels, whatever `latex_version` is |
| Labels.LabelsDict.NiceLabel | clipl/utility/labels.py:29-30 | a known label gives its mapped label, and an unknown one is returned unchanged |
| Labels.NiceLabelChanges | clipl/utility/labels.py:29-30 | a label changes only when it is a key, and then into a stored label |
| Labels.NiceLabelIdentity | clipl/utility/labels.py:26-30 | with no additional labels every label is returned unchanged |

## Left out

- ROOT, RooFit and drawing are opaque:
  - Histograms, graphs and fit results are records of the properties the code reads: class name, name, kind and axis edges.
  - FitSlicesY/Z, TF1, the RooFit slice fits (`fitSlicesRooFit`), `postprocess_fits`, "CONT LIST" contour extraction, `merge_graphs`, cloning and the minimum-bin graph are uninterpreted functions given as parameters.
  - Canvases, pads, styles, axis-range tracking in `make_plots`, and `legend.Draw` are not modelled.
- `prepare_list_args` belongs to a base class outside this model. It is a parameter `broadcast`. The only assumption about it is that the named keys hold lists afterwards.
- The `super().prepare_args` and `super().run` calls go to base classes outside this model and are not modelled.
- argparse and the JSON reader (`JsonDict`, includes, comments, `set_defaults`) are inputs:
  - the parsed arguments;
  - the JSON defaults;
  - the arguments re-parsed after `modify_argument_parser`.
- The JSON file write, `ROOT.TH1.SetDefaultSumw2` and `SetBatch` in `HarryCore.run` are not modelled.
- Python's float and int syntax are parameters `parse` and `parseInt`. Float arithmetic and rounding are not modelled; reals stand for floats.
- Colour resolution (`getattr(ROOT, …)`, `TColor.GetColor`, `eval`) is the parameter `resolve` from a colour name to an index. `set_default_ratio_colors` is not modelled.
- `os.path.expandvars` and `glob.glob` are uninterpreted functions in `InputFile.FileSystem`. `os.path.join` is modelled for the POSIX case only.
- The `print` and logging statements are not modelled. This includes the logging-only branches of `projectbyfit.py` at clipl lines 104 and 127: the `translate` result is discarded, so the fit option is passed unchanged (`ProjectByFitClipl.SelectionRule`).
- Python 2 dictionary iteration order is an explicit argument:
  - In `replace_expressions` it is an `order` that lists each key once (`Expressions.IsOrderOf`).
  - The order of `set(...)` in the error-band default is the one fixed order `PlotRoot.Distinct` chooses.
- `ExpressionsDict` and `LabelsDict` are modelled with string keys and values only.
- `root_objects` is a map with string keys. A nick that is not a string fails with TypeError where Python would store or look up under that key. This affects `FunctionPlot.EntryStep`, the result keys of `ProjectByFitClipl` and the contour minimum store.
- `root_objects` is a map and never `None`, so the fatal branch at functionplot.py:44-46 cannot be reached and is not modelled. That branch calls `sys.exit` without importing `sys`.
- `create_tf1`'s formula name (an MD5 hash) and the graph names set by `SetName`/`Clone` are not modelled; graph objects are compared only as values of the uninterpreted functions.
- `_manipulate_bin` is never called and is not modelled.
- `ContourFromHistogram.Run` takes the boundary-bin copy of each histogram as part of the opaque contour function. The copy itself is modelled separately on arrays (`ManipulateBoundaryBins`).
- ContourFromHistogram.ManipulateBoundaryBins: copies every content bin first and then every error bin, where the source copies both for each bin in one loop. Content and error arrays are distinct and only interior bins are read, so the final state is the same.
- InputFile.ResolveGlobs: states which files an entry resolves to, not their order. The order is fixed by `Resolve`'s definition through `Flatten`, whose `FlattenSnoc` lemma shows each glob result being appended after the earlier ones.
- PlotRoot.DefaultMarkersAndFills: "only unset slots change" does not hold for markers. When the fill style is unset, a marker containing LINE is rewritten even if it was given (plotroot.py:113-114). The contract states this behaviour.
- PlotRoot.MakePlots: only the pad, the draw option and the object kind are modelled. Drawing and axis-range tracking are not.

## Findings

| source | as written | input that shows it | evidently intended | confidence | as-written member | corrected member |
|---|---|---|---|---|---|---|
| HarryPlotter/python/utility/expressions.py:23 | `get_expression` looks up `expressions.lower()`, a name defined nowhere, so every call raises NameError | any dictionary and any name | look up `expression.lower()`, falling back to the name | not executed | Expressions.GetExpressionDiscrepancy | Expressions.ExpressionsDict.GetExpression |
| HarryPlotter/python/analysis_modules/functionplot.py:62-64 | without functions, `os.exit(1)` runs but `os` is never imported, so it raises NameError | `functions` is `None` | exit with status 1 | not executed | FunctionPlot.MissingFunctionsDiscrepancy | FunctionPlot.Run |
| HarryPlotter/python/analysis_modules/functionplot.py:115 | a plain function (no stored fit nick) is created through `do_rootfit` with `root_histogram=None`, whose `Fit` call raises AttributeError | an entry whose fit nick is `None` | draw the function without fitting | not executed | FunctionPlot.PlainFunctionDiscrepancy | FunctionPlot.PlainUnlessFitNickStored |
| HarryPlotter/python/analysis_modules/projectbyfit.py:68-76 | a backend other than ROOT and RooFit assigns nothing, so the entry gets the previous entry's fitted histogram, or UnboundLocalError on the first entry | two entries, the second with backend "Minuit" | reject the backend and exit, as the clipl module does | not executed | ProjectByFitHarry.StaleResultDiscrepancy | ProjectByFitHarry.AccFromLastWins |
