/**
 * File-argument resolution of the `InputFile` input module (`prepare_args`): each
 * `files` entry becomes the list of files it names. A `root:/` URL is kept as it
 * is; any other entry is split on whitespace, each part prefixed with its
 * directory, expanded and globbed.
 *
 * Environment-variable expansion and globbing read the environment and the file
 * system, so they are the uninterpreted functions of `FileSystem`.
 */
module InputFile {
  import opened Wrappers
  import opened PyValues
  import opened Strings

  /** `os.path.expandvars` and `glob.glob`. */
  datatype FileSystem = FileSystem(expandVars: string -> string, glob: string -> seq<string>)

  /** All items of `parts`, in order: `files.extend(...)` repeated. */
  function Flatten(parts: seq<seq<string>>): (r: seq<string>)
    ensures forall f :: f in r <==> exists k :: 0 <= k < |parts| && f in parts[k]
  {
    if parts == [] then []
    else
      var rest := Flatten(parts[1..]);
      assert forall k :: 1 <= k < |parts| ==> parts[k] == parts[1..][k - 1];
      parts[0] + rest
  }

  lemma FlattenSnoc(parts: seq<seq<string>>, last: seq<string>)
    ensures Flatten(parts + [last]) == Flatten(parts) + last
  {
    if parts != [] {
      assert (parts + [last])[1..] == parts[1..] + [last];
      FlattenSnoc(parts[1..], last);
    } else {
      assert [last][1..] == [];
    }
  }

  /** `Flatten` is empty exactly when every part is. */
  lemma FlattenEmpty(parts: seq<seq<string>>)
    ensures Flatten(parts) == [] <==> forall k :: 0 <= k < |parts| ==> parts[k] == []
  {
    var r := Flatten(parts);
    if r != [] {
      assert r[0] in r;
      var k :| 0 <= k < |parts| && r[0] in parts[k];
    }
    forall k | 0 <= k < |parts| && parts[k] != []
      ensures r != []
    {
      assert parts[k][0] in parts[k];
      assert parts[k][0] in r;
    }
  }

  /** What each glob pattern matches, pattern by pattern. */
  function Globs(patterns: seq<string>, fs: FileSystem): (g: seq<seq<string>>)
    ensures |g| == |patterns| && forall k :: 0 <= k < |patterns| ==> g[k] == fs.glob(patterns[k])
  {
    seq(|patterns|, k requires 0 <= k < |patterns| => fs.glob(patterns[k]))
  }

  /**
   * `os.path.join(directory, part) if directory else part`. POSIX `join`
   * returns an absolute part without looking at the directory, so only a
   * relative part calls a string method on it.
   */
  function PathFor(directory: Value, part: string): (r: Result<string>)
    ensures !Truthy(directory) ==> r == Ok(part)
    ensures Truthy(directory) && directory.VStr? ==> r == Ok(PathJoin(directory.s, part))
    ensures StartsWith(part, "/") ==> r == Ok(part)
    ensures Truthy(directory) && !directory.VStr? && !StartsWith(part, "/") ==> r == Err(AttributeError)
  {
    if !Truthy(directory) || StartsWith(part, "/") then Ok(part)
    else if directory.VStr? then Ok(PathJoin(directory.s, part))
    else Err(AttributeError)
  }

  /** The paths globbed for the parts of an entry (`paths_before_globbing`). */
  function Patterns(words: seq<string>, directory: Value, fs: FileSystem): (r: Result<seq<string>>)
    ensures r.Ok? <==> forall k :: 0 <= k < |words| ==> PathFor(directory, words[k]).Ok?
    ensures r.Ok? ==> |r.value| == |words| && forall k :: 0 <= k < |words| ==>
                        r.value[k] == fs.expandVars(PathFor(directory, words[k]).value)
    ensures r.Err? ==> r == Err(AttributeError)
  {
    var paths :- MapResult(words, w => PathFor(directory, w));
    Ok(seq(|paths|, k requires 0 <= k < |paths| => fs.expandVars(paths[k])))
  }

  /**
   * The files one `files` entry resolves to. Finding no file at all stops the
   * process with status 1.
   */
  function Resolve(fileArgs: Value, directory: Value, fs: FileSystem): (r: Result<seq<string>>)
    ensures fileArgs.VStr? && StartsWith(fileArgs.s, "root:/") ==> r == Ok([fileArgs.s])
    ensures r.Ok? ==> r.value != []
    ensures !fileArgs.VStr? ==> r == Err(AttributeError)
  {
    if !fileArgs.VStr? then Err(AttributeError)
    else if StartsWith(fileArgs.s, "root:/") then Ok([fileArgs.s])
    else
      var patterns :- Patterns(Words(fileArgs.s), directory, fs);
      var files := Flatten(Globs(patterns, fs));
      if files == [] then Err(Exit(1)) else Ok(files)
  }

  /**
   * Any other entry resolves to what the glob patterns of its parts match, and
   * to nothing else; an entry whose patterns all match nothing is fatal.
   */
  lemma ResolveGlobs(fileArgs: string, directory: Value, fs: FileSystem, patterns: seq<string>)
    requires !StartsWith(fileArgs, "root:/")
    requires Patterns(Words(fileArgs), directory, fs) == Ok(patterns)
    ensures var r := Resolve(VStr(fileArgs), directory, fs);
            && (r.Ok? <==> exists k :: 0 <= k < |patterns| && fs.glob(patterns[k]) != [])
            && (r.Err? ==> r.failure == Exit(1))
            && (r.Ok? ==> forall f :: f in r.value <==> exists k :: 0 <= k < |patterns| && f in fs.glob(patterns[k]))
  {
    var globs := Globs(patterns, fs);
    FlattenEmpty(globs);
    assert Resolve(VStr(fileArgs), directory, fs) == if Flatten(globs) == [] then Err(Exit(1)) else Ok(Flatten(globs));
  }

  /** The loop over the parts of one entry, extending `files` pattern by pattern. */
  method GlobParts(words: seq<string>, directory: Value, fs: FileSystem) returns (r: Result<seq<string>>)
    ensures Patterns(words, directory, fs).Err? ==> r == Err(AttributeError)
    ensures Patterns(words, directory, fs).Ok? ==> r == Ok(Flatten(Globs(Patterns(words, directory, fs).value, fs)))
  {
    var pathsBeforeGlobbing: seq<string> := [];
    var files: seq<string> := [];
    ghost var globs: seq<seq<string>> := [];
    for k := 0 to |words|
      invariant |pathsBeforeGlobbing| == k && |globs| == k
      invariant forall j :: 0 <= j < k ==>
                  PathFor(directory, words[j]).Ok? && pathsBeforeGlobbing[j] == fs.expandVars(PathFor(directory, words[j]).value)
      invariant forall j :: 0 <= j < k ==> globs[j] == fs.glob(pathsBeforeGlobbing[j])
      invariant files == Flatten(globs)
    {
      var path := PathFor(directory, words[k]);
      if path.Err? {
        assert Patterns(words, directory, fs).Err?;
        return Err(AttributeError);
      }
      FlattenSnoc(globs, fs.glob(fs.expandVars(path.value)));
      pathsBeforeGlobbing := pathsBeforeGlobbing + [fs.expandVars(path.value)];
      globs := globs + [fs.glob(pathsBeforeGlobbing[k])];
      files := files + fs.glob(pathsBeforeGlobbing[k]);
    }
    assert Patterns(words, directory, fs).Ok?;
    assert Patterns(words, directory, fs).value == pathsBeforeGlobbing;
    assert globs == Globs(pathsBeforeGlobbing, fs);
    r := Ok(files);
  }

  /** One `files` entry: a `root:/` URL as it is, otherwise its globbed parts, which must match something. */
  method ResolveEntry(fileArgs: Value, directory: Value, fs: FileSystem) returns (r: Result<seq<string>>)
    ensures r == Resolve(fileArgs, directory, fs)
  {
    if !fileArgs.VStr? {
      return Err(AttributeError);
    }
    if StartsWith(fileArgs.s, "root:/") {
      return Ok([fileArgs.s]);
    }
    var files := GlobParts(Words(fileArgs.s), directory, fs);
    if files.Err? {
      return files;
    }
    if |files.value| == 0 {
      return Err(Exit(1));
    }
    r := files;
  }

  /** The keys broadcast to lists before the files are resolved. */
  const InputKeys: set<string> := {
    "nicks", "x_expressions", "y_expressions", "z_expressions", "x_bins", "y_bins", "z_bins",
    "scale_factors", "files", "directories"}

  /** The files as a Python list of strings. */
  function FilesValue(files: seq<string>): (v: Value)
    ensures v.VList? && |v.items| == |files| && forall k :: 0 <= k < |files| ==> v.items[k] == VStr(files[k])
  {
    VList(seq(|files|, k requires 0 <= k < |files| => VStr(files[k])))
  }

  /** The `files` list after the entries from `index` on are resolved, each written back at its position. */
  function ResolvedFrom(d: Dict, rows: seq<seq<Value>>, index: nat, fs: FileSystem): Result<Dict>
    requires forall i :: 0 <= i < |rows| ==> |rows[i]| == 2
    decreases |rows| - index
  {
    if index >= |rows| then Ok(d)
    else
      var files :- Resolve(rows[index][0], rows[index][1], fs);
      var current :- ListAt(d, "files");
      if index >= |current| then Err(IndexError)
      else ResolvedFrom(d["files" := VList(current[index := FilesValue(files)])], rows, index + 1, fs)
  }

  /** `prepare_args`: a `None` file list is fatal before anything else is prepared. */
  function Prepared(d: Dict, broadcast: Dict -> Dict, fs: FileSystem): (r: Result<Dict>)
    ensures "files" in d && d["files"] == VNone ==> r == Err(Exit(1))
  {
    var files :- Get(d, "files");
    if files == VNone then Err(Exit(1))
    else
      var d1 := broadcast(d);
      var rows :- ZipKeys(d1, ["files", "directories"]);
      ResolvedFrom(d1, rows, 0, fs)
  }

  /** Resolution keeps every key other than `files`, and the length of `files`. */
  lemma {:induction false} ResolvedKeeps(d: Dict, rows: seq<seq<Value>>, index: nat, fs: FileSystem)
    requires forall i :: 0 <= i < |rows| ==> |rows[i]| == 2
    requires ResolvedFrom(d, rows, index, fs).Ok?
    ensures var p := ResolvedFrom(d, rows, index, fs).value;
            && p.Keys == d.Keys
            && (forall k :: k in d && k != "files" ==> p[k] == d[k])
            && (index < |rows| ==> IsList(d, "files") && IsList(p, "files") && |p["files"].items| == |d["files"].items|)
    decreases |rows| - index
  {
    if index < |rows| {
      var files := Resolve(rows[index][0], rows[index][1], fs).value;
      var current := d["files"].items;
      var d1 := d["files" := VList(current[index := FilesValue(files)])];
      ResolvedKeeps(d1, rows, index + 1, fs);
    }
  }

  /** The `files` list of an argument dictionary, or nothing when it is not a list. */
  function FilesOf(d: Dict): seq<Value> {
    if IsList(d, "files") then d["files"].items else []
  }

  /**
   * `after` is `before` with each entry `i` from `index` on that is zipped with a
   * directory (`i < |rows|`) replaced by the files it resolves to, and every other
   * entry kept.
   */
  predicate ReplacedFrom(rows: seq<seq<Value>>, index: nat, fs: FileSystem, before: seq<Value>, after: seq<Value>)
    requires forall i :: 0 <= i < |rows| ==> |rows[i]| == 2
  {
    && |after| == |before|
    && (index < |rows| ==> |rows| <= |before|)
    && (forall i :: index <= i < |rows| ==>
          && Resolve(rows[i][0], rows[i][1], fs).Ok?
          && after[i] == FilesValue(Resolve(rows[i][0], rows[i][1], fs).value))
    && (forall i :: 0 <= i < |before| && (i < index || i >= |rows|) ==> after[i] == before[i])
  }

  /** Writing entry `index` first and replacing the later ones replaces them all from `index` on. */
  lemma ReplacedStep(rows: seq<seq<Value>>, index: nat, fs: FileSystem, before: seq<Value>, after: seq<Value>)
    requires forall i :: 0 <= i < |rows| ==> |rows[i]| == 2
    requires index < |rows| && index < |before|
    requires Resolve(rows[index][0], rows[index][1], fs).Ok?
    requires ReplacedFrom(rows, index + 1, fs, before[index := FilesValue(Resolve(rows[index][0], rows[index][1], fs).value)], after)
    ensures ReplacedFrom(rows, index, fs, before, after)
  {
    var written := before[index := FilesValue(Resolve(rows[index][0], rows[index][1], fs).value)];
    assert after[index] == written[index];
    forall i | 0 <= i < |before| && (i < index || i >= |rows|)
      ensures after[i] == before[i]
    {
      assert written[i] == before[i];
    }
  }

  /**
   * Each entry zipped with a directory is replaced by its files; the entries
   * before `index` and those without a directory are kept.
   */
  lemma {:induction false} ResolvedEntries(d: Dict, rows: seq<seq<Value>>, index: nat, fs: FileSystem)
    requires forall i :: 0 <= i < |rows| ==> |rows[i]| == 2
    requires index < |rows|
    requires ResolvedFrom(d, rows, index, fs).Ok?
    ensures IsList(d, "files") && IsList(ResolvedFrom(d, rows, index, fs).value, "files")
    ensures ReplacedFrom(rows, index, fs, FilesOf(d), FilesOf(ResolvedFrom(d, rows, index, fs).value))
    decreases |rows| - index
  {
    ResolvedUnfold(d, rows, index, fs);
    var files := Resolve(rows[index][0], rows[index][1], fs).value;
    var current := d["files"].items;
    var d1 := d["files" := VList(current[index := FilesValue(files)])];
    var p := ResolvedFrom(d1, rows, index + 1, fs).value;
    assert ResolvedFrom(d, rows, index, fs).value == p;
    assert FilesOf(d) == current;
    assert FilesOf(d1) == current[index := FilesValue(files)];
    if index + 1 == |rows| {
      assert p == d1;
    } else {
      ResolvedEntries(d1, rows, index + 1, fs);
    }
    ReplacedStep(rows, index, fs, current, FilesOf(p));
  }

  /** One step of the resolution loop: entry `index` resolves and is written back into a list long enough. */
  lemma ResolvedUnfold(d: Dict, rows: seq<seq<Value>>, index: nat, fs: FileSystem)
    requires forall i :: 0 <= i < |rows| ==> |rows[i]| == 2
    requires index < |rows|
    requires ResolvedFrom(d, rows, index, fs).Ok?
    ensures Resolve(rows[index][0], rows[index][1], fs).Ok?
    ensures IsList(d, "files") && index < |d["files"].items|
    ensures var files := Resolve(rows[index][0], rows[index][1], fs).value;
            ResolvedFrom(d, rows, index, fs)
              == ResolvedFrom(d["files" := VList(d["files"].items[index := FilesValue(files)])], rows, index + 1, fs)
  {
  }

  /** `prepare_args` after the `None` check and the list broadcast: the loop over `zip(files, directories)`. */
  method PrepareArgs(pd: PlotData, broadcast: Dict -> Dict, fs: FileSystem) returns (outcome: Result<Dict>)
    modifies pd
    ensures outcome == Prepared(old(pd.plotdict), broadcast, fs)
    ensures outcome.Ok? ==> pd.plotdict == outcome.value
    ensures pd.rootObjects == old(pd.rootObjects)
  {
    var given := Get(pd.plotdict, "files");
    if given.Err? {
      return Err(given.failure);
    }
    if given.value == VNone {
      return Err(Exit(1));
    }
    pd.plotdict := broadcast(pd.plotdict);
    var zipped := ZipKeys(pd.plotdict, ["files", "directories"]);
    if zipped.Err? {
      return Err(zipped.failure);
    }
    var rows := zipped.value;
    for index := 0 to |rows|
      invariant Prepared(old(pd.plotdict), broadcast, fs) == ResolvedFrom(pd.plotdict, rows, index, fs)
      invariant pd.rootObjects == old(pd.rootObjects)
    {
      var files := ResolveEntry(rows[index][0], rows[index][1], fs);
      if files.Err? {
        return Err(files.failure);
      }
      if !IsList(pd.plotdict, "files") {
        return ListAt(pd.plotdict, "files").PropagateFailure();
      }
      var current := pd.plotdict["files"].items;
      if index >= |current| {
        return Err(IndexError);
      }
      pd.plotdict := pd.plotdict["files" := VList(current[index := FilesValue(files.value)])];
    }
    outcome := Ok(pd.plotdict);
  }
}
