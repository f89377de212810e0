/**
 * The shared plot state: the argument dictionary `plotdict`, whose values are
 * Python values, and the named object store `root_objects`, whose values are ROOT
 * objects that the model treats as opaque records of the few properties the core reads.
 */
module PyValues {
  import opened Wrappers

  /** A Python value as it can appear in the argument dictionary or one of its lists. */
  datatype Value =
    | VNone
    | VBool(b: bool)
    | VInt(i: int)
    | VReal(r: real)
    | VStr(s: string)
    | VList(items: seq<Value>)

  /** Python truthiness, as used by `if value:` and `and`/`or`. */
  predicate Truthy(v: Value) {
    match v
    case VNone => false
    case VBool(b) => b
    case VInt(i) => i != 0
    case VReal(r) => r != 0.0
    case VStr(s) => s != []
    case VList(items) => items != []
  }

  /** Python's `v == True`: also holds for the numbers equal to 1. */
  predicate EqualsTrue(v: Value) {
    v == VBool(true) || v == VInt(1) || v == VReal(1.0)
  }

  /** What a `for` loop over `v` visits: a list's items or a string's characters. */
  function Iterate(v: Value): (r: Result<seq<Value>>)
    ensures v.VList? ==> r == Ok(v.items)
    ensures v.VStr? ==> r.Ok? && |r.value| == |v.s| && forall i :: 0 <= i < |v.s| ==> r.value[i] == VStr([v.s[i]])
    ensures !v.VList? && !v.VStr? ==> r.Err?
  {
    match v
    case VList(items) => Ok(items)
    case VStr(s) => Ok(seq(|s|, i requires 0 <= i < |s| => VStr([s[i]])))
    case _ => Err(TypeError)
  }

  /** The strings of a list whose items must all be strings (a `join`, a string concatenation). */
  function StringItems(items: seq<Value>): (r: Result<seq<string>>)
    ensures r.Ok? <==> forall i :: 0 <= i < |items| ==> items[i].VStr?
    ensures r.Ok? ==> |r.value| == |items| && forall i :: 0 <= i < |items| ==> items[i] == VStr(r.value[i])
  {
    if items == [] then Ok([])
    else if !items[0].VStr? then Err(TypeError)
    else match StringItems(items[1..])
      case Err(f) => Err(f)
      case Ok(rest) => Ok([items[0].s] + rest)
  }

  /** `float(w)`: `parse` stands for Python's float syntax; a word it rejects raises ValueError. */
  function ParseFloat(w: string, parse: string -> Option<real>): (r: Result<real>)
    ensures r.Ok? <==> parse(w).Some?
    ensures r.Ok? ==> parse(w) == Some(r.value)
    ensures r.Err? ==> r.failure == ValueError
  {
    if parse(w).Some? then Ok(parse(w).value) else Err(ValueError)
  }

  /** `[float(w) for w in words]` */
  function ParseFloats(words: seq<string>, parse: string -> Option<real>): (r: Result<seq<real>>)
    ensures r.Ok? <==> forall i :: 0 <= i < |words| ==> parse(words[i]).Some?
    ensures r.Ok? ==> |r.value| == |words| && forall i :: 0 <= i < |words| ==> parse(words[i]) == Some(r.value[i])
    ensures r.Err? ==> r.failure == ValueError
  {
    MapResult(words, w => ParseFloat(w, parse))
  }

  /** A list of floats as a Python value. */
  function RealsValue(xs: seq<real>): (v: Value)
    ensures v.VList? && |v.items| == |xs| && forall i :: 0 <= i < |xs| ==> v.items[i] == VReal(xs[i])
  {
    VList(seq(|xs|, i requires 0 <= i < |xs| => VReal(xs[i])))
  }

  /** `int(v)`: `parseInt` stands for Python's integer syntax; a float is truncated toward zero. */
  function IntOf(v: Value, parseInt: string -> Option<int>): (r: Result<int>)
    ensures v.VInt? ==> r == Ok(v.i)
    ensures v.VNone? || v.VList? ==> r == Err(TypeError)
  {
    match v
    case VInt(i) => Ok(i)
    case VBool(b) => Ok(if b then 1 else 0)
    case VReal(x) => Ok(if x >= 0.0 then x.Floor else -((-x).Floor))
    case VStr(s) => if parseInt(s).Some? then Ok(parseInt(s).value) else Err(ValueError)
    case _ => Err(TypeError)
  }

  /** The length of the shortest of `columns` (`zip` stops there); no columns give no rows. */
  function MinLength(columns: seq<seq<Value>>): (n: nat)
    ensures forall j :: 0 <= j < |columns| ==> n <= |columns[j]|
    ensures columns != [] ==> exists j :: 0 <= j < |columns| && n == |columns[j]|
  {
    if columns == [] then 0
    else if |columns| == 1 then |columns[0]|
    else
      var rest := MinLength(columns[1..]);
      assert forall j :: 1 <= j < |columns| ==> columns[j] == columns[1..][j - 1];
      if |columns[0]| <= rest then |columns[0]| else rest
  }

  /** Python 2's `zip(*columns)`: row i holds the i-th item of every column. */
  function Zip(columns: seq<seq<Value>>): (rows: seq<seq<Value>>)
    ensures |rows| == MinLength(columns)
    ensures forall i :: 0 <= i < |rows| ==> |rows[i]| == |columns|
    ensures forall i, j :: 0 <= i < |rows| && 0 <= j < |columns| ==> rows[i][j] == columns[j][i]
  {
    var n := MinLength(columns);
    seq(n, i requires 0 <= i < n => seq(|columns|, j requires 0 <= j < |columns| => columns[j][i]))
  }

  /** `zip(d[k1], d[k2], ...)`: every argument is looked up first, then iterated. */
  function ZipKeys(d: Dict, keys: seq<string>): (r: Result<seq<seq<Value>>>)
    ensures r.Ok? ==> forall i :: 0 <= i < |r.value| ==> |r.value[i]| == |keys|
  {
    var values :- MapResult(keys, k => Get(d, k));
    var columns :- MapResult(values, Iterate);
    Ok(Zip(columns))
  }

  /** Item `i` of the value under `key` as `zip` iterates it, or `None` where there is none. */
  function ItemOf(d: Dict, key: string, i: nat): (v: Value)
    ensures key in d && d[key].VList? && i < |d[key].items| ==> v == d[key].items[i]
  {
    if key in d && Iterate(d[key]).Ok? && i < |Iterate(d[key]).value| then Iterate(d[key]).value[i] else VNone
  }

  /**
   * A successful `zip` over the keys found every key and could iterate its value;
   * it stops at the shortest list, and row `i` holds item `i` of every key.
   */
  lemma ZipKeysColumns(d: Dict, keys: seq<string>)
    requires ZipKeys(d, keys).Ok?
    ensures forall j :: 0 <= j < |keys| ==>
              keys[j] in d && Iterate(d[keys[j]]).Ok? && |ZipKeys(d, keys).value| <= |Iterate(d[keys[j]]).value|
    ensures forall i, j :: 0 <= i < |ZipKeys(d, keys).value| && 0 <= j < |keys| ==>
              ZipKeys(d, keys).value[i][j] == ItemOf(d, keys[j], i)
  {
    var values := MapResult(keys, k => Get(d, k)).value;
    var columns := MapResult(values, Iterate).value;
    var rows := ZipKeys(d, keys).value;
    assert rows == Zip(columns);
    forall j | 0 <= j < |keys|
      ensures keys[j] in d && values[j] == d[keys[j]] && Iterate(d[keys[j]]) == Ok(columns[j])
    {
      assert (k => Get(d, k))(keys[j]) == Ok(values[j]);
    }
  }

  /** `l.count(v)` */
  function Occurrences(l: seq<Value>, v: Value): (n: nat)
    ensures n <= |l|
    ensures n == 0 <==> v !in l
  {
    if l == [] then 0 else (if l[0] == v then 1 else 0) + Occurrences(l[1..], v)
  }

  lemma {:induction false} OccurrencesConcat(a: seq<Value>, b: seq<Value>, v: Value)
    ensures Occurrences(a + b, v) == Occurrences(a, v) + Occurrences(b, v)
  {
    if a == [] {
      assert a + b == b;
    } else {
      assert (a + b)[0] == a[0] && (a + b)[1..] == a[1..] + b;
      OccurrencesConcat(a[1..], b, v);
    }
  }

  /** `l.count(l[i]) == 1` says that no other position holds the same value. */
  lemma OccursOnce(l: seq<Value>, i: nat)
    requires i < |l|
    ensures Occurrences(l, l[i]) == 1 <==> forall j :: 0 <= j < |l| && j != i ==> l[j] != l[i]
  {
    var a, b := l[..i], l[i + 1..];
    OccurrencesAround(l, i);
    if forall j :: 0 <= j < |l| && j != i ==> l[j] != l[i] {
      forall k | 0 <= k < |a|
        ensures a[k] != l[i]
      {
        assert a[k] == l[k];
      }
      forall k | 0 <= k < |b|
        ensures b[k] != l[i]
      {
        assert b[k] == l[k + i + 1];
      }
      assert l[i] !in a && l[i] !in b;
    } else {
      var j :| 0 <= j < |l| && j != i && l[j] == l[i];
      if j < i {
        assert a[j] == l[j];
        assert l[i] in a;
      } else {
        assert b[j - i - 1] == l[j];
        assert l[i] in b;
      }
    }
  }

  /** The count of `l[i]` is its count before `i`, plus one, plus its count after `i`. */
  lemma OccurrencesAround(l: seq<Value>, i: nat)
    requires i < |l|
    ensures Occurrences(l, l[i]) == Occurrences(l[..i], l[i]) + 1 + Occurrences(l[i + 1..], l[i])
  {
    var rest := l[i..];
    OccurrencesSplit(l, i, l[i]);
    assert rest[0] == l[i] && rest[1..] == l[i + 1..];
    OccurrencesHead(rest);
  }

  lemma OccurrencesSplit(l: seq<Value>, k: nat, v: Value)
    requires k <= |l|
    ensures Occurrences(l, v) == Occurrences(l[..k], v) + Occurrences(l[k..], v)
  {
    assert l[..k] + l[k..] == l;
    OccurrencesConcat(l[..k], l[k..], v);
  }

  lemma OccurrencesHead(l: seq<Value>)
    requires l != []
    ensures Occurrences(l, l[0]) == 1 + Occurrences(l[1..], l[0])
  {
  }



  /** `l.index(v)`: the first position of `v`. */
  function IndexOf(l: seq<Value>, v: Value): (k: nat)
    requires v in l
    ensures k < |l| && l[k] == v && v !in l[..k]
  {
    if l[0] == v then 0
    else
      var k := IndexOf(l[1..], v);
      assert l[..k + 1] == [l[0]] + l[1..][..k];
      k + 1
  }

  /** `l.insert(l.index(anchor), x)`; `index` raises ValueError for a missing anchor. */
  function InsertBefore(l: seq<Value>, anchor: Value, x: Value): (r: Result<seq<Value>>)
    ensures r.Ok? <==> anchor in l
    ensures r.Ok? ==> var k := IndexOf(l, anchor);
                      && |r.value| == |l| + 1 && r.value[k] == x && r.value[k + 1] == anchor
                      && r.value[..k] == l[..k] && r.value[k + 1..] == l[k..]
    ensures r.Err? ==> r.failure == ValueError
  {
    if anchor in l then
      var k := IndexOf(l, anchor);
      Ok(l[..k] + [x] + l[k..])
    else Err(ValueError)
  }

  /** Removing the inserted item gives back the list, and the item occurs once more than before. */
  lemma InsertBeforeRoundTrip(l: seq<Value>, anchor: Value, x: Value)
    requires anchor in l
    ensures var r := InsertBefore(l, anchor, x).value;
            var k := IndexOf(l, anchor);
            && r[..k] + r[k + 1..] == l
            && Occurrences(r, x) == Occurrences(l, x) + 1
  {
    var r := InsertBefore(l, anchor, x).value;
    var k := IndexOf(l, anchor);
    assert l == l[..k] + l[k..];
    assert r == l[..k] + ([x] + l[k..]);
    OccurrencesConcat(l[..k], [x] + l[k..], x);
    OccurrencesConcat([x], l[k..], x);
    OccurrencesConcat(l[..k], l[k..], x);
  }

  /** `d[key]` */
  function Get(d: Dict, key: string): (r: Result<Value>)
    ensures r.Ok? <==> key in d
    ensures r.Ok? ==> r.value == d[key]
  {
    if key in d then Ok(d[key]) else Err(KeyError(key))
  }

  /** `d[key]` where the value is then used as a list. */
  function ListAt(d: Dict, key: string): (r: Result<seq<Value>>)
    ensures r.Ok? <==> IsList(d, key)
    ensures r.Ok? ==> d[key] == VList(r.value)
  {
    if key !in d then Err(KeyError(key))
    else if d[key].VList? then Ok(d[key].items)
    else Err(TypeError)
  }

  /** `store[nick]`; a key that is not a string is never in the store. */
  function Lookup(store: Store, nick: Value): (r: Result<RootObject>)
    ensures r.Ok? <==> nick.VStr? && nick.s in store
    ensures r.Ok? ==> r.value == store[nick.s]
  {
    if nick.VStr? && nick.s in store then Ok(store[nick.s])
    else Err(KeyError(if nick.VStr? then nick.s else ""))
  }

  /** Lower and upper edge of a ROOT axis (`GetXmin()`, `GetXmax()`). */
  datatype Axis = Axis(low: real, high: real)

  /** What `isinstance` can tell about a ROOT object. */
  datatype Kind = Histogram(dimension: nat) | Graph | Graph2D | OtherKind

  /** An opaque ROOT object: its class name, its name, its kind and its axes. */
  datatype RootObject = RootObject(className: string, name: string, kind: Kind, xAxis: Axis, yAxis: Axis, zAxis: Axis)

  type Dict = map<string, Value>
  type Store = map<string, RootObject>

  /** The whole plot state: `plotdict` without `root_objects`, and `root_objects`. */
  datatype PlotState = PlotState(plotdict: Dict, rootObjects: Store)

  predicate IsList(d: Dict, key: string) {
    key in d && d[key].VList?
  }

  /**
   * What the list-broadcasting step guarantees and nothing more: each of `keys`
   * is present and holds a list.
   */
  predicate HoldsLists(d: Dict, keys: set<string>) {
    forall k :: k in keys ==> IsList(d, k)
  }

  /** The `PlotData` object that processors receive and change in place. */
  class PlotData {
    var plotdict: Dict
    var rootObjects: Store

    function State(): PlotState
      reads this
    {
      PlotState(plotdict, rootObjects)
    }

    constructor (s: PlotState)
      ensures State() == s
    {
      plotdict := s.plotdict;
      rootObjects := s.rootObjects;
    }

    method SetState(s: PlotState)
      modifies this
      ensures State() == s
    {
      plotdict := s.plotdict;
      rootObjects := s.rootObjects;
    }
  }
}
