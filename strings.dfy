/**
 * The Python 2 `str` operations the core relies on, as functions on `seq<char>`:
 * `split()`, `split(sep)`, `sep.join(...)`, `replace`, `startswith`, `in`,
 * `upper()`/`lower()`, `isdigit()` and `"%d"` formatting.  Python 2 byte strings
 * are ASCII here, so case mapping and digit tests are the ASCII ones.
 */
module Strings {

  // ---------------------------------------------------------------------------
  // Prefixes and substrings

  predicate StartsWith(s: string, prefix: string) {
    |prefix| <= |s| && s[..|prefix|] == prefix
  }

  /** Python's `sub in s`. */
  predicate Contains(s: string, sub: string)
    decreases |s|
  {
    if StartsWith(s, sub) then true
    else if s == [] then false
    else Contains(s[1..], sub)
  }

  lemma {:induction false} ContainsAt(s: string, sub: string, i: nat)
    requires i + |sub| <= |s| && s[i..i + |sub|] == sub
    ensures Contains(s, sub)
    decreases i
  {
    if i > 0 {
      assert s[1..][i - 1..i - 1 + |sub|] == sub;
      ContainsAt(s[1..], sub, i - 1);
    } else {
      assert s[..|sub|] == sub;
    }
  }

  /** The character count of `c` in `s`. */
  function Count(s: string, c: char): nat
  {
    if s == [] then 0 else (if s[0] == c then 1 else 0) + Count(s[1..], c)
  }

  // ---------------------------------------------------------------------------
  // Case mapping and digits (ASCII)

  function UpperChar(c: char): char {
    if 'a' <= c <= 'z' then (c as int - 32) as char else c
  }

  function LowerChar(c: char): char {
    if 'A' <= c <= 'Z' then (c as int + 32) as char else c
  }

  /** `s.upper()` */
  function Upper(s: string): (r: string)
    ensures |r| == |s|
    ensures forall i :: 0 <= i < |s| ==> r[i] == UpperChar(s[i])
  {
    seq(|s|, i requires 0 <= i < |s| => UpperChar(s[i]))
  }

  /** `s.lower()` */
  function Lower(s: string): (r: string)
    ensures |r| == |s|
    ensures forall i :: 0 <= i < |s| ==> r[i] == LowerChar(s[i])
  {
    seq(|s|, i requires 0 <= i < |s| => LowerChar(s[i]))
  }

  predicate IsDigitChar(c: char) { '0' <= c <= '9' }

  /** `s.isdigit()`: non-empty and all decimal digits. */
  predicate IsDigits(s: string) {
    |s| > 0 && forall i :: 0 <= i < |s| ==> IsDigitChar(s[i])
  }

  function DigitChar(d: nat): char
    requires d < 10
  {
    ('0' as int + d) as char
  }

  /** `"%d" % n` for a non-negative `n`. */
  function NatToString(n: nat): (r: string)
    ensures |r| >= 1
    ensures IsDigits(r)
  {
    if n < 10 then [DigitChar(n)] else NatToString(n / 10) + [DigitChar(n % 10)]
  }

  /** Decimal formatting is injective: different indices give different suffixes. */
  lemma {:induction false} NatToStringInjective(a: nat, b: nat)
    requires NatToString(a) == NatToString(b)
    ensures a == b
  {
    var ra, rb := NatToString(a), NatToString(b);
    if a >= 10 && b >= 10 {
      assert ra[..|ra| - 1] == NatToString(a / 10);
      assert rb[..|rb| - 1] == NatToString(b / 10);
      NatToStringInjective(a / 10, b / 10);
      assert ra[|ra| - 1] == rb[|rb| - 1];
    } else {
      assert ra[0] == rb[0];
    }
  }

  // ---------------------------------------------------------------------------
  // Whitespace splitting: `s.split()`

  /** Python 2's ASCII whitespace: space, \t, \n, \v, \f, \r. */
  predicate IsSpace(c: char) {
    c == ' ' || c == '\t' || c == '\n' || c == '\r' || c == '\U{0B}' || c == '\U{0C}'
  }

  predicate NoSpace(s: string) {
    forall i :: 0 <= i < |s| ==> !IsSpace(s[i])
  }

  /** Length of the longest prefix of `s` without whitespace. */
  function WordLength(s: string): (n: nat)
    ensures n <= |s|
    ensures NoSpace(s[..n])
    ensures n < |s| ==> IsSpace(s[n])
    ensures s != [] && !IsSpace(s[0]) ==> n >= 1
  {
    if s == [] || IsSpace(s[0]) then 0
    else
      var k := WordLength(s[1..]);
      assert s[..k + 1] == [s[0]] + s[1..][..k];
      k + 1
  }

  /** `s.split()`: the maximal runs of non-whitespace characters, in order. */
  function Words(s: string): (r: seq<string>)
    ensures forall i :: 0 <= i < |r| ==> r[i] != [] && NoSpace(r[i])
    decreases |s|
  {
    if s == [] then []
    else if IsSpace(s[0]) then Words(s[1..])
    else
      var n := WordLength(s);
      [s[..n]] + Words(s[n..])
  }

  /** `sep.join(parts)` */
  function Join(sep: string, parts: seq<string>): string
  {
    if parts == [] then []
    else if |parts| == 1 then parts[0]
    else parts[0] + sep + Join(sep, parts[1..])
  }

  lemma {:induction false} WordsOfWord(w: string, rest: string)
    requires w != [] && NoSpace(w)
    requires rest == [] || IsSpace(rest[0])
    ensures Words(w + rest) == [w] + Words(rest)
  {
    var s := w + rest;
    var n := WordLength(s);
    assert forall i :: 0 <= i < |w| ==> s[i] == w[i];
    assert |w| < |s| ==> s[|w|] == rest[0];
    assert n == |w|;
    assert s[..n] == w;
    assert s[n..] == rest;
  }

  /**
   * Joining names with single spaces and splitting again gives back the names,
   * without the empty ones, as long as no name holds whitespace.
   */
  lemma {:induction false} WordsOfJoin(names: seq<string>)
    requires forall i :: 0 <= i < |names| ==> NoSpace(names[i])
    ensures Words(Join(" ", names)) == NonEmpty(names)
  {
    if names == [] {
    } else if |names| == 1 {
      if names[0] != [] {
        WordsOfWord(names[0], []);
        assert names[0] + [] == names[0];
      }
    } else {
      var rest := Join(" ", names[1..]);
      var spaced := " " + rest;
      assert Join(" ", names) == names[0] + spaced;
      assert forall i :: 0 <= i < |names[1..]| ==> NoSpace(names[1..][i]);
      WordsOfJoin(names[1..]);
      assert spaced[0] == ' ' && spaced[1..] == rest;
      assert Words(spaced) == NonEmpty(names[1..]);
      if names[0] == [] {
        assert names[0] + spaced == spaced;
      } else {
        WordsOfWord(names[0], spaced);
      }
    }
  }

  function NonEmpty(names: seq<string>): (r: seq<string>)
    ensures forall i :: 0 <= i < |r| ==> r[i] in names && r[i] != []
  {
    if names == [] then []
    else if names[0] == [] then NonEmpty(names[1..])
    else [names[0]] + NonEmpty(names[1..])
  }

  // ---------------------------------------------------------------------------
  // Splitting on a separator and replacing

  /** `s.split(sep)` for a non-empty separator: the pieces between occurrences, scanned left to right. */
  function Split(s: string, sep: string): (r: seq<string>)
    requires sep != []
    ensures |r| >= 1
    decreases |s|
  {
    if s == [] then [[]]
    else if StartsWith(s, sep) then [[]] + Split(s[|sep|..], sep)
    else
      var rest := Split(s[1..], sep);
      [[s[0]] + rest[0]] + rest[1..]
  }

  /** A single-character separator splits into one more piece than it occurs. */
  lemma {:induction false} SplitCount(s: string, c: char)
    ensures |Split(s, [c])| == Count(s, c) + 1
  {
    if s != [] {
      SplitCount(s[1..], c);
      if StartsWith(s, [c]) {
        assert s[0] == c;
        assert s[|[c]|..] == s[1..];
      } else {
        assert s[..1] == [s[0]];
      }
    }
  }

  /** Splitting and joining with the same separator gives back the string. */
  lemma {:induction false} JoinSplit(s: string, sep: string)
    requires sep != []
    ensures Join(sep, Split(s, sep)) == s
    decreases |s|
  {
    if s == [] {
    } else if StartsWith(s, sep) {
      var tail := Split(s[|sep|..], sep);
      JoinSplit(s[|sep|..], sep);
      assert Split(s, sep) == [[]] + tail;
      assert ([[]] + tail)[1..] == tail;
      assert Join(sep, [[]] + tail) == [] + sep + Join(sep, tail);
      assert s == sep + s[|sep|..];
    } else {
      JoinSplit(s[1..], sep);
      var rest := Split(s[1..], sep);
      JoinCons(sep, [s[0]], rest);
    }
  }

  lemma JoinCons(sep: string, c: string, rest: seq<string>)
    requires |rest| >= 1
    ensures Join(sep, [c + rest[0]] + rest[1..]) == c + Join(sep, rest)
  {
    var parts := [c + rest[0]] + rest[1..];
    assert parts[1..] == rest[1..];
    if |rest| > 1 {
      assert Join(sep, rest) == rest[0] + sep + Join(sep, rest[1..]);
    }
  }

  /**
   * `s.replace(target, repl)`: every non-overlapping occurrence of `target`, scanned from
   * the left, becomes `repl`; an empty `target` puts `repl` before every character and at the end.
   */
  function ReplaceAll(s: string, target: string, repl: string): string
    decreases |s|
  {
    if target == [] then
      (if s == [] then repl else repl + [s[0]] + ReplaceAll(s[1..], target, repl))
    else if s == [] then []
    else if StartsWith(s, target) then repl + ReplaceAll(s[|target|..], target, repl)
    else [s[0]] + ReplaceAll(s[1..], target, repl)
  }

  /** Python's documented reading of `replace`: split on `target`, join with `repl`. */
  lemma {:induction false} ReplaceIsJoinOfSplit(s: string, target: string, repl: string)
    requires target != []
    ensures ReplaceAll(s, target, repl) == Join(repl, Split(s, target))
    decreases |s|
  {
    if s == [] {
    } else if StartsWith(s, target) {
      ReplaceIsJoinOfSplit(s[|target|..], target, repl);
      var rest := Split(s[|target|..], target);
      assert Split(s, target) == [[]] + rest;
      assert ([[]] + rest)[1..] == rest;
    } else {
      ReplaceIsJoinOfSplit(s[1..], target, repl);
      JoinCons(repl, [s[0]], Split(s[1..], target));
    }
  }

  /** Replacing a key by itself changes nothing. */
  lemma ReplaceBySelf(s: string, key: string)
    requires key != []
    ensures ReplaceAll(s, key, key) == s
  {
    ReplaceIsJoinOfSplit(s, key, key);
    JoinSplit(s, key);
  }

  /** A non-empty key that does not occur leaves the string as it is. */
  lemma {:induction false} ReplaceAbsent(s: string, target: string, repl: string)
    requires target != [] && !Contains(s, target)
    ensures ReplaceAll(s, target, repl) == s
    decreases |s|
  {
    if s != [] {
      ReplaceAbsent(s[1..], target, repl);
    }
  }

  /** The characters of `s` other than `c`, in order. */
  function Without(s: string, c: char): (r: string)
    ensures forall i :: 0 <= i < |r| ==> r[i] != c
  {
    if s == [] then [] else (if s[0] == c then [] else [s[0]]) + Without(s[1..], c)
  }

  /** Removing a character that does not occur changes nothing. */
  lemma {:induction false} WithoutAbsent(s: string, c: char)
    requires c !in s
    ensures Without(s, c) == s
  {
    if s != [] {
      assert c !in s[1..];
      WithoutAbsent(s[1..], c);
    }
  }

  /** Removing every occurrence of one character keeps all the others, in order. */
  lemma {:induction false} ReplaceCharByNothing(s: string, c: char)
    ensures ReplaceAll(s, [c], []) == Without(s, c)
  {
    if s != [] {
      ReplaceCharByNothing(s[1..], c);
      if s[0] == c {
        assert StartsWith(s, [c]);
        assert s[|[c]|..] == s[1..];
      } else {
        assert !StartsWith(s, [c]);
      }
    }
  }

  /** If `target` occurs, `repl` occurs in the result. */
  lemma {:induction false} ReplacePlacesNew(s: string, target: string, repl: string)
    requires target != [] && Contains(s, target)
    ensures Contains(ReplaceAll(s, target, repl), repl)
    decreases |s|
  {
    if StartsWith(s, target) {
      assert (repl + ReplaceAll(s[|target|..], target, repl))[0..|repl|] == repl;
      ContainsAt(repl + ReplaceAll(s[|target|..], target, repl), repl, 0);
    } else {
      ReplacePlacesNew(s[1..], target, repl);
      ContainsShift(s[0], ReplaceAll(s[1..], target, repl), repl);
    }
  }

  lemma ContainsShift(c: char, s: string, sub: string)
    requires Contains(s, sub)
    ensures Contains([c] + s, sub)
  {
    var k := ContainsWitness(s, sub);
    assert ([c] + s)[k + 1..k + 1 + |sub|] == s[k..k + |sub|];
    ContainsAt([c] + s, sub, k + 1);
  }

  /** Where `sub` occurs in `s`. */
  lemma {:induction false} ContainsWitness(s: string, sub: string) returns (k: nat)
    requires Contains(s, sub)
    ensures k + |sub| <= |s| && s[k..k + |sub|] == sub
    decreases |s|
  {
    if StartsWith(s, sub) {
      k := 0;
    } else {
      var j := ContainsWitness(s[1..], sub);
      k := j + 1;
      assert s[k..k + |sub|] == s[1..][j..j + |sub|];
    }
  }

  // ---------------------------------------------------------------------------
  // Paths

  /** `os.path.join(a, b)` for two parts (POSIX). */
  function PathJoin(a: string, b: string): (r: string)
    ensures StartsWith(b, "/") ==> r == b
  {
    if StartsWith(b, "/") then b
    else if a == [] || a[|a| - 1] == '/' then a + b
    else a + "/" + b
  }
}
