/**
 * `ExpressionsDict`: a dictionary of named expressions that are substituted into
 * expression strings, key by key in the dictionary's iteration order.
 */
module Expressions {
  import opened Wrappers
  import opened Strings

  /** `order` is an iteration order of `m`: every key exactly once. */
  ghost predicate IsOrderOf(order: seq<string>, m: map<string, string>) {
    NoDuplicates(order) && forall k :: k in m <==> k in order
  }

  /** The substitutions of the keys in `order`, each applied to the result of the previous one. */
  function Substituted(s: string, order: seq<string>, m: map<string, string>): string
    requires forall i :: 0 <= i < |order| ==> order[i] in m
    decreases order
  {
    if order == [] then s
    else Substituted(ReplaceAll(s, order[0], m[order[0]]), order[1..], m)
  }

  /** Substituting the keys of `a` and then those of `b` is substituting those of `a + b`. */
  lemma {:induction false} SubstitutedConcat(s: string, a: seq<string>, b: seq<string>, m: map<string, string>)
    requires forall i :: 0 <= i < |a| ==> a[i] in m
    requires forall i :: 0 <= i < |b| ==> b[i] in m
    ensures Substituted(s, a + b, m) == Substituted(Substituted(s, a, m), b, m)
    decreases a
  {
    if a == [] {
      assert a + b == b;
    } else {
      assert (a + b)[0] == a[0] && (a + b)[1..] == a[1..] + b;
      SubstitutedConcat(ReplaceAll(s, a[0], m[a[0]]), a[1..], b, m);
    }
  }

  /** A single key: all its non-overlapping occurrences become its value. */
  lemma SubstitutedSingle(s: string, key: string, m: map<string, string>)
    requires key in m && key != []
    ensures Substituted(s, [key], m) == Join(m[key], Split(s, key))
  {
    assert [key][1..] == [];
    ReplaceIsJoinOfSplit(s, key, m[key]);
  }

  /** Keys that never occur (none empty) leave the string as it is. */
  lemma {:induction false} SubstitutedAbsent(s: string, order: seq<string>, m: map<string, string>)
    requires forall i :: 0 <= i < |order| ==> order[i] in m && order[i] != [] && !Contains(s, order[i])
    ensures Substituted(s, order, m) == s
  {
    if order != [] {
      ReplaceAbsent(s, order[0], m[order[0]]);
      SubstitutedAbsent(s, order[1..], m);
    }
  }

  /** Keys mapped to themselves (none empty) leave the string as it is. */
  lemma {:induction false} SubstitutedBySelf(s: string, order: seq<string>, m: map<string, string>)
    requires forall i :: 0 <= i < |order| ==> order[i] in m && order[i] != [] && m[order[i]] == order[i]
    ensures Substituted(s, order, m) == s
  {
    if order != [] {
      ReplaceBySelf(s, order[0]);
      SubstitutedBySelf(s, order[1..], m);
    }
  }

  class ExpressionsDict {
    var expressions: map<string, string>

    /** Empty, then updated with the additional expressions when given. */
    constructor (additional: Option<map<string, string>>)
      ensures expressions == if additional.Some? then additional.value else map[]
    {
      expressions := map[];
      if additional.Some? {
        expressions := expressions + additional.value;
      }
    }

    /**
     * `get_expression`. As written it looks up a name that is defined nowhere and
     * so always fails; corrected, it returns the expression stored under the
     * lower-cased name, falling back to the name itself.
     */
    function GetExpression(variant: Variant, expression: string): (r: Result<string>)
      reads this
      ensures variant == AsWritten ==> r == Err(NameError("expressions"))
      ensures variant == Corrected ==> r.Ok?
      ensures variant == Corrected && Lower(expression) in expressions ==> r.value == expressions[Lower(expression)]
      ensures variant == Corrected && Lower(expression) !in expressions ==> r.value == expression
    {
      match variant
      case AsWritten => Err(NameError("expressions"))
      case Corrected => Ok(if Lower(expression) in expressions then expressions[Lower(expression)] else expression)
    }

    /** `replace_expressions`: every key, in the dictionary's order, replaced by its value in the running string. */
    method ReplaceExpressions(expression: string, order: seq<string>) returns (r: string)
      requires IsOrderOf(order, expressions)
      ensures r == Substituted(expression, order, expressions)
    {
      r := expression;
      for i := 0 to |order|
        invariant Substituted(expression, order, expressions) == Substituted(r, order[i..], expressions)
      {
        assert order[i..][0] == order[i] && order[i..][1..] == order[i + 1..];
        r := ReplaceAll(r, order[i], expressions[order[i]]);
      }
      assert order[|order|..] == [];
    }
  }

  /** For every dictionary and name the lookup as written fails, and the corrected one succeeds. */
  lemma GetExpressionDiscrepancy(d: ExpressionsDict, expression: string)
    ensures d.GetExpression(AsWritten, expression).Err?
    ensures d.GetExpression(Corrected, expression).Ok?
  {
  }

  /** With no expressions, substitution is the identity. */
  lemma EmptyDictionaryIdentity(d: ExpressionsDict, expression: string, order: seq<string>)
    requires d.expressions == map[] && IsOrderOf(order, d.expressions)
    ensures Substituted(expression, order, d.expressions) == expression
  {
  }
}
