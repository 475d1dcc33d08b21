/** Branch conditions: packages/engine/src/core/conditions.ts. */
module Conditions {
  import opened Base
  import opened Json
  import opened JsonText
  import opened Templates
  import TemplateLaws

  datatype Operator =
    | Exists | NotExists | IsTrue | IsFalse
    | Equals | NotEquals | Contains | NotContains
    | Matches | IsIn | Gt | Gte | Lt | Lte

  datatype Condition = Condition(path: string, operator: Operator, value: Option<Json>)

  /**
    The parts of the host language that the conditions only call: `toLowerCase`, `RegExp` (nothing for
    a pattern that does not compile), and `Number` of a string (nothing when it is not finite).
   */
  datatype Host = Host(
    lower: string -> string,
    regex: (string, string) -> Option<bool>,
    number: string -> Option<real>)

  function AsNumber(host: Host, v: Option<Json>): Option<real> {
    match v
    case Some(Num(n)) => Some(n as real)
    case Some(Str(s)) => if Trim(s) == "" then None else host.number(s)
    case _ => None
  }

  /** `JSON.stringify(v) === JSON.stringify(w)`. */
  predicate SameText(v: Json, w: Json) { Stringify(v) == Stringify(w) }

  /** Somewhere in `items` there is a value with the text of `w`. */
  predicate SomeSameText(items: seq<Json>, w: Json) {
    items != [] && (SameText(items[0], w) || SomeSameText(items[1..], w))
  }

  predicate StartsWith(s: string, t: string) { t <= s }

  predicate Includes(s: string, t: string)
    decreases |s|
  {
    StartsWith(s, t) || (s != "" && Includes(s[1..], t))
  }

  predicate EqualTo(actual: Option<Json>, expected: Json) {
    match actual
    case Some(Arr(items)) => SameText(Arr(items), expected)
    case Some(Obj(fields)) => SameText(Obj(fields), expected)
    case _ => actual == Some(expected)
  }

  predicate DiffersFrom(actual: Option<Json>, expected: Json) {
    match actual
    case Some(Arr(items)) => !SameText(Arr(items), expected)
    case Some(Obj(fields)) => !SameText(Obj(fields), expected)
    case _ => actual != Some(expected)
  }

  predicate ContainsValue(host: Host, actual: Option<Json>, expected: Json) {
    match actual
    case Some(Arr(items)) => SomeSameText(items, expected)
    case _ => Includes(host.lower(Shown(actual)), host.lower(Shown(Some(expected))))
  }

  predicate LacksValue(host: Host, actual: Option<Json>, expected: Json) {
    match actual
    case Some(Arr(items)) => !SomeSameText(items, expected)
    case _ => !Includes(host.lower(Shown(actual)), host.lower(Shown(Some(expected))))
  }

  function Compare(operator: Operator, a: Option<real>, b: Option<real>): bool {
    a.Some? && b.Some? &&
    match operator
    case Gt => a.value > b.value
    case Gte => a.value >= b.value
    case Lt => a.value < b.value
    case _ => a.value <= b.value
  }

  function Take(s: string, n: nat): string { if |s| <= n then s else s[..n] }

  /** `evaluateCondition`, once the path has been looked up. */
  predicate Holds(host: Host, operator: Operator, actual: Option<Json>, expected: Json) {
    match operator
    case Exists => actual.Some? && !actual.value.Null?
    case NotExists => actual.None? || actual.value.Null?
    case IsTrue => actual == Some(Bool(true)) || actual == Some(Str("true"))
    case IsFalse => actual == Some(Bool(false)) || actual == Some(Str("false"))
    case Equals => EqualTo(actual, expected)
    case NotEquals => DiffersFrom(actual, expected)
    case Contains => ContainsValue(host, actual, expected)
    case NotContains => LacksValue(host, actual, expected)
    case Matches => host.regex(Take(Shown(Some(expected)), 500), Shown(actual)).UnwrapOr(false)
    case IsIn => expected.Arr? && SomeSameText(expected.items, actual.UnwrapOr(Null))
    case _ => Compare(operator, AsNumber(host, actual), AsNumber(host, Some(expected)))
  }

  predicate Evaluate(host: Host, condition: Condition, ctx: Json) {
    Holds(host, condition.operator, Resolved(ctx, condition.path), condition.value.UnwrapOr(Null))
  }

  // ---------------------------------------------------------------- what the operators mean

  lemma {:induction false} SameTextIsMembership(items: seq<Json>, w: Json)
    ensures SomeSameText(items, w) <==> w in items
  {
    if items != [] {
      StringifyIsInjective(items[0], w);
      SameTextIsMembership(items[1..], w);
      assert w in items <==> w == items[0] || w in items[1..];
    }
  }

  /** Comparing texts decides deep equality, for every kind of value. */
  lemma {:induction false} EqualsIsEquality(host: Host, actual: Option<Json>, expected: Json)
    ensures Holds(host, Equals, actual, expected) <==> actual == Some(expected)
  {
    if actual.Some? {
      StringifyIsInjective(actual.value, expected);
    }
  }

  lemma {:induction false} ContainsIsMembership(host: Host, items: seq<Json>, expected: Json)
    ensures Holds(host, Contains, Some(Arr(items)), expected) <==> expected in items
  {
    SameTextIsMembership(items, expected);
  }

  lemma {:induction false} InIsMembership(host: Host, actual: Option<Json>, expected: Json)
    ensures Holds(host, IsIn, actual, expected) <==> expected.Arr? && actual.UnwrapOr(Null) in expected.items
  {
    if expected.Arr? {
      SameTextIsMembership(expected.items, actual.UnwrapOr(Null));
    }
  }

  /** `equals v` and `in [v]` agree, except on a path that finds nothing when `v` is null. */
  lemma {:induction false} EqualsAgreesWithIn(host: Host, actual: Option<Json>, v: Json)
    ensures (Holds(host, Equals, actual, v) <==> Holds(host, IsIn, actual, Arr([v])))
      <==> !(actual.None? && v.Null?)
  {
    EqualsIsEquality(host, actual, v);
    InIsMembership(host, actual, Arr([v]));
  }

  /** An array contains a value exactly when the value is in the array. */
  lemma {:induction false} ContainsIsConverseOfIn(host: Host, items: seq<Json>, v: Json)
    ensures Holds(host, Contains, Some(Arr(items)), v) <==> Holds(host, IsIn, Some(v), Arr(items))
  {
    ContainsIsMembership(host, items, v);
    InIsMembership(host, Some(v), Arr(items));
  }

  function Negated(operator: Operator): Operator {
    match operator
    case Exists => NotExists
    case Equals => NotEquals
    case Contains => NotContains
    case other => other
  }

  /** Each `not_` operator is the exact complement of its positive form, in every context. */
  lemma {:induction false} NotOperatorsAreComplements(host: Host, c: Condition, ctx: Json)
    requires c.operator.Exists? || c.operator.Equals? || c.operator.Contains?
    ensures Evaluate(host, c.(operator := Negated(c.operator)), ctx) <==> !Evaluate(host, c, ctx)
  {
  }

  /**
    The four orderings: all false unless both sides are numbers, and then `lte` is the complement of
    `gt`, `gte` of `lt`, and exactly one of `lt`, `gt` and equality of the numbers holds.
   */
  lemma {:induction false} OrderingsAreTotalOnNumbers(host: Host, actual: Option<Json>, expected: Json)
    ensures var a, b := AsNumber(host, actual), AsNumber(host, Some(expected));
      var gt, gte := Holds(host, Gt, actual, expected), Holds(host, Gte, actual, expected);
      var lt, lte := Holds(host, Lt, actual, expected), Holds(host, Lte, actual, expected);
      if a.Some? && b.Some? then lte == !gt && gte == !lt && (gte && lte <==> a == b) && !(gt && lt)
      else !gt && !gte && !lt && !lte
  {
  }

  lemma {:induction false} TrimsToNothing(s: string)
    ensures Trim(s) == "" <==> Blank(s)
  {
    var front, back := TemplateLaws.TrimStrips(s);
    var t := Trim(s);
    assert forall c :: c in t ==> c in s;
    assert t != "" ==> t[0] in t;
  }

  /** The number a value is read as: itself, or what the host reads in a string that is not blank. */
  predicate ReadAs(host: Host, v: Option<Json>, x: real) {
    match v
    case Some(Num(n)) => x == n as real
    case Some(Str(s)) => !Blank(s) && host.number(s) == Some(x)
    case _ => false
  }

  lemma {:induction false} AsNumberReads(host: Host, v: Option<Json>, x: real)
    ensures AsNumber(host, v) == Some(x) <==> ReadAs(host, v, x)
  {
    if v.Some? && v.value.Str? {
      TrimsToNothing(v.value.s);
    }
  }

  /** Two values that are read as numbers are ordered as those numbers are. */
  lemma {:induction false} OrderingsCompare(host: Host, actual: Option<Json>, expected: Json, x: real, y: real)
    requires ReadAs(host, actual, x) && ReadAs(host, Some(expected), y)
    ensures Holds(host, Gt, actual, expected) <==> x > y
    ensures Holds(host, Gte, actual, expected) <==> x >= y
    ensures Holds(host, Lt, actual, expected) <==> x < y
    ensures Holds(host, Lte, actual, expected) <==> x <= y
  {
    AsNumberReads(host, actual, x);
    AsNumberReads(host, Some(expected), y);
  }

  /** Neither a number nor a text that the host reads as one. */
  predicate NotANumber(host: Host, v: Option<Json>) {
    match v
    case Some(Num(_)) => false
    case Some(Str(s)) => Blank(s) || host.number(s).None?
    case _ => true
  }

  /** Where one of them is not read as a number, no ordering holds. */
  lemma {:induction false} OrderingsNeedNumbers(host: Host, operator: Operator, actual: Option<Json>, expected: Json)
    requires operator.Gt? || operator.Gte? || operator.Lt? || operator.Lte?
    requires NotANumber(host, actual) || NotANumber(host, Some(expected))
    ensures !Holds(host, operator, actual, expected)
  {
    if actual.Some? && actual.value.Str? {
      TrimsToNothing(actual.value.s);
    }
    if expected.Str? {
      TrimsToNothing(expected.s);
    }
  }

  lemma {:induction false} OrderingsOnIntegers(host: Host, n: SafeInt, v: SafeInt)
    ensures Holds(host, Gt, Some(Num(n)), Num(v)) <==> n > v
    ensures Holds(host, Gte, Some(Num(n)), Num(v)) <==> n >= v
    ensures Holds(host, Lt, Some(Num(n)), Num(v)) <==> n < v
    ensures Holds(host, Lte, Some(Num(n)), Num(v)) <==> n <= v
  {
    OrderingsCompare(host, Some(Num(n)), Num(v), n as real, v as real);
  }

  // ---------------------------------------------------------------- text

  /** `s` is `t` with text in front of it and behind it. */
  predicate Surrounds(s: string, front: string, t: string, back: string) { s == front + t + back }

  lemma {:induction false} IncludesExactly(s: string, t: string)
    ensures Includes(s, t) <==> exists front, back :: Surrounds(s, front, t, back)
  {
    if StartsWith(s, t) {
      assert Surrounds(s, "", t, s[|t|..]);
    } else if s != "" {
      IncludesExactly(s[1..], t);
      if Includes(s[1..], t) {
        var front, back :| Surrounds(s[1..], front, t, back);
        assert Surrounds(s, [s[0]] + front, t, back);
      }
      forall front, back | Surrounds(s, front, t, back) ensures Includes(s[1..], t) {
        assert front != "" && Surrounds(s[1..], front[1..], t, back);
      }
    }
  }

  /** On anything but an array, `contains` finds the expected text anywhere, both as the host writes them in lower case. */
  lemma {:induction false} ContainsIsSubstring(host: Host, actual: Option<Json>, expected: Json)
    requires actual.Some? ==> !actual.value.Arr?
    ensures var s, t := host.lower(Shown(actual)), host.lower(Shown(Some(expected)));
      Holds(host, Contains, actual, expected) <==> exists front, back :: Surrounds(s, front, t, back)
  {
    IncludesExactly(host.lower(Shown(actual)), host.lower(Shown(Some(expected))));
  }

  /** A pattern is applied to the text, by its first 500 characters; one that does not compile matches nothing. */
  lemma {:induction false} MatchesExactly(host: Host, s: string, pattern: string)
    ensures Holds(host, Matches, Some(Str(s)), Str(pattern)) <==>
      host.regex(if |pattern| > 500 then pattern[..500] else pattern, s) == Some(true)
  {
  }
}
