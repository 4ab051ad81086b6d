/**
 Evaluation of branch nodes at run time, and the type rules under which the definition contract
 accepts their cases.
 */
module Branch {
  import opened Json

  datatype Operator =
    | Eq | Neq | Gt | Gte | Lt | Lte
    | Contains | NotContains | StartsWith | EndsWith | HasKey | NotHasKey
    | OtherOperator(name: string)

  // path is the dotted path split at the dots; it is empty when the case has no path.
  datatype Case = Case(route: string, path: seq<string>, op: Operator, value: Value)

  datatype Outcome = Took(route: string) | PathNotFound | OperatorMismatch

  // ---------------------------------------------------------------- evaluation

  function LookupPath(value: Value, path: seq<string>): Option<Value> {
    if path == [] then Some(value)
    else if value.Obj? && path[0] in value.members then LookupPath(value.members[path[0]], path[1..])
    else None
  }

  predicate ComparableKinds(l: Value, r: Value) {
    if Rational(l).Some? || Rational(r).Some? then Rational(l).Some? && Rational(r).Some?
    else
      match l
      case Null => r.Null?
      case Str(_) => r.Str?
      case Bool(_) => r.Bool?
      case Arr(_) => r.Arr?
      case Obj(_) => r.Obj?
      case Num(_) => false
  }

  predicate HasSubstring(s: string, part: string) {
    part <= s || (s != [] && HasSubstring(s[1..], part))
  }

  predicate HasSuffix(s: string, part: string) {
    |part| <= |s| && s[|s| - |part|..] == part
  }

  // Whether some item equals the value; the first comparison that fails decides.
  function ContainsItem(items: seq<Value>, value: Value): Option<bool> {
    if items == [] then Some(false)
    else
      var head := EqualJson(items[0], value);
      if head != Some(false) then head else ContainsItem(items[1..], value)
  }

  // compareBranch: Err when the operator does not apply to the operands.
  function Compare(actual: Value, op: Operator, expected: Value): Result<bool> {
    match op
    case Eq => if ComparableKinds(actual, expected) then Known(EqualJson(actual, expected), false) else Err
    case Neq => if ComparableKinds(actual, expected) then Known(EqualJson(actual, expected), true) else Err
    case Gt => Ordered(actual, expected, (x, y) => x > y)
    case Gte => Ordered(actual, expected, (x, y) => x >= y)
    case Lt => Ordered(actual, expected, (x, y) => x < y)
    case Lte => Ordered(actual, expected, (x, y) => x <= y)
    case Contains => ContainsValue(actual, expected, false)
    case NotContains => ContainsValue(actual, expected, true)
    case StartsWith => if actual.Str? && expected.Str? then Ok(expected.s <= actual.s) else Err
    case EndsWith => if actual.Str? && expected.Str? then Ok(HasSuffix(actual.s, expected.s)) else Err
    case HasKey => if actual.Obj? && expected.Str? then Ok(expected.s in actual.members) else Err
    case NotHasKey => if actual.Obj? && expected.Str? then Ok(expected.s !in actual.members) else Err
    case OtherOperator(_) => Err
  }

  function Known(answer: Option<bool>, negate: bool): Result<bool> {
    match answer
    case None => Err
    case Some(b) => Ok(b != negate)
  }

  function Ordered(actual: Value, expected: Value, holds: (real, real) -> bool): Result<bool> {
    if Rational(actual).Some? && Rational(expected).Some?
    then Ok(holds(Rational(actual).value, Rational(expected).value))
    else Err
  }

  function ContainsValue(actual: Value, expected: Value, negate: bool): Result<bool> {
    match actual
    case Str(s) => if expected.Str? then Ok(HasSubstring(s, expected.s) != negate) else Err
    case Arr(items) => Known(ContainsItem(items, expected), negate)
    case _ => Err
  }

  // What one case does: None when it does not match, otherwise what the branch answers.
  function TryCase(c: Case, value: Value): Option<Outcome> {
    match LookupPath(value, c.path)
    case None => Some(PathNotFound)
    case Some(actual) =>
      match Compare(actual, c.op, c.value)
      case Err => Some(OperatorMismatch)
      case Ok(matched) => if matched then Some(Took(c.route)) else None
  }

  function Evaluate(cases: seq<Case>, fallback: string, value: Value): Outcome {
    if cases == [] then Took(fallback)
    else
      match TryCase(cases[0], value)
      case Some(answer) => answer
      case None => Evaluate(cases[1..], fallback, value)
  }

  // The loop of evaluateBranch: the first case that decides wins, and otherwise the default route.
  method EvaluateBranch(cases: seq<Case>, fallback: string, value: Value) returns (r: Outcome)
    ensures r == Evaluate(cases, fallback, value)
    ensures (exists k :: 0 <= k < |cases| && Decides(cases, value, k) && TryCase(cases[k], value) == Some(r))
            || ((forall k :: 0 <= k < |cases| ==> TryCase(cases[k], value).None?) && r == Took(fallback))
  {
    for k := 0 to |cases|
      invariant forall j :: 0 <= j < k ==> TryCase(cases[j], value).None?
      invariant Evaluate(cases, fallback, value) == Evaluate(cases[k..], fallback, value)
    {
      var answer := TryCase(cases[k], value);
      if answer.Some? {
        assert Decides(cases, value, k);
        return answer.value;
      }
    }
    r := Took(fallback);
  }

  // Case k is the first that does not pass the value on.
  ghost predicate Decides(cases: seq<Case>, value: Value, k: nat)
    requires k < |cases|
  {
    TryCase(cases[k], value).Some? && forall j :: 0 <= j < k ==> TryCase(cases[j], value).None?
  }

  // A route that a branch declares.
  predicate Declares(cases: seq<Case>, fallback: string, route: string) {
    route == fallback || exists k :: 0 <= k < |cases| && cases[k].route == route
  }

  // A branch never takes a route it does not declare.
  lemma {:induction false} TakesDeclaredRoute(cases: seq<Case>, fallback: string, value: Value)
    ensures var r := Evaluate(cases, fallback, value); r.Took? ==> Declares(cases, fallback, r.route)
  {
    if cases != [] && TryCase(cases[0], value).None? {
      TakesDeclaredRoute(cases[1..], fallback, value);
      var r := Evaluate(cases[1..], fallback, value);
      if r.Took? && r.route != fallback {
        var k :| 0 <= k < |cases[1..]| && cases[1..][k].route == r.route;
        assert cases[k + 1].route == r.route;
      }
    } else if cases != [] {
      assert cases[0] == cases[0];
    }
  }

  // ---------------------------------------------------------------- type rules of the contract

  predicate OperatorAllowed(t: DataType, op: Operator) {
    match t
    case TString => op in {Eq, Neq, Contains, NotContains, StartsWith, EndsWith}
    case TInteger => op in {Eq, Neq, Gt, Gte, Lt, Lte}
    case TNumber => op in {Eq, Neq, Gt, Gte, Lt, Lte}
    case TBoolean => op in {Eq, Neq}
    case TArray => op in {Eq, Neq, Contains, NotContains}
    case TObject => op in {Eq, Neq, HasKey, NotHasKey}
  }

  // validDSLBranchComparison
  predicate ValidComparison(t: DataType, op: Operator, expected: Value) {
    OperatorAllowed(t, op) &&
    match t
    case TString => LiteralType(expected) == Some(TString)
    case TInteger => LiteralType(expected) in {Some(TInteger), Some(TNumber)}
    case TNumber => LiteralType(expected) in {Some(TInteger), Some(TNumber)}
    case TBoolean => LiteralType(expected) == Some(TBoolean)
    case TArray => op == Contains || op == NotContains || LiteralType(expected) == Some(TArray)
    case TObject => if op == HasKey || op == NotHasKey then LiteralType(expected) == Some(TString)
                    else LiteralType(expected) == Some(TObject)
  }

  // What a comparison means, said without the evaluator.
  ghost predicate Means(actual: Value, op: Operator, expected: Value) {
    match op
    case Eq => actual == expected
    case Neq => actual != expected
    case Gt => actual.Num? && expected.Num? && actual.n.Exact? && expected.n.Exact? && actual.n.value > expected.n.value
    case Gte => actual.Num? && expected.Num? && actual.n.Exact? && expected.n.Exact? && actual.n.value >= expected.n.value
    case Lt => actual.Num? && expected.Num? && actual.n.Exact? && expected.n.Exact? && actual.n.value < expected.n.value
    case Lte => actual.Num? && expected.Num? && actual.n.Exact? && expected.n.Exact? && actual.n.value <= expected.n.value
    case Contains => Holds(actual, expected)
    case NotContains => !Holds(actual, expected)
    case StartsWith => actual.Str? && expected.Str? && exists rest :: actual.s == expected.s + rest
    case EndsWith => actual.Str? && expected.Str? && exists rest :: actual.s == rest + expected.s
    case HasKey => actual.Obj? && expected.Str? && expected.s in actual.members.Keys
    case NotHasKey => actual.Obj? && expected.Str? && expected.s !in actual.members.Keys
    case OtherOperator(_) => false
  }

  ghost predicate Holds(actual: Value, expected: Value) {
    || (actual.Arr? && expected in actual.items)
    || (actual.Str? && expected.Str? && exists a, b :: actual.s == a + expected.s + b)
  }

  lemma {:induction false} SubstringMeans(s: string, part: string)
    ensures HasSubstring(s, part) <==> exists a, b :: s == a + part + b
  {
    if part <= s {
      assert s == [] + part + s[|part|..];
    } else if s != [] {
      SubstringMeans(s[1..], part);
      if HasSubstring(s[1..], part) {
        var a, b :| s[1..] == a + part + b;
        assert s == ([s[0]] + a) + part + b;
      }
      forall a, b | s == a + part + b ensures HasSubstring(s[1..], part) {
        assert a == [] ==> a + part + b == part + b;
        assert s[1..] == a[1..] + part + b;
      }
    } else {
      forall a, b ensures s != a + part + b {
        assert |a + part + b| >= |part| > 0;
      }
    }
  }

  lemma {:induction false} ContainsItemMeans(items: seq<Value>, value: Value)
    requires forall i :: 0 <= i < |items| ==> Decodable(items[i])
    ensures ContainsItem(items, value) == Some(value in items)
  {
    if items != [] {
      EqualJsonDecides(items[0], value);
      ContainsItemMeans(items[1..], value);
      assert items == [items[0]] + items[1..];
    }
  }

  // The actual value has the declared type and the literal can be compared with it.
  ghost predicate WellTyped(t: DataType, actual: Value, op: Operator, expected: Value) {
    && Decodable(actual) && RuntimeType(actual).Some? && Compatible(RuntimeType(actual).value, t)
    && ValidComparison(t, op, expected)
  }

  // A number literal that the contract accepts but that no comparison can use.
  predicate Unusable(t: DataType, expected: Value) {
    (t == TInteger || t == TNumber) && Rational(expected).None?
  }

  // A well-typed comparison fails exactly on such a literal, and otherwise means what its operator says.
  lemma CompareMeans(t: DataType, actual: Value, op: Operator, expected: Value)
    requires WellTyped(t, actual, op, expected)
    ensures Compare(actual, op, expected) ==
            if Unusable(t, expected) then Err else Ok(Means(actual, op, expected))
  {
    EqualJsonDecides(actual, expected);
    if actual.Arr? && (op == Contains || op == NotContains) {
      ContainsItemMeans(actual.items, expected);
    }
    if actual.Str? && expected.Str? {
      SubstringMeans(actual.s, expected.s);
      PrefixAndSuffix(actual.s, expected.s);
    }
  }

  lemma PrefixAndSuffix(s: string, part: string)
    ensures part <= s <==> exists rest :: s == part + rest
    ensures HasSuffix(s, part) <==> exists rest :: s == rest + part
  {
    if part <= s {
      assert s == part + s[|part|..];
    }
    if HasSuffix(s, part) {
      assert s == s[..|s| - |part|] + part;
    }
  }

  // The route a well-typed branch takes, said without the evaluator: that of the first case whose
  // comparison holds, or the default; None when an unusable literal is met first.
  ghost function ExpectedRoute(t: DataType, cases: seq<Case>, fallback: string, value: Value): Option<string> {
    if cases == [] then Some(fallback)
    else if Unusable(t, cases[0].value) then None
    else if Means(value, cases[0].op, cases[0].value) then Some(cases[0].route)
    else ExpectedRoute(t, cases[1..], fallback, value)
  }

  // Branch type soundness, for branches whose cases have no path.
  lemma {:induction false} BranchTypeSound(t: DataType, cases: seq<Case>, fallback: string, value: Value)
    requires forall k :: 0 <= k < |cases| ==> cases[k].path == [] && WellTyped(t, value, cases[k].op, cases[k].value)
    ensures Evaluate(cases, fallback, value) ==
            match ExpectedRoute(t, cases, fallback, value) case Some(r) => Took(r) case None => OperatorMismatch
    ensures (forall k :: 0 <= k < |cases| ==> !Unusable(t, cases[k].value)) ==> Evaluate(cases, fallback, value).Took?
  {
    if cases != [] {
      CompareMeans(t, value, cases[0].op, cases[0].value);
      BranchTypeSound(t, cases[1..], fallback, value);
    }
  }

  // Such a literal: the contract accepts the comparison x > 1e9999999, and it fails on every number x.
  lemma OversizedMismatch(x: real, fallback: string)
    ensures var cases := [Case("a", [], Gt, Num(Oversized("1e9999999")))];
            && WellTyped(TNumber, Num(Exact(x)), cases[0].op, cases[0].value)
            && Evaluate(cases, fallback, Num(Exact(x))) == OperatorMismatch
  {
    var big := Num(Oversized("1e9999999"));
    CompareMeans(TNumber, Num(Exact(x)), Gt, big);
  }
}
