/**
 Decoded JSON values, the data types of the runtime workflow language, and equality.
 */
module Json {
  // A number literal: either the rational it denotes, or a literal whose exponent big.Rat refuses.
  datatype Number = Exact(value: real) | Oversized(text: string)

  datatype Value =
    | Null
    | Bool(b: bool)
    | Num(n: Number)
    | Str(s: string)
    | Arr(items: seq<Value>)
    | Obj(members: map<string, Value>)

  datatype DataType = TString | TInteger | TNumber | TBoolean | TObject | TArray

  datatype Option<+T> = None | Some(value: T)

  datatype Result<+T> = Ok(value: T) | Err {
    predicate IsFailure() { Err? }
    function PropagateFailure<U>(): Result<U>
      requires Err?
    {
      Err
    }
    function Extract(): T
      requires Ok?
    {
      value
    }
  }

  predicate IsInteger(x: real) {
    x.Floor as real == x
  }

  // The type the engine gives a value that a worker returns.
  function RuntimeType(v: Value): Option<DataType> {
    match v
    case Null => None
    case Bool(_) => Some(TBoolean)
    case Num(Exact(x)) => Some(if IsInteger(x) then TInteger else TNumber)
    case Num(Oversized(_)) => None
    case Str(_) => Some(TString)
    case Arr(_) => Some(TArray)
    case Obj(_) => Some(TObject)
  }

  // The type the definition contract gives a literal: it also accepts oversized numbers.
  function LiteralType(v: Value): Option<DataType> {
    match v
    case Num(Oversized(_)) => Some(TNumber)
    case _ => RuntimeType(v)
  }

  predicate Compatible(source: DataType, target: DataType) {
    source == target || (source == TInteger && target == TNumber)
  }

  // ---------------------------------------------------------------- equality

  function Rational(v: Value): Option<real> {
    match v
    case Num(Exact(x)) => Some(x)
    case _ => None
  }

  // Every number anywhere in the value is a rational.
  predicate Decodable(v: Value) {
    match v
    case Num(n) => n.Exact?
    case Arr(items) => forall i :: 0 <= i < |items| ==> Decodable(items[i])
    case Obj(members) => forall k :: k in members ==> Decodable(members[k])
    case _ => true
  }

  // equalJSON: None when it meets a value it cannot compare.
  function EqualJson(l: Value, r: Value): Option<bool> {
    if Rational(l).Some? || Rational(r).Some? then
      Some(Rational(l) == Rational(r))
    else
      match l
      case Null => Some(r.Null?)
      case Str(_) => Some(l == r)
      case Bool(_) => Some(l == r)
      case Arr(items) => if r.Arr? && |items| == |r.items| then EqualItems(items, r.items) else Some(false)
      case Obj(members) =>
        // The members are compared in whatever order the map is walked: the result reports what
        // cannot be compared, and otherwise whether every member has an equal partner.
        if !r.Obj? || |members| != |r.members| then Some(false)
        else if exists k :: k in members && k in r.members && EqualJson(members[k], r.members[k]).None? then None
        else Some(forall k :: k in members ==> k in r.members && EqualJson(members[k], r.members[k]) == Some(true))
      case Num(_) => None
  }

  function EqualItems(ls: seq<Value>, rs: seq<Value>): Option<bool>
    requires |ls| == |rs|
  {
    if ls == [] then Some(true)
    else
      var head := EqualJson(ls[0], rs[0]);
      if head != Some(true) then head else EqualItems(ls[1..], rs[1..])
  }

  // What equality of decodable values means: same shape, equal rationals.
  // Values of this model are equal exactly when they are the same, so the comparison is an equivalence.
  lemma {:induction false} EqualJsonDecides(l: Value, r: Value)
    requires Decodable(l)
    ensures EqualJson(l, r) == Some(l == r)
    decreases l
  {
    match l
    case Arr(items) =>
      if r.Arr? && |items| == |r.items| {
        EqualItemsDecides(l, items, r.items);
      }
    case Obj(members) =>
      if r.Obj? && |members| == |r.members| {
        forall k | k in members && k in r.members ensures EqualJson(members[k], r.members[k]) == Some(members[k] == r.members[k]) {
          EqualJsonDecides(members[k], r.members[k]);
        }
        SameMembers(members, r.members);
      }
    case _ =>
  }

  lemma {:induction false} EqualItemsDecides(whole: Value, ls: seq<Value>, rs: seq<Value>)
    requires |ls| == |rs| && forall i :: 0 <= i < |ls| ==> Decodable(ls[i]) && ls[i] < whole
    ensures EqualItems(ls, rs) == Some(ls == rs)
    decreases whole, |ls|
  {
    if ls != [] {
      EqualJsonDecides(ls[0], rs[0]);
      EqualItemsDecides(whole, ls[1..], rs[1..]);
      assert ls == [ls[0]] + ls[1..] && rs == [rs[0]] + rs[1..];
    }
  }

  // Maps of the same size that agree on every key of the first are equal.
  lemma SameMembers(ls: map<string, Value>, rs: map<string, Value>)
    requires |ls| == |rs|
    ensures (forall k :: k in ls ==> k in rs && ls[k] == rs[k]) <==> ls == rs
  {
    if forall k :: k in ls ==> k in rs && ls[k] == rs[k] {
      assert ls.Keys <= rs.Keys;
      SubsetOfSameSize(ls.Keys, rs.Keys);
    }
  }

  lemma {:induction false} SubsetOfSameSize<T>(a: set<T>, b: set<T>)
    requires a <= b && |a| == |b|
    ensures a == b
  {
    if a != b {
      var x :| x in b && x !in a;
      SubsetIsSmaller(a, b - {x});
    }
  }

  lemma {:induction false} SubsetIsSmaller<T>(a: set<T>, b: set<T>)
    requires a <= b
    ensures |a| <= |b|
  {
    if a != {} {
      var x :| x in a;
      SubsetIsSmaller(a - {x}, b - {x});
    }
  }
}
