/**
 Decimal numbers in canonical JSON: what a literal of section 6 of RFC 8259 is worth, and the one
 text that stands for its value.
 */
module Numbers {
  import opened Json

  const MAX_EXPONENT := 10000

  // ---------------------------------------------------------------- digits

  predicate IsDigit(c: char) {
    '0' <= c <= '9'
  }

  ghost predicate IsDigits(s: string) {
    forall i :: 0 <= i < |s| ==> IsDigit(s[i])
  }

  function Worth(c: char): (n: nat)
    requires IsDigit(c)
    ensures n < 10
  {
    (c as int) - ('0' as int)
  }

  // The number that a string of digits denotes.
  ghost function Num(s: string): nat
    requires IsDigits(s)
  {
    if s == [] then 0 else Num(s[..|s| - 1]) * 10 + Worth(s[|s| - 1])
  }

  function DigitOf(n: nat): (c: char)
    requires n < 10
    ensures IsDigit(c) && Worth(c) == n
  {
    (n + ('0' as int)) as char
  }

  // The decimal text of a number.
  function Decimal(n: nat): (s: string)
    ensures IsDigits(s) && Num(s) == n && |s| >= 1 && (s[0] == '0' ==> n == 0 && s == "0")
  {
    if n < 10 then [DigitOf(n)]
    else
      var rest := Decimal(n / 10);
      var s := rest + [DigitOf(n % 10)];
      assert s[..|rest|] == rest;
      s
  }

  function TrimLeft(s: string): (r: string)
    ensures |r| <= |s| && r == s[|s| - |r|..] && (forall i :: 0 <= i < |s| - |r| ==> s[i] == '0') && (r != [] ==> r[0] != '0')
  {
    if s != [] && s[0] == '0' then TrimLeft(s[1..]) else s
  }

  function TrimRight(s: string): (r: string)
    ensures |r| <= |s| && r == s[..|r|] && (forall i :: |r| <= i < |s| ==> s[i] == '0') && (r != [] ==> r[|r| - 1] != '0')
  {
    if s != [] && s[|s| - 1] == '0' then TrimRight(s[..|s| - 1]) else s
  }

  function Zeros(n: nat): (s: string)
    ensures |s| == n && forall i :: 0 <= i < n ==> s[i] == '0'
  {
    if n == 0 then "" else "0" + Zeros(n - 1)
  }

  // ---------------------------------------------------------------- literals

  datatype Sign = Plus | Minus | Unsigned

  datatype Exponent = NoExponent | Power(upper: bool, sign: Sign, digits: string)

  // frac is empty when there is no fraction.
  datatype Literal = Literal(neg: bool, whole: string, frac: string, exp: Exponent)

  // The grammar of numbers.
  ghost predicate WellFormed(l: Literal) {
    && IsDigits(l.whole) && l.whole != "" && (l.whole[0] == '0' ==> l.whole == "0") && IsDigits(l.frac)
    && (l.exp.Power? ==> IsDigits(l.exp.digits) && l.exp.digits != "")
  }

  function SignText(s: Sign): string {
    match s
    case Plus => "+"
    case Minus => "-"
    case Unsigned => ""
  }

  function Mantissa(l: Literal): string {
    l.whole + if l.frac == "" then "" else "." + l.frac
  }

  function ExponentText(e: Exponent): string {
    match e
    case NoExponent => ""
    case Power(upper, sign, digits) => (if upper then "E" else "e") + SignText(sign) + digits
  }

  function Text(l: Literal): string {
    (if l.neg then "-" else "") + Mantissa(l) + ExponentText(l.exp)
  }

  ghost function ExponentOf(e: Exponent): int
    requires e.Power? ==> IsDigits(e.digits)
  {
    match e
    case NoExponent => 0
    case Power(_, sign, digits) => if sign.Minus? then -(Num(digits) as int) else Num(digits)
  }

  // ---------------------------------------------------------------- values

  ghost function Ten(e: int): real
    decreases if e < 0 then -e else e
  {
    if e == 0 then 1.0 else if e > 0 then 10.0 * Ten(e - 1) else Ten(e + 1) / 10.0
  }

  lemma {:induction false} TenStep(e: int)
    ensures Ten(e + 1) == 10.0 * Ten(e) && Ten(e) > 0.0
    decreases if e < 0 then -e else e
  {
    if e > 0 {
      TenStep(e - 1);
    } else if e < 0 {
      TenStep(e + 1);
    }
  }

  // The value of digits scaled by a power of ten.
  ghost function Scaled(n: int, e: int): real {
    n as real * Ten(e)
  }

  lemma ScaleDown(n: int, e: int)
    ensures Scaled(n * 10, e) == Scaled(n, e + 1)
  {
    TenStep(e);
  }

  ghost function Signed(neg: bool, n: nat): int {
    if neg then -(n as int) else n
  }

  // What a literal is worth.
  ghost function ValueOf(l: Literal): real
    requires WellFormed(l)
  {
    Scaled(Signed(l.neg, Num(l.whole + l.frac)), ExponentOf(l.exp) - |l.frac|)
  }

  // ---------------------------------------------------------------- the canonical form

  // Zero, or digits without leading and trailing zeros times a power of ten.
  datatype Canon = Zero | Canon(neg: bool, digits: string, scale: int)

  ghost predicate ProperDigits(s: string) {
    IsDigits(s) && s != "" && s[0] != '0' && s[|s| - 1] != '0'
  }

  ghost predicate Proper(c: Canon) {
    c.Canon? ==> ProperDigits(c.digits)
  }

  ghost function ValueOfCanon(c: Canon): real
    requires Proper(c)
  {
    if c.Zero? then 0.0 else Scaled(Signed(c.neg, Num(c.digits)), c.scale)
  }

  function Reduce(neg: bool, digits: string, scale: int): (c: Canon)
    ensures c.Canon? ==> c.digits != ""
  {
    var left := TrimLeft(digits);
    if left == "" then Zero
    else
      var both := TrimRight(left);
      Canon(neg, both, scale + (|left| - |both|))
  }

  // How a canonical value is written.
  function Format(c: Canon): Literal
    requires c.Canon? ==> c.digits != ""
  {
    match c
    case Zero => Literal(false, "0", "", NoExponent)
    case Canon(neg, digits, scale) =>
      var adjusted := |digits| + scale;
      if scale == 0 then Literal(neg, digits, "", NoExponent)
      else if 0 < adjusted <= 21 then
        if adjusted >= |digits| then Literal(neg, digits + Zeros(adjusted - |digits|), "", NoExponent)
        else Literal(neg, digits[..adjusted], digits[adjusted..], NoExponent)
      else if -5 <= adjusted <= 0 then Literal(neg, "0", Zeros(-adjusted) + digits, NoExponent)
      else
        var e := adjusted - 1;
        Literal(neg, digits[..1], digits[1..], Power(false, if e < 0 then Minus else Unsigned, Decimal(if e < 0 then -e else e)))
  }

  lemma {:induction false} NumLeadingZeros(s: string, t: string)
    requires IsDigits(t) && forall i :: 0 <= i < |s| ==> s[i] == '0'
    ensures IsDigits(s + t) && Num(s + t) == Num(t)
  {
    if t == [] {
      assert s + t == s;
      if s != [] {
        NumLeadingZeros(s[..|s| - 1], []);
        assert s[..|s| - 1] + [] == s[..|s| - 1];
      }
    } else {
      NumLeadingZeros(s, t[..|t| - 1]);
      assert (s + t)[..|s + t| - 1] == s + t[..|t| - 1];
    }
  }

  // Trailing zeros move into the power of ten.
  lemma {:induction false} ScaledTrailingZeros(neg: bool, s: string, t: string, e: int)
    requires IsDigits(s) && forall i :: 0 <= i < |t| ==> t[i] == '0'
    ensures IsDigits(s + t) && Scaled(Signed(neg, Num(s + t)), e) == Scaled(Signed(neg, Num(s)), e + |t|)
  {
    if t == [] {
      assert s + t == s;
    } else {
      var rest := t[..|t| - 1];
      assert (s + t)[..|s + t| - 1] == s + rest;
      ScaledTrailingZeros(neg, s, rest, e + 1);
      ScaleDown(Signed(neg, Num(s + rest)), e);
    }
  }

  lemma TrimmedDigits(digits: string)
    requires IsDigits(digits)
    ensures IsDigits(TrimLeft(digits)) && IsDigits(TrimRight(TrimLeft(digits)))
    ensures TrimLeft(digits) != "" ==> ProperDigits(TrimRight(TrimLeft(digits)))
  {
  }

  lemma NothingIsZero(neg: bool, e: int)
    ensures Num("") == 0 && Scaled(Signed(neg, 0), e) == 0.0
  {
  }

  lemma TrimLeftKeeps(digits: string)
    requires IsDigits(digits)
    ensures IsDigits(TrimLeft(digits)) && Num(TrimLeft(digits)) == Num(digits)
  {
    hide Num, TrimLeft;
    var left := TrimLeft(digits);
    var zeros := digits[..|digits| - |left|];
    assert digits == zeros + left;
    NumLeadingZeros(zeros, left);
  }

  lemma TrimRightKeeps(neg: bool, left: string, scale: int)
    requires IsDigits(left)
    ensures IsDigits(TrimRight(left))
    ensures Scaled(Signed(neg, Num(left)), scale) == Scaled(Signed(neg, Num(TrimRight(left))), scale + (|left| - |TrimRight(left)|))
  {
    hide Num, Scaled, TrimRight;
    var both := TrimRight(left);
    var tail := left[|both|..];
    assert left == both + tail;
    ScaledTrailingZeros(neg, both, tail, scale);
  }

  // Reducing keeps the value.
  lemma ReduceKeepsValue(neg: bool, digits: string, scale: int)
    requires IsDigits(digits)
    ensures Proper(Reduce(neg, digits, scale))
    ensures ValueOfCanon(Reduce(neg, digits, scale)) == Scaled(Signed(neg, Num(digits)), scale)
  {
    hide Num, Scaled, TrimLeft, TrimRight, IsDigits, ProperDigits, Signed;
    TrimmedDigits(digits);
    TrimLeftKeeps(digits);
    var left := TrimLeft(digits);
    if left == "" {
      NothingIsZero(neg, scale);
      assert Reduce(neg, digits, scale) == Zero;
      assert Signed(neg, Num(digits)) == Signed(neg, 0);
    } else {
      TrimRightKeeps(neg, left, scale);
      assert Reduce(neg, digits, scale) == Canon(neg, TrimRight(left), scale + (|left| - |TrimRight(left)|));
    }
  }

  // ---------------------------------------------------------------- writing keeps the value

  // A written value is a well-formed literal worth the same.
  lemma FormatKeepsValue(c: Canon)
    requires Proper(c)
    ensures WellFormed(Format(c)) && ValueOf(Format(c)) == ValueOfCanon(c)
  {
    hide Num, Scaled, Decimal, Signed, Zeros;
    if c.Zero? {
      FormatZero();
    } else {
      var digits, adjusted := c.digits, |c.digits| + c.scale;
      if c.scale == 0 {
        assert digits + "" == digits;
      } else if 0 < adjusted <= 21 && adjusted >= |digits| {
        FormatWhole(c);
      } else if 0 < adjusted <= 21 {
        FormatPoint(c);
      } else if -5 <= adjusted <= 0 {
        FormatSmall(c);
      } else {
        FormatPower(c);
      }
    }
  }

  lemma FormatPoint(c: Canon)
    requires Proper(c) && c.Canon? && c.scale < 0 && 0 < |c.digits| + c.scale <= 21
    ensures WellFormed(Format(c)) && ValueOf(Format(c)) == ValueOfCanon(c)
  {
    hide Num, Scaled, Decimal, Signed;
    var digits, adjusted := c.digits, |c.digits| + c.scale;
    assert digits[..adjusted] + digits[adjusted..] == digits;
  }

  lemma FormatPower(c: Canon)
    requires Proper(c) && c.Canon? && c.scale != 0 && (|c.digits| + c.scale < -5 || |c.digits| + c.scale > 21)
    ensures WellFormed(Format(c)) && ValueOf(Format(c)) == ValueOfCanon(c)
  {
    hide Num, Scaled, Decimal, Signed;
    var digits, e := c.digits, |c.digits| + c.scale - 1;
    assert digits[..1] + digits[1..] == digits;
    assert ExponentOf(Power(false, if e < 0 then Minus else Unsigned, Decimal(if e < 0 then -e else e))) == e;
  }

  lemma FormatWhole(c: Canon)
    requires Proper(c) && c.Canon? && c.scale != 0 && |c.digits| <= |c.digits| + c.scale <= 21
    ensures WellFormed(Format(c)) && ValueOf(Format(c)) == ValueOfCanon(c)
  {
    hide Num, Scaled, Decimal, Signed;
    var digits, adjusted := c.digits, |c.digits| + c.scale;
    ScaledTrailingZeros(c.neg, digits, Zeros(adjusted - |digits|), 0);
    assert digits + Zeros(adjusted - |digits|) + "" == digits + Zeros(adjusted - |digits|);
  }

  lemma FormatSmall(c: Canon)
    requires Proper(c) && c.Canon? && c.scale != 0 && -5 <= |c.digits| + c.scale <= 0
    ensures WellFormed(Format(c)) && ValueOf(Format(c)) == ValueOfCanon(c)
  {
    hide Num, Scaled, Decimal, Signed;
    var digits, adjusted := c.digits, |c.digits| + c.scale;
    var zeros := "0" + Zeros(-adjusted);
    NumLeadingZeros(zeros, digits);
    assert "0" + (Zeros(-adjusted) + digits) == zeros + digits;
  }

  lemma FormatZero()
    ensures IsDigits("0") && "0" + "" == "0" && Num("0") == 0 && Signed(false, 0) == 0 && Scaled(0, 0) == 0.0
  {
    assert "0"[..0] == "";
  }

  // ---------------------------------------------------------------- one form per value

  lemma {:induction false} ScaleUp(n: int, e: int, k: nat) returns (m: int)
    ensures Scaled(n, e + k) == Scaled(m, e) && (k > 0 ==> m % 10 == 0) && (k == 0 ==> m == n)
    decreases k
  {
    if k == 0 {
      m := n;
    } else {
      ScaleDown(n, e + k - 1);
      m := ScaleUp(n * 10, e, k - 1);
    }
  }

  lemma SameScale(n: int, m: int, e: int)
    requires Scaled(n, e) == Scaled(m, e)
    ensures n == m
  {
    TenStep(e);
    assert (n - m) as real * Ten(e) == 0.0;
  }

  // The last digit decides divisibility by ten.
  lemma LastDigit(s: string)
    requires ProperDigits(s)
    ensures Num(s) % 10 != 0 && Num(s) > 0
  {
    assert Num(s) == Num(s[..|s| - 1]) * 10 + Worth(s[|s| - 1]);
  }

  // Digits without leading zeros are determined by their number.
  lemma {:induction false} DigitsUnique(s: string, t: string)
    requires IsDigits(s) && IsDigits(t) && Num(s) == Num(t)
    requires (s != "" ==> s[0] != '0') && (t != "" ==> t[0] != '0')
    ensures s == t
  {
    if s == "" || t == "" {
      if s != "" { PositiveNum(s); }
      if t != "" { PositiveNum(t); }
    } else {
      var a, b := s[..|s| - 1], t[..|t| - 1];
      assert Num(s) == Num(a) * 10 + Worth(s[|s| - 1]) && Num(t) == Num(b) * 10 + Worth(t[|t| - 1]);
      assert Num(a) == Num(b) && Worth(s[|s| - 1]) == Worth(t[|t| - 1]);
      DigitsUnique(a, b);
      assert s == a + [s[|s| - 1]] && t == b + [t[|t| - 1]];
    }
  }

  lemma {:induction false} PositiveNum(s: string)
    requires IsDigits(s) && s != "" && s[0] != '0'
    ensures Num(s) > 0
  {
    if |s| > 1 {
      PositiveNum(s[..|s| - 1]);
    } else {
      assert s[..0] == "";
    }
  }

  // Two canonical forms of the same value are the same.
  lemma CanonUnique(a: Canon, b: Canon)
    requires Proper(a) && Proper(b) && ValueOfCanon(a) == ValueOfCanon(b)
    ensures a == b
  {
    hide Scaled;
    if a.Canon? { LastDigit(a.digits); NotZero(Signed(a.neg, Num(a.digits)), a.scale); }
    if b.Canon? { LastDigit(b.digits); NotZero(Signed(b.neg, Num(b.digits)), b.scale); }
    if a.Canon? && b.Canon? {
      var n, m := Signed(a.neg, Num(a.digits)), Signed(b.neg, Num(b.digits));
      if a.scale >= b.scale {
        var k := ScaleUp(n, b.scale, a.scale - b.scale);
        SameScale(k, m, b.scale);
      } else {
        var k := ScaleUp(m, a.scale, b.scale - a.scale);
        SameScale(n, k, a.scale);
      }
      DigitsUnique(a.digits, b.digits);
    }
  }

  lemma NotZero(n: int, e: int)
    requires n != 0
    ensures Scaled(n, e) != 0.0
  {
    TenStep(e);
  }

  // ---------------------------------------------------------------- normalizing

  // The canonical form of a literal.
  function CanonOf(l: Literal, exponent: int): Canon {
    Reduce(l.neg, l.whole + l.frac, exponent - |l.frac|)
  }

  // What the normalizer answers for a literal: its one canonical text, unless its exponent is out of range.
  ghost function Normal(l: Literal): Result<string>
    requires WellFormed(l)
  {
    var e := ExponentOf(l.exp);
    if e < -MAX_EXPONENT || e > MAX_EXPONENT then Err
    else
      ReduceKeepsValue(l.neg, l.whole + l.frac, e - |l.frac|);
      Ok(Text(Format(CanonOf(l, e))))
  }

  lemma CanonKeepsValue(l: Literal)
    requires WellFormed(l)
    ensures var c := CanonOf(l, ExponentOf(l.exp)); Proper(c) && ValueOfCanon(c) == ValueOf(l)
  {
    hide Reduce, Num, Scaled, ValueOfCanon, Proper;
    ReduceKeepsValue(l.neg, l.whole + l.frac, ExponentOf(l.exp) - |l.frac|);
  }

  // ---------------------------------------------------------------- reading a literal

  // The first place of one of two characters, or the end.
  function FirstOf(s: string, a: char, b: char): (k: nat)
    ensures k <= |s| && (k < |s| ==> s[k] == a || s[k] == b) && forall i :: 0 <= i < k ==> s[i] != a && s[i] != b
  {
    if s == "" || s[0] == a || s[0] == b then 0 else 1 + FirstOf(s[1..], a, b)
  }

  lemma FirstOfIs(s: string, t: string, a: char, b: char)
    requires (forall i :: 0 <= i < |s| ==> s[i] != a && s[i] != b) && (t != "" ==> t[0] == a || t[0] == b)
    ensures FirstOf(s + t, a, b) == |s|
  {
    assert forall i :: 0 <= i < |s| ==> (s + t)[i] == s[i];
    assert t != "" ==> (s + t)[|s|] == t[0];
  }

  function ReadExponent(t: string): Exponent
    requires t != ""
  {
    var upper, rest := t[0] == 'E', t[1..];
    if rest != "" && rest[0] == '+' then Power(upper, Plus, rest[1..])
    else if rest != "" && rest[0] == '-' then Power(upper, Minus, rest[1..])
    else Power(upper, Unsigned, rest)
  }

  // The part after the sign.
  function ReadBody(neg: bool, body: string): Literal {
    var p := FirstOf(body, 'e', 'E');
    var exp := if p == |body| then NoExponent else ReadExponent(body[p..]);
    var q := FirstOf(body[..p], '.', '.');
    Literal(neg, body[..q], if q == p then "" else body[q + 1..p], exp)
  }

  function Read(s: string): Literal {
    if s != "" && s[0] == '-' then ReadBody(true, s[1..]) else ReadBody(false, s)
  }

  lemma ReadExponentText(e: Exponent)
    requires e.Power? && IsDigits(e.digits) && e.digits != ""
    ensures ExponentText(e) != "" && ReadExponent(ExponentText(e)) == e
    ensures ExponentText(e)[0] == 'e' || ExponentText(e)[0] == 'E'
  {
    var letter := if e.upper then "E" else "e";
    assert ExponentText(e)[1..] == SignText(e.sign) + e.digits;
    assert IsDigit(e.digits[0]);
  }

  lemma ReadBodyText(l: Literal)
    requires WellFormed(l)
    ensures ReadBody(l.neg, Mantissa(l) + ExponentText(l.exp)) == l
  {
    hide FirstOf, ReadExponent, ExponentText;
    var m, x := Mantissa(l), ExponentText(l.exp);
    var body := m + x;
    assert (l.exp.NoExponent? ==> x == "") && (l.exp.Power? ==> x != "" && ReadExponent(x) == l.exp && (x[0] == 'e' || x[0] == 'E')) by {
      if l.exp.Power? { ReadExponentText(l.exp); } else { NoExponentText(); }
    }
    MantissaChars(l);
    FirstOfIs(m, x, 'e', 'E');
    assert body[..|m|] == m && body[|m|..] == x;
    FirstOfIs(l.whole, m[|l.whole|..], '.', '.');
    assert m == l.whole + m[|l.whole|..];
    assert body[..|l.whole|] == l.whole;
    if l.frac != "" {
      assert body[|l.whole| + 1..|m|] == l.frac;
    }
  }

  lemma NoExponentText()
    ensures ExponentText(NoExponent) == ""
  {
  }

  lemma MantissaChars(l: Literal)
    requires WellFormed(l)
    ensures forall i :: 0 <= i < |Mantissa(l)| ==> Mantissa(l)[i] != 'e' && Mantissa(l)[i] != 'E'
    ensures forall i :: 0 <= i < |l.whole| ==> l.whole[i] != '.'
    ensures |Mantissa(l)| > 0 && IsDigit(Mantissa(l)[0])
  {
    var m := Mantissa(l);
    forall i | 0 <= i < |m| ensures m[i] == '.' || IsDigit(m[i]) {}
    assert forall i :: 0 <= i < |l.whole| ==> IsDigit(l.whole[i]);
  }

  // Reading undoes writing.
  lemma ReadText(l: Literal)
    requires WellFormed(l)
    ensures Read(Text(l)) == l
  {
    hide ReadBody, Mantissa, ExponentText;
    var body := Mantissa(l) + ExponentText(l.exp);
    MantissaChars(l);
    ReadBodyText(l);
    if l.neg {
      assert Text(l) == "-" + body && Text(l)[1..] == body;
    } else {
      assert Text(l) == body;
    }
  }

  // ---------------------------------------------------------------- theorems

  // The normalizer keeps the exact value.
  lemma NormalKeepsValue(l: Literal) returns (written: Literal)
    requires WellFormed(l) && Normal(l).Ok?
    ensures WellFormed(written) && Normal(l) == Ok(Text(written)) && ValueOf(written) == ValueOf(l)
    ensures written == Format(CanonOf(l, ExponentOf(l.exp)))
  {
    hide Format, CanonOf, ValueOfCanon, Proper, Text, ExponentOf, ValueOf;
    CanonKeepsValue(l);
    written := FormatOf(l);
    FormatKeepsValue(CanonOf(l, ExponentOf(l.exp)));
  }

  ghost function FormatOf(l: Literal): Literal
    requires WellFormed(l)
  {
    CanonKeepsValue(l);
    Format(CanonOf(l, ExponentOf(l.exp)))
  }

  // Two accepted numbers get the same text exactly when they are equal.
  lemma NormalDecides(l: Literal, m: Literal)
    requires WellFormed(l) && WellFormed(m) && Normal(l).Ok? && Normal(m).Ok?
    ensures Normal(l) == Normal(m) <==> ValueOf(l) == ValueOf(m)
  {
    hide Format, CanonOf, ValueOfCanon, Proper, Text, Read, ExponentOf;
    var a := NormalKeepsValue(l);
    var b := NormalKeepsValue(m);
    CanonKeepsValue(l);
    CanonKeepsValue(m);
    ReadText(a);
    ReadText(b);
    if ValueOf(l) == ValueOf(m) {
      CanonUnique(CanonOf(l, ExponentOf(l.exp)), CanonOf(m, ExponentOf(m.exp)));
    }
  }

  // The literal is zero, or a whole number that does not end in a zero, or the power of ten of its first digit
  // other than zero is in range.
  ghost predicate Repeatable(l: Literal)
    requires WellFormed(l)
  {
    var left := TrimLeft(l.whole + l.frac);
    var scale := ExponentOf(l.exp) - |l.frac| + (|left| - |TrimRight(left)|);
    left == "" || scale == 0 || -MAX_EXPONENT <= |left| + ExponentOf(l.exp) - |l.frac| - 1 <= MAX_EXPONENT
  }

  // Exactly then normalizing again changes nothing; otherwise the second time is refused.
  lemma NormalTwice(l: Literal) returns (written: Literal)
    requires WellFormed(l) && Normal(l).Ok?
    ensures WellFormed(written) && Normal(l) == Ok(Text(written))
    ensures Normal(written) == Normal(l) <==> Repeatable(l)
    ensures Normal(written).Err? || Normal(written) == Normal(l)
  {
    hide Format, CanonOf, ValueOf, Text, Repeatable, ExponentOf;
    written := NormalKeepsValue(l);
    WrittenInRange(l, written);
    if Normal(written).Ok? {
      NormalDecides(written, l);
    }
  }

  // The exponent that is written, in terms of the literal.
  lemma WrittenInRange(l: Literal, written: Literal)
    requires WellFormed(l) && WellFormed(written) && written == FormatOf(l)
    ensures -MAX_EXPONENT <= ExponentOf(written.exp) <= MAX_EXPONENT <==> Repeatable(l)
  {
    hide Num, Decimal, TrimLeft, TrimRight, Zeros;
    var left, e := TrimLeft(l.whole + l.frac), ExponentOf(l.exp);
    if left != "" {
      var scale := e - |l.frac| + (|left| - |TrimRight(left)|);
      var power := |left| + e - |l.frac| - 1;
      assert CanonOf(l, e) == Canon(l.neg, TrimRight(left), scale);
      assert ExponentOf(Format(Canon(l.neg, TrimRight(left), scale)).exp) == if scale == 0 || -6 <= power < 21 then 0 else power;
    }
  }

  // And it need not be: 15e10000 becomes 1.5e10001, which is refused.
  lemma NormalNotIdempotent()
    ensures var l := Literal(false, "15", "", Power(false, Unsigned, "10000"));
            WellFormed(l) && Normal(l) == Ok("1.5e10001")
            && var m := Literal(false, "1", "5", Power(false, Unsigned, "10001")); WellFormed(m) && Text(m) == "1.5e10001" && Normal(m).Err?
  {
    hide Decimal, TrimLeft, TrimRight, Num, CanonOf, Format, Text;
    TenThousand();
    FifteenIs();
    BigText();
    var l := Literal(false, "15", "", Power(false, Unsigned, "10000"));
    var m := Literal(false, "1", "5", Power(false, Unsigned, "10001"));
    assert ExponentOf(l.exp) == 10000 && ExponentOf(m.exp) == 10001;
  }

  lemma FifteenIs()
    ensures var l := Literal(false, "15", "", Power(false, Unsigned, "10000"));
            CanonOf(l, 10000) == Canon(false, "15", 10000)
  {
    Fifteen();
    hide TrimLeft, TrimRight;
    assert Reduce(false, "15", 10000) == Canon(false, "15", 10000);
  }

  lemma Fifteen()
    ensures "15" + "" == "15" && TrimLeft("15") == "15" && TrimRight("15") == "15"
  {
  }

  lemma BigText()
    ensures var m := Literal(false, "1", "5", Power(false, Unsigned, "10001"));
            Format(Canon(false, "15", 10000)) == m && Text(m) == "1.5e10001"
  {
    hide Decimal, Num;
    TenThousand();
    assert Decimal(10001) == "10001" by { DigitsUnique(Decimal(10001), "10001"); }
    var m := Literal(false, "1", "5", Power(false, Unsigned, "10001"));
    assert Mantissa(m) == "1.5" && ExponentText(m.exp) == "e10001" && Text(m) == "1.5e10001";
  }

  lemma NumStep(s: string, c: char)
    requires IsDigits(s) && IsDigit(c)
    ensures IsDigits(s + [c]) && Num(s + [c]) == Num(s) * 10 + Worth(c)
  {
    assert (s + [c])[..|s|] == s;
  }

  lemma TenThousand()
    ensures IsDigits("10000") && Num("10000") == 10000 && IsDigits("10001") && Num("10001") == 10001
  {
    NumStep("", '1');
    NumStep("1", '0');
    NumStep("10", '0');
    NumStep("100", '0');
    NumStep("1000", '0');
    NumStep("1000", '1');
    assert "" + ['1'] == "1" && "1" + ['0'] == "10" && "10" + ['0'] == "100" && "100" + ['0'] == "1000";
    assert "1000" + ['0'] == "10000" && "1000" + ['1'] == "10001";
  }

  // ---------------------------------------------------------------- the normalizer

  // The number that digits denote, if they are digits.
  function Amount(digits: string): Option<nat> {
    if digits == "" then None
    else if !IsDigit(digits[|digits| - 1]) then None
    else if |digits| == 1 then Some(Worth(digits[0]))
    else
      match Amount(digits[..|digits| - 1])
      case None => None
      case Some(n) => Some(n * 10 + Worth(digits[|digits| - 1]))
  }

  lemma {:induction false} AmountIs(digits: string)
    requires IsDigits(digits) && digits != ""
    ensures Amount(digits) == Some(Num(digits))
  {
    if |digits| > 1 {
      AmountIs(digits[..|digits| - 1]);
    } else {
      assert digits[..0] == "";
    }
  }

  function ExponentValue(e: Exponent): Option<int> {
    match e
    case NoExponent => Some(0)
    case Power(_, sign, digits) =>
      match Amount(digits)
      case None => None
      case Some(n) => Some(if sign.Minus? then -(n as int) else n)
  }

  // What the normalizer makes of any text, read as a literal.
  function NormalOf(l: Literal): Result<string> {
    match ExponentValue(l.exp)
    case None => Err
    case Some(e) => if e < -MAX_EXPONENT || e > MAX_EXPONENT then Err else Ok(Text(Format(CanonOf(l, e))))
  }

  lemma NormalOfIs(l: Literal)
    requires WellFormed(l)
    ensures NormalOf(l) == Normal(l)
  {
    hide Format, CanonOf, Text;
    if l.exp.Power? { AmountIs(l.exp.digits); }
  }

  method IndexOf(s: string, a: char, b: char) returns (k: nat)
    ensures k == FirstOf(s, a, b)
  {
    k := 0;
    while k < |s| && s[k] != a && s[k] != b
      invariant 0 <= k <= |s| && forall i :: 0 <= i < k ==> s[i] != a && s[i] != b
    {
      k := k + 1;
    }
    assert s == s[..k] + s[k..];
    FirstOfIs(s[..k], s[k..], a, b);
  }

  method ParseAmount(digits: string) returns (r: Option<nat>)
    ensures r == Amount(digits)
  {
    if digits == "" { return None; }
    if !IsDigit(digits[0]) {
      NoAmount(digits, 0);
      return None;
    }
    var n := Worth(digits[0]);
    assert digits[..1] == [digits[0]];
    for i := 1 to |digits|
      invariant Amount(digits[..i]) == Some(n)
    {
      if !IsDigit(digits[i]) {
        NoAmount(digits, i);
        return None;
      }
      assert digits[..i + 1][..i] == digits[..i];
      n := n * 10 + Worth(digits[i]);
    }
    assert digits[..|digits|] == digits;
    return Some(n);
  }

  lemma {:induction false} NoAmount(digits: string, i: nat)
    requires i < |digits| && !IsDigit(digits[i])
    ensures Amount(digits) == None
  {
    if i < |digits| - 1 {
      NoAmount(digits[..|digits| - 1], i);
    }
  }

  // Reads an optional sign and digits.
  method ParseExponent(text: string) returns (r: Option<int>)
    requires text != ""
    ensures r == ExponentValue(ReadExponent(text))
  {
    var rest := text[1..];
    var negative := false;
    if rest != "" && rest[0] == '+' {
      rest := rest[1..];
    } else if rest != "" && rest[0] == '-' {
      negative := true;
      rest := rest[1..];
    }
    var n := ParseAmount(rest);
    if n.None? { return None; }
    return Some(if negative then -(n.value as int) else n.value);
  }

  method TrimZeros(digits: string, scale: int) returns (left: string, both: string, scaled: int)
    ensures left == TrimLeft(digits)
    ensures left != "" ==> both == TrimRight(left) && scaled == scale + (|left| - |both|)
  {
    left := digits;
    while left != "" && left[0] == '0'
      invariant TrimLeft(left) == TrimLeft(digits)
      decreases |left|
    {
      left := left[1..];
    }
    both, scaled := left, scale;
    while both != "" && both[|both| - 1] == '0'
      invariant TrimRight(both) == TrimRight(left) && |both| <= |left| && scaled == scale + (|left| - |both|)
      decreases |both|
    {
      both, scaled := both[..|both| - 1], scaled + 1;
    }
  }

  // Writes digits times a power of ten, without the sign.
  method WriteMagnitude(digits: string, scale: int) returns (text: string)
    requires digits != ""
    ensures var l := Format(Canon(false, digits, scale)); text == Mantissa(l) + ExponentText(l.exp)
  {
    hide Decimal, Zeros;
    var adjusted := |digits| + scale;
    if scale == 0 {
      text := digits;
      assert text == (digits + "") + "";
    } else if 0 < adjusted <= 21 {
      if adjusted >= |digits| {
        text := digits + Zeros(adjusted - |digits|);
        assert text == (text + "") + "";
      } else {
        text := digits[..adjusted] + "." + digits[adjusted..];
        assert text == (digits[..adjusted] + ("." + digits[adjusted..])) + "";
      }
    } else if -5 <= adjusted <= 0 {
      text := "0." + Zeros(-adjusted) + digits;
      assert text == ("0" + ("." + (Zeros(-adjusted) + digits))) + "";
    } else {
      text := WritePower(digits, adjusted - 1);
    }
  }

  method WritePower(digits: string, e: int) returns (text: string)
    requires digits != ""
    ensures var power := Power(false, if e < 0 then Minus else Unsigned, Decimal(if e < 0 then -e else e));
            var l := Literal(false, digits[..1], digits[1..], power);
            text == Mantissa(l) + ExponentText(l.exp)
  {
    hide Decimal;
    text := digits[..1];
    if |digits| > 1 { text := text + "." + digits[1..]; }
    ghost var mantissa := text;
    text := text + "e";
    text := text + if e < 0 then "-" + Decimal(-e) else Decimal(e);
    if e < 0 {
      assert text == mantissa + ("e" + "-" + Decimal(-e));
    } else {
      assert text == mantissa + ("e" + "" + Decimal(e));
    }
    if |digits| > 1 {
      assert mantissa == digits[..1] + ("." + digits[1..]);
    } else {
      assert digits[1..] == "" && mantissa == digits[..1] + "";
    }
  }

  lemma SignInFront(negative: bool, digits: string, scale: int)
    requires digits != ""
    ensures var l := Format(Canon(false, digits, scale));
            Text(Format(Canon(negative, digits, scale))) == (if negative then "-" else "") + (Mantissa(l) + ExponentText(l.exp))
  {
    hide Decimal, Zeros, ExponentText;
    var l := Format(Canon(negative, digits, scale));
    assert l == Format(Canon(false, digits, scale)).(neg := negative);
    var sign := if negative then "-" else "";
    assert sign + Mantissa(l) + ExponentText(l.exp) == sign + (Mantissa(l) + ExponentText(l.exp));
  }

  // Takes the text of a number apart.
  method Scan(value: string) returns (negative: bool, digits: string, fraction: nat, exponent: Option<int>)
    requires value != ""
    ensures var l := Read(value);
            negative == l.neg && digits == l.whole + l.frac && fraction == |l.frac| && exponent == ExponentValue(l.exp)
  {
    hide FirstOf, ReadExponent, ExponentValue;
    negative := value[0] == '-';
    var body := if negative then value[1..] else value;
    var p := IndexOf(body, 'e', 'E');
    if p < |body| {
      exponent := ParseExponent(body[p..]);
    } else {
      NoExponentValue();
      exponent := Some(0);
    }
    var mantissa := body[..p];
    var q := IndexOf(mantissa, '.', '.');
    assert mantissa[..q] == body[..q];
    if q < |mantissa| {
      fraction := |mantissa| - q - 1;
      digits := mantissa[..q] + mantissa[q + 1..];
      assert mantissa[q + 1..] == body[q + 1..p];
    } else {
      fraction := 0;
      digits := mantissa;
      assert digits == body[..q] + "";
    }
  }

  // The normalizer: for every number of the grammar, the canonical text of its value.
  method NormalizeJsonNumber(value: string) returns (r: Result<string>)
    ensures value == "" ==> r.Err?
    ensures value != "" ==> r == NormalOf(Read(value))
    ensures forall l :: WellFormed(l) && value == Text(l) ==> r == Normal(l)
  {
    hide FirstOf, ReadExponent, ExponentValue, Format, TrimLeft, TrimRight, Text;
    r := NormalizeText(value);
    forall l | WellFormed(l) && value == Text(l) ensures r == Normal(l) {
      ReadText(l);
      NormalOfIs(l);
      NotEmpty(l);
    }
  }

  lemma NotEmpty(l: Literal)
    requires WellFormed(l)
    ensures Text(l) != ""
  {
  }

  method NormalizeText(value: string) returns (r: Result<string>)
    ensures value == "" ==> r.Err?
    ensures value != "" ==> r == NormalOf(Read(value))
  {
    hide Read, ExponentValue, Format, TrimLeft, TrimRight, Text, Mantissa, ExponentText;
    if value == "" { return Err; }
    var negative, digits, fraction, exponent := Scan(value);
    if exponent.None? || exponent.value < -MAX_EXPONENT || exponent.value > MAX_EXPONENT { return Err; }
    var left, both, scaled := TrimZeros(digits, exponent.value - fraction);
    if left == "" {
      ZeroText();
      return Ok("0");
    }
    assert both != "" by { assert Reduce(negative, digits, 0).Canon?; }
    var text := WriteMagnitude(both, scaled);
    SignInFront(negative, both, scaled);
    if negative { text := "-" + text; } else { assert "" + text == text; }
    return Ok(text);
  }

  lemma NoExponentValue()
    ensures ExponentValue(NoExponent) == Some(0)
  {
  }

  lemma ZeroText()
    ensures Text(Format(Zero)) == "0"
  {
  }
}
