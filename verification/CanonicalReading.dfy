/**
 Reading canonical text back.  Whatever the canonical printer writes, a reader that follows the grammar of
 RFC 8259 understands as the value that was written.
 */
module CanonicalReading {
  import opened Ids
  import opened Json
  import opened Numbers
  import opened JsonReader
  import opened CanonicalJson

  // ---------------------------------------------------------------- numbers

  // What may follow a number.
  predicate EndsNumber(x: string) {
    x == "" || !NumberChar(x[0])
  }

  lemma {:induction false} CountDigits(d: string, x: string)
    requires IsDigits(d) && (x == "" || !IsDigit(x[0]))
    ensures DigitCount(d + x) == |d|
  {
    if d == "" {
      assert d + x == x;
    } else {
      assert (d + x)[0] == d[0] && (d + x)[1..] == d[1..] + x;
      CountDigits(d[1..], x);
    }
  }

  lemma PowerReads(e: Exponent, x: string)
    requires EndsNumber(x) && (e.Power? ==> IsDigits(e.digits) && e.digits != "")
    ensures ReadPower(ExponentText(e) + x) == Some((e, x))
    ensures var t := ExponentText(e) + x; t == "" || (!IsDigit(t[0]) && t[0] != '.')
  {
    if e.NoExponent? {
      assert ExponentText(e) + x == x;
    } else {
      var digits := e.digits + x;
      PowerParts(e, x);
      hide ExponentText, SignText, DigitCount;
      SignedDigits(e.sign, digits);
      CountDigits(e.digits, x);
    }
  }

  lemma PowerParts(e: Exponent, x: string)
    requires e.Power? && IsDigits(e.digits) && e.digits != ""
    ensures var t, digits := ExponentText(e) + x, e.digits + x;
            && t != "" && t[0] == (if e.upper then 'E' else 'e') && t[1..] == SignText(e.sign) + digits
            && digits[0] == e.digits[0] && IsDigit(digits[0]) && digits[..|e.digits|] == e.digits && digits[|e.digits|..] == x
  {
    var letter := if e.upper then "E" else "e";
    assert ExponentText(e) == letter + SignText(e.sign) + e.digits;
    hide SignText;
    Associates(letter + SignText(e.sign), e.digits, x);
    Associates(letter, SignText(e.sign), e.digits + x);
  }

  lemma SignedDigits(sign: Sign, digits: string)
    requires digits != "" && IsDigit(digits[0])
    ensures var rest := SignText(sign) + digits;
            && rest != "" && (rest[0] == '+' <==> sign.Plus?) && (rest[0] == '-' <==> sign.Minus?)
            && (if sign.Unsigned? then rest else rest[1..]) == digits
  {
    var rest := SignText(sign) + digits;
    if sign.Unsigned? { assert rest == digits; }
  }

  lemma FractionReads(frac: string, x: string)
    requires IsDigits(frac) && (x == "" || (!IsDigit(x[0]) && x[0] != '.'))
    ensures ReadFraction((if frac == "" then "" else "." + frac) + x) == Some((frac, x))
    ensures var t := (if frac == "" then "" else "." + frac) + x; t == "" || !IsDigit(t[0])
  {
    if frac == "" {
      assert "" + x == x;
    } else {
      var t := "." + frac + x;
      assert t[0] == '.' && t[1..] == frac + x;
      CountDigits(frac, x);
      assert (frac + x)[..|frac|] == frac && (frac + x)[|frac|..] == x;
    }
  }

  lemma BodyReads(l: Literal, x: string)
    requires WellFormed(l) && EndsNumber(x)
    ensures var tail := (if l.frac == "" then "" else "." + l.frac) + (ExponentText(l.exp) + x);
            && DigitCount(l.whole + tail) == |l.whole| && ReadFraction(tail) == Some((l.frac, ExponentText(l.exp) + x))
            && ReadPower(ExponentText(l.exp) + x) == Some((l.exp, x)) && (l.whole + tail)[0] == l.whole[0]
            && (l.whole + tail)[..|l.whole|] == l.whole && (l.whole + tail)[|l.whole|..] == tail
  {
    hide ReadFraction, ReadPower, ExponentText, DigitCount;
    PowerReads(l.exp, x);
    FractionReads(l.frac, ExponentText(l.exp) + x);
    var tail := (if l.frac == "" then "" else "." + l.frac) + (ExponentText(l.exp) + x);
    CountDigits(l.whole, tail);
  }

  lemma TextParts(l: Literal, x: string)
    ensures Text(l) + x == (if l.neg then "-" else "") + (l.whole + ((if l.frac == "" then "" else "." + l.frac) + (ExponentText(l.exp) + x)))
  {
    var sign, point, exp := (if l.neg then "-" else ""), (if l.frac == "" then "" else "." + l.frac), ExponentText(l.exp);
    assert Text(l) == sign + (l.whole + point) + exp;
    hide ExponentText, Text;
    Associates(sign + (l.whole + point), exp, x);
    Associates(sign, l.whole + point, exp + x);
    Associates(l.whole, point, exp + x);
  }

  // Reading the text of a number gives back its parts.
  lemma NumberReads(l: Literal, x: string)
    requires WellFormed(l) && EndsNumber(x)
    ensures ReadNumber(Text(l) + x) == Some((l, x))
  {
    TextParts(l, x);
    BodyReads(l, x);
    hide Text, ExponentText, ReadFraction, ReadPower, DigitCount;
    var body := l.whole + ((if l.frac == "" then "" else "." + l.frac) + (ExponentText(l.exp) + x));
    assert IsDigit(l.whole[0]);
    if l.neg {
      assert ("-" + body)[1..] == body;
    } else {
      assert "" + body == body;
    }
  }

  // ---------------------------------------------------------------- values

  // The value as it is written: every number in the literal of its canonical form.
  ghost function Written(t: Tree<Canon>): Tree<Literal>
    requires AllProper(t)
  {
    match t
    case JNull => JNull
    case JBool(b) => JBool(b)
    case JString(s) => JString(s)
    case JNumber(c) => JNumber(Format(c))
    case JArray(items) => JArray(seq(|items|, i requires 0 <= i < |items| => Written(items[i])))
    case JObject(members) => JObject(map k | k in members :: Written(members[k]))
  }

  lemma NoSpace(s: string)
    requires s != "" && !IsSpace(s[0])
    ensures SkipSpace(s) == s
  {
  }

  lemma WordReads(x: string)
    ensures ReadValue("null" + x) == Some((JNull, x)) && ReadValue("true" + x) == Some((JBool(true), x)) && ReadValue("false" + x) == Some((JBool(false), x))
  {
    WordBegins("null", x);
    WordBegins("true", x);
    WordBegins("false", x);
    assert ("true" + x)[0] == 't' && ("false" + x)[0] == 'f' && ("null" + x)[0] == 'n';
  }

  lemma WordBegins(word: string, x: string)
    requires word != "" && !IsSpace(word[0])
    ensures SkipSpace(word + x) == word + x && Begins(word + x, word) && (word + x)[|word|..] == x
  {
    NoSpace(word + x);
  }

  // None of the words begins like this.
  lemma OtherStart(t: string)
    requires t != "" && (t[0] == '"' || t[0] == '[' || t[0] == '{' || t[0] == '-' || IsDigit(t[0]))
    ensures SkipSpace(t) == t && !Begins(t, "null") && !Begins(t, "true") && !Begins(t, "false")
  {
    NoSpace(t);
    FirstLetter(t, "null");
    FirstLetter(t, "true");
    FirstLetter(t, "false");
  }

  lemma FirstLetter(t: string, word: string)
    requires word != ""
    ensures Begins(t, word) ==> t != "" && t[0] == word[0]
  {
    if Begins(t, word) { assert t[..|word|][0] == t[0]; }
  }

  lemma StringReads(s: string, x: string)
    ensures ReadValue(Quote(s) + x) == Some((JString(s), x))
  {
    hide EscapeAll, ReadString, ReadNumber, ReadItems, ReadMembers;
    assert (Quote(s) + x)[0] == '"';
    OtherStart(Quote(s) + x);
    QuoteReads(s, x);
  }

  lemma CanonReads(c: Canon, x: string)
    requires Proper(c) && Stops(x)
    ensures ReadValue(Text(Format(c)) + x) == Some((JNumber(Format(c)), x))
  {
    hide Text, Format, ReadString, ReadNumber, ReadItems, ReadMembers, ValueOf, ValueOfCanon;
    FormatKeepsValue(c);
    NumberText(c);
    var t := Text(Format(c));
    assert (t + x)[0] == t[0];
    OtherStart(t + x);
    NumberReads(Format(c), x);
  }

  // The text of a value, followed by anything that may follow one, reads as the value and what follows.
  lemma {:induction false} PrintReads(t: Tree<Canon>, x: string)
    requires AllProper(t) && Stops(x)
    ensures ReadValue(Print(t) + x) == Some((Written(t), x))
    decreases t, 1
  {
    hide Format, Text, Quote, PrintItems, PrintMembers, ReadValue;
    match t
    case JNull => WordReads(x);
    case JBool(_) => WordReads(x);
    case JString(s) => StringReads(s, x);
    case JNumber(c) => CanonReads(c, x);
    case JArray(_) => ArrayReads(t, x);
    case JObject(_) => ObjectReads(t, x);
  }

  lemma {:induction false} ArrayReads(t: Tree<Canon>, x: string)
    requires AllProper(t) && Stops(x) && t.JArray?
    ensures ReadValue("[" + PrintItems(t, 0) + x) == Some((Written(t), x))
    decreases t, 0
  {
    hide Print, PrintItems, ReadItems, ReadMembers, ReadString, ReadNumber;
    var rest := PrintItems(t, 0) + x;
    var text := "[" + PrintItems(t, 0) + x;
    assert text[0] == '[' && text[1..] == rest;
    OtherStart(text);
    ItemsStart(t, 0);
    assert rest[0] == PrintItems(t, 0)[0];
    if t.items == [] {
      LastItem(t);
      NoSpace(rest);
      assert rest[1..] == x;
      assert Written(t).items == [];
    } else {
      ItemsRead(t, 0, x);
      FirstItem(t, x);
    }
  }

  // A list that is not empty starts with its first item.
  lemma FirstItem(t: Tree<Canon>, x: string)
    requires t.JArray? && AllProper(t) && t.items != []
    ensures PrintItems(t, 0) + x == Print(t.items[0]) + (PrintItems(t, 1) + x)
    ensures SkipSpace(PrintItems(t, 0) + x) == PrintItems(t, 0) + x && (PrintItems(t, 0) + x)[0] != ']'
  {
    hide Print;
    ItemsStart(t, 0);
    PrintStarts(t.items[0]);
    var first, more := Print(t.items[0]), PrintItems(t, 1);
    NoMore(first + more, "");
    assert PrintItems(t, 0) == first + more;
    Associates(first, more, x);
    assert (PrintItems(t, 0) + x)[0] == first[0];
    NoSpace(PrintItems(t, 0) + x);
  }

  lemma {:induction false} ItemsRead(t: Tree<Canon>, i: nat, x: string)
    requires t.JArray? && AllProper(t) && i < |t.items|
    ensures ReadItems(Print(t.items[i]) + (PrintItems(t, i + 1) + x)) == Some((Written(t).items[i..], x))
    decreases t, 0, |t.items| - i
  {
    hide Print, ReadValue, SkipSpace;
    var more := PrintItems(t, i + 1);
    ItemsStart(t, i + 1);
    StopsMore(more, x);
    PrintReads(t.items[i], more + x);
    assert (more + x)[0] == more[0];
    NoSpace(more + x);
    assert Written(t).items[i] == Written(t.items[i]);
    assert Written(t).items[i..] == [Written(t).items[i]] + Written(t).items[i + 1..];
    if i + 1 == |t.items| {
      LastItem(t);
      assert Written(t).items[i..] == [Written(t.items[i])];
      assert (more + x)[1..] == x;
    } else {
      ItemsRead(t, i + 1, x);
      NextItem(t, i + 1, x);
    }
  }

  lemma NextItem(t: Tree<Canon>, i: nat, x: string)
    requires t.JArray? && AllProper(t) && 0 < i < |t.items|
    ensures PrintItems(t, i) + x == "," + (Print(t.items[i]) + (PrintItems(t, i + 1) + x))
    ensures (PrintItems(t, i) + x)[1..] == Print(t.items[i]) + (PrintItems(t, i + 1) + x)
  {
    hide Print;
    var item, more := Print(t.items[i]), PrintItems(t, i + 1);
    assert PrintItems(t, i) == "," + (item + more);
    hide PrintItems;
    Associates(",", item + more, x);
    Associates(item, more, x);
  }

  // ---------------------------------------------------------------- objects

  lemma {:induction false} ObjectReads(t: Tree<Canon>, x: string)
    requires AllProper(t) && Stops(x) && t.JObject?
    ensures ReadValue(Print(t) + x) == Some((Written(t), x))
    decreases t, 0
  {
    hide PrintMembers, ReadItems, ReadMembers, ReadString, ReadNumber;
    KeysOf(t.members);
    var keys := Listing(t.members.Keys);
    var rest := PrintMembers(t, keys, 0) + x;
    var text := Print(t) + x;
    assert text[0] == '{' && text[1..] == rest;
    hide Print;
    OtherStart(text);
    MembersStart(t, keys, 0);
    assert rest[0] == PrintMembers(t, keys, 0)[0];
    if keys == [] {
      LastMember(t, keys);
      NoSpace(rest);
      assert rest[1..] == x;
      NoMembers(t);
    } else {
      MembersRead(t, keys, 0, x);
      FirstMember(t, keys, x);
      AllMembers(t, keys);
    }
  }

  lemma LastMember(t: Tree<Canon>, keys: seq<string>)
    requires t.JObject? && AllProper(t) && forall k :: 0 <= k < |keys| ==> keys[k] in t.members
    ensures PrintMembers(t, keys, |keys|) == "}"
  {
  }

  lemma NoMembers(t: Tree<Canon>)
    requires t.JObject? && AllProper(t) && Listing(t.members.Keys) == []
    ensures Written(t) == JObject(map[])
  {
    assert t.members.Keys == Elements([]);
    assert t.members == map[];
  }

  // The members from i on, as they are read.
  ghost function WrittenFrom(t: Tree<Canon>, keys: seq<string>, i: nat): map<string, Tree<Literal>>
    requires t.JObject? && AllProper(t) && i <= |keys| && forall k :: 0 <= k < |keys| ==> keys[k] in t.members
    decreases |keys| - i
  {
    if i == |keys| then map[] else WrittenFrom(t, keys, i + 1)[keys[i] := Written(t.members[keys[i]])]
  }

  lemma {:induction false} WrittenFromIs(t: Tree<Canon>, keys: seq<string>, i: nat)
    requires t.JObject? && AllProper(t) && i <= |keys| && forall k :: 0 <= k < |keys| ==> keys[k] in t.members
    ensures var m := WrittenFrom(t, keys, i);
            && (forall k :: k in m <==> exists j :: i <= j < |keys| && keys[j] == k)
            && (forall k :: k in m ==> k in t.members && m[k] == Written(t.members[k]))
    decreases |keys| - i
  {
    hide Written;
    if i < |keys| { WrittenFromIs(t, keys, i + 1); }
  }

  lemma AllMembers(t: Tree<Canon>, keys: seq<string>)
    requires t.JObject? && AllProper(t) && keys == Listing(t.members.Keys) && forall k :: 0 <= k < |keys| ==> keys[k] in t.members
    ensures Written(t) == JObject(WrittenFrom(t, keys, 0))
  {
    WrittenFromIs(t, keys, 0);
    var m := WrittenFrom(t, keys, 0);
    forall k | k in t.members ensures k in m {
      assert k in Elements(keys);
      var j :| 0 <= j < |keys| && keys[j] == k;
    }
    assert Written(t).members == m;
  }

  lemma MemberParts(a: string, b: string, c: string, x: string)
    ensures (a + (":" + (b + c))) + x == a + (":" + (b + (c + x)))
  {
    Associates(a, ":" + (b + c), x);
    Associates(":", b + c, x);
    Associates(b, c, x);
  }

  // The text of member i and of those after it, without the comma in front.
  ghost function MemberText(t: Tree<Canon>, keys: seq<string>, i: nat, x: string): string
    requires t.JObject? && AllProper(t) && i < |keys| && forall k :: 0 <= k < |keys| ==> keys[k] in t.members
  {
    Quote(keys[i]) + (":" + (Print(t.members[keys[i]]) + (PrintMembers(t, keys, i + 1) + x)))
  }

  lemma FirstMember(t: Tree<Canon>, keys: seq<string>, x: string)
    requires t.JObject? && AllProper(t) && keys != [] && forall k :: 0 <= k < |keys| ==> keys[k] in t.members
    ensures PrintMembers(t, keys, 0) + x == MemberText(t, keys, 0, x)
    ensures SkipSpace(PrintMembers(t, keys, 0) + x) == PrintMembers(t, keys, 0) + x && (PrintMembers(t, keys, 0) + x)[0] == '"'
  {
    hide Print, EscapeAll;
    var name, value, more := Quote(keys[0]), Print(t.members[keys[0]]), PrintMembers(t, keys, 1);
    NoMore(name + (":" + (value + more)), "");
    assert PrintMembers(t, keys, 0) == name + (":" + (value + more));
    MemberParts(name, value, more, x);
    assert (PrintMembers(t, keys, 0) + x)[0] == name[0];
    NoSpace(PrintMembers(t, keys, 0) + x);
  }

  lemma NextMember(t: Tree<Canon>, keys: seq<string>, i: nat, x: string)
    requires t.JObject? && AllProper(t) && 0 < i < |keys| && forall k :: 0 <= k < |keys| ==> keys[k] in t.members
    ensures (PrintMembers(t, keys, i) + x)[1..] == MemberText(t, keys, i, x) && (PrintMembers(t, keys, i) + x)[0] == ','
  {
    hide Print, Quote;
    var name, value, more := Quote(keys[i]), Print(t.members[keys[i]]), PrintMembers(t, keys, i + 1);
    assert PrintMembers(t, keys, i) == "," + (name + (":" + (value + more)));
    hide PrintMembers;
    Associates(",", name + (":" + (value + more)), x);
    MemberParts(name, value, more, x);
  }

  lemma {:induction false} MemberReads(t: Tree<Canon>, keys: seq<string>, i: nat, x: string)
    requires t.JObject? && AllProper(t) && i < |keys| && forall k :: 0 <= k < |keys| ==> keys[k] in t.members
    ensures ReadMember(MemberText(t, keys, i, x)) == Some((keys[i], Written(t.members[keys[i]]), PrintMembers(t, keys, i + 1) + x))
    decreases t, 0, |keys| - i, 0
  {
    hide Print, PrintMembers, ReadValue, ReadString, Quote;
    var name, value, more := Quote(keys[i]), Print(t.members[keys[i]]), PrintMembers(t, keys, i + 1);
    var tail := ":" + (value + (more + x));
    QuoteReads(keys[i], tail);
    QuoteStarts(keys[i], tail);
    NoSpace(tail);
    assert tail[1..] == value + (more + x);
    MembersStart(t, keys, i + 1);
    StopsMore(more, x);
    PrintReads(t.members[keys[i]], more + x);
  }

  lemma QuoteStarts(s: string, x: string)
    ensures SkipSpace(Quote(s) + x) == Quote(s) + x
  {
    assert (Quote(s) + x)[0] == '"';
    NoSpace(Quote(s) + x);
  }

  lemma {:induction false} MembersRead(t: Tree<Canon>, keys: seq<string>, i: nat, x: string)
    requires t.JObject? && AllProper(t) && i < |keys| && Ascending(keys) && forall k :: 0 <= k < |keys| ==> keys[k] in t.members
    ensures ReadMembers(MemberText(t, keys, i, x)) == Some((WrittenFrom(t, keys, i), x))
    decreases t, 0, |keys| - i, 1
  {
    hide Print, ReadMember, SkipSpace, MemberText, Written, PrintMembers;
    MemberReads(t, keys, i, x);
    var more := PrintMembers(t, keys, i + 1);
    MembersStart(t, keys, i + 1);
    assert (more + x)[0] == more[0];
    NoSpace(more + x);
    if i + 1 == |keys| {
      LastMember(t, keys);
      assert (more + x)[1..] == x;
    } else {
      NextMember(t, keys, i + 1, x);
      MembersRead(t, keys, i + 1, x);
      WrittenFromIs(t, keys, i + 1);
      assert keys[i] !in WrittenFrom(t, keys, i + 1);
    }
  }

  // ---------------------------------------------------------------- one text per value

  // A quoted string is determined by its text, whatever follows.
  lemma QuoteUnique(s: string, t: string, x: string, y: string)
    requires Quote(s) + x == Quote(t) + y
    ensures s == t && x == y
  {
    hide Quote, ReadString;
    QuoteReads(s, x);
    QuoteReads(t, y);
  }

  lemma {:induction false} WrittenInjective(t: Tree<Canon>, u: Tree<Canon>)
    requires AllProper(t) && AllProper(u) && Written(t) == Written(u)
    ensures t == u
    decreases t
  {
    hide Format, ValueOf, ValueOfCanon, WellFormed, Proper;
    match t
    case JNumber(c) =>
      FormatKeepsValue(c);
      FormatKeepsValue(u.n);
      CanonUnique(c, u.n);
    case JArray(items) =>
      forall i | 0 <= i < |items| ensures i < |u.items| && items[i] == u.items[i] {
        assert Written(t).items[i] == Written(items[i]) && Written(u).items[i] == Written(u.items[i]);
        WrittenInjective(items[i], u.items[i]);
      }
      assert |Written(t).items| == |items| && |Written(u).items| == |u.items|;
    case JObject(members) =>
      assert Written(t).members.Keys == members.Keys && Written(u).members.Keys == u.members.Keys;
      forall k | k in members ensures k in u.members && members[k] == u.members[k] {
        assert Written(t).members[k] == Written(members[k]) && Written(u).members[k] == Written(u.members[k]);
        WrittenInjective(members[k], u.members[k]);
      }
    case _ =>
  }

  // The texts of two values, followed by anything that may follow a value, agree only if the values do.
  lemma Unambiguous(t: Tree<Canon>, u: Tree<Canon>, x: string, y: string)
    requires AllProper(t) && AllProper(u) && Stops(x) && Stops(y) && Print(t) + x == Print(u) + y
    ensures t == u && x == y
  {
    hide Print, ReadValue, Written, AllProper;
    PrintReads(t, x);
    PrintReads(u, y);
    WrittenInjective(t, u);
  }

  // Equal canonical texts mean equal values.
  lemma CanonicalTextDecides(t: Tree<Canon>, u: Tree<Canon>)
    requires AllProper(t) && AllProper(u)
    ensures Print(t) == Print(u) <==> t == u
  {
    hide Print;
    if Print(t) == Print(u) {
      assert Print(t) + "" == Print(t) && Print(u) + "" == Print(u);
      Unambiguous(t, u, "", "");
    }
  }

  // Two accepted documents have the same text, hence the same hash, exactly when they have the same value.
  lemma SameTextSameValue(t: Tree<Literal>, u: Tree<Literal>)
    requires Decoded(t) && Decoded(u) && CanonicalText(t).Ok? && CanonicalText(u).Ok?
    ensures CanonicalText(t) == CanonicalText(u) <==> SameValue(t, u)
  {
    hide Canonized, Print, SameValue, InRange, Decoded;
    CanonicalTextDecides(Canonized(t), Canonized(u));
    CanonizedDecides(t, u);
  }

  // ---------------------------------------------------------------- documents

  lemma {:induction false} WrittenSame(t: Tree<Literal>)
    requires Decoded(t)
    ensures Decoded(Written(Canonized(t))) && SameValue(t, Written(Canonized(t)))
  {
    hide WellFormed, Proper, ValueOf, ValueOfCanon, Format;
    match t
    case JNumber(l) => NumberSame(l);
    case JArray(items) =>
      forall i | 0 <= i < |items| ensures Decoded(Written(Canonized(items[i]))) && SameValue(items[i], Written(Canonized(items[i]))) {
        WrittenSame(items[i]);
      }
    case JObject(members) =>
      forall k | k in members ensures Decoded(Written(Canonized(members[k]))) && SameValue(members[k], Written(Canonized(members[k]))) {
        WrittenSame(members[k]);
      }
    case _ =>
  }

  lemma NumberSame(l: Literal)
    requires WellFormed(l)
    ensures WellFormed(Format(CanonNumber(l))) && ValueOf(Format(CanonNumber(l))) == ValueOf(l)
  {
    hide WellFormed, Proper, ValueOf, ValueOfCanon, Format, CanonNumber;
    FormatKeepsValue(CanonNumber(l));
  }

  // The text reads as a document of the same value.
  ghost predicate ReadsAs(text: string, t: Tree<Literal>)
    requires Decoded(t)
  {
    exists u :: ReadDocument(text) == Some(u) && Decoded(u) && SameValue(t, u)
  }

  // Parsing the canonical text of a document gives back the document, up to how its numbers are written.
  lemma CanonicalReads(t: Tree<Literal>)
    requires Decoded(t) && CanonicalText(t).Ok?
    ensures ReadsAs(CanonicalText(t).value, t)
  {
    hide Decoded, InRange, Canonized, Print, ReadValue, Written, SameValue;
    var c := Canonized(t);
    PrintReads(c, "");
    assert Print(c) + "" == Print(c);
    WrittenSame(t);
    assert ReadDocument(Print(c)) == Some(Written(c));
  }

  // Writes a document canonically; what is written can be read, and is worth the same.
  method Canonicalize(t: Tree<Literal>) returns (r: Result<string>)
    requires Decoded(t)
    ensures r.Err? <==> !InRange(t)
    ensures r.Ok? ==> r == CanonicalText(t) && ReadsAs(r.value, t)
  {
    r := AppendCanonical(t);
    if r.Ok? { CanonicalReads(t); }
  }
}
