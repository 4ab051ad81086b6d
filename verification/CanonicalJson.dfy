/**
 The canonical text of JSON: members in ascending order of their names, strings escaped as section 7
 of RFC 8259 allows, numbers by their canonical form.  Equal texts mean equal values.
 */
module CanonicalJson {
  import opened Ids
  import opened Json
  import opened Numbers
  import opened JsonReader

  // ---------------------------------------------------------------- strings

  function HexDigit(n: nat): char
    requires n < 16
  {
    if n < 10 then DigitOf(n) else (n - 10 + ('a' as int)) as char
  }

  function Escape(c: char): string {
    if c == '"' then "\\\""
    else if c == '\\' then "\\\\"
    else if c as int == 8 then "\\b"
    else if c as int == 12 then "\\f"
    else if c == '\n' then "\\n"
    else if c == '\r' then "\\r"
    else if c == '\t' then "\\t"
    else if c as int < 0x20 then "\\u00" + [HexDigit(c as int / 16), HexDigit(c as int % 16)]
    else [c]
  }

  function EscapeAll(s: string): string {
    if s == "" then "" else Escape(s[0]) + EscapeAll(s[1..])
  }

  function Quote(s: string): string {
    "\"" + EscapeAll(s) + "\""
  }

  lemma EscapeStarts(c: char)
    ensures Escape(c) != "" && Escape(c)[0] != '"'
    ensures Escape(c)[0] != '\\' ==> Escape(c) == [c]
    ensures Escape(c)[0] == '\\' ==> |Escape(c)| >= 2 && (|Escape(c)| == 2 || (|Escape(c)| == 6 && Escape(c)[1] == 'u')) && (|Escape(c)| == 2 ==> Escape(c)[1] != 'u')
  {
  }

  // Only the end of a string starts with a quotation mark.
  lemma EscapedStarts(s: string, x: string)
    ensures var text := EscapeAll(s) + ("\"" + x); text != "" && (text[0] == '"' <==> s == "")
    ensures s == "" ==> EscapeAll(s) + ("\"" + x) == "\"" + x
    ensures s != "" ==> EscapeAll(s) + ("\"" + x) == Escape(s[0]) + (EscapeAll(s[1..]) + ("\"" + x))
  {
    hide Escape;
    if s != "" {
      EscapeStarts(s[0]);
      var head, tail, end := Escape(s[0]), EscapeAll(s[1..]), "\"" + x;
      assert EscapeAll(s) == head + tail;
      Associates(head, tail, end);
      assert (head + (tail + end))[0] == head[0];
    }
  }

  lemma Associates(a: string, b: string, c: string)
    ensures (a + b) + c == a + (b + c)
  {
  }

  // Every character is escaped as the grammar of strings has it: reading gives it back.
  lemma EscapeReads(c: char, x: string)
    ensures Escape(c) + x != "" && ReadChar(Escape(c) + x) == Some((c, x)) && (Escape(c) + x)[0] != '"'
  {
    var t := Escape(c) + x;
    assert t[0] == Escape(c)[0] && t[|Escape(c)|..] == x;
    if |Escape(c)| == 2 {
      assert t[1] == Escape(c)[1];
    } else if |Escape(c)| == 6 {
      ControlReads(c);
      assert t[1] == 'u' && t[2] == '0' && t[3] == '0' && t[4] == HexDigit(c as int / 16) && t[5] == HexDigit(c as int % 16);
    }
  }

  lemma ControlReads(c: char)
    requires c as int < 0x20
    ensures HexCode('0', '0', HexDigit(c as int / 16), HexDigit(c as int % 16)) == Some(c as int)
  {
    HexReads(c as int / 16);
    HexReads(c as int % 16);
  }

  lemma HexReads(n: nat)
    requires n < 16
    ensures HexValue(HexDigit(n)) == Some(n)
  {
  }

  lemma {:induction false} EscapedReads(s: string, x: string)
    ensures ReadChars(EscapeAll(s) + ("\"" + x)) == Some((s, x))
  {
    hide Escape, EscapeAll, ReadChar;
    EscapedStarts(s, x);
    if s == "" {
      assert ("\"" + x)[1..] == x;
    } else {
      var tail := EscapeAll(s[1..]) + ("\"" + x);
      EscapeReads(s[0], tail);
      EscapedReads(s[1..], x);
      assert s == [s[0]] + s[1..];
    }
  }

  // Reading a quoted string gives back the string, and what follows it.
  lemma QuoteReads(s: string, x: string)
    ensures ReadString(Quote(s) + x) == Some((s, x))
  {
    hide EscapeAll, ReadChars;
    var text := Quote(s) + x;
    assert text[0] == '"' && text[1..] == EscapeAll(s) + ("\"" + x);
    EscapedReads(s, x);
  }

  // ---------------------------------------------------------------- numbers

  predicate NumberChar(c: char) {
    IsDigit(c) || c == '-' || c == '+' || c == '.' || c == 'e' || c == 'E'
  }

  // What may follow a value.
  predicate Stops(r: string) {
    r == "" || r[0] == ',' || r[0] == ']' || r[0] == '}'
  }

  lemma NumberText(c: Canon)
    requires Proper(c)
    ensures var t := Text(Format(c)); t != "" && (IsDigit(t[0]) || t[0] == '-') && forall i :: 0 <= i < |t| ==> NumberChar(t[i])
  {
    hide Numbers.Num, Scaled, Format;
    FormatKeepsValue(c);
    var l := Format(c);
    LiteralChars(l);
  }

  lemma LiteralChars(l: Literal)
    requires WellFormed(l)
    ensures var t := Text(l); t != "" && (IsDigit(t[0]) || t[0] == '-') && forall i :: 0 <= i < |t| ==> NumberChar(t[i])
  {
    var m, x := Mantissa(l), ExponentText(l.exp);
    assert IsDigit(l.whole[0]);
    assert forall i :: 0 <= i < |m| ==> NumberChar(m[i]);
    assert forall i :: 0 <= i < |x| ==> NumberChar(x[i]);
  }

  // ---------------------------------------------------------------- the canonical text

  ghost predicate AllProper(t: Tree<Canon>) {
    match t
    case JNumber(c) => Proper(c)
    case JArray(items) => forall i :: 0 <= i < |items| ==> AllProper(items[i])
    case JObject(members) => forall k :: k in members ==> AllProper(members[k])
    case _ => true
  }

  ghost function Print(t: Tree<Canon>): string
    requires AllProper(t)
    decreases t
  {
    match t
    case JNull => "null"
    case JBool(b) => if b then "true" else "false"
    case JString(s) => Quote(s)
    case JNumber(c) => Text(Format(c))
    case JArray(_) => "[" + PrintItems(t, 0)
    case JObject(members) => KeysOf(members); "{" + PrintMembers(t, Listing(members.Keys), 0)
  }

  // The items from i on, with the closing bracket.
  ghost function PrintItems(t: Tree<Canon>, i: nat): string
    requires t.JArray? && AllProper(t) && i <= |t.items|
    decreases t, |t.items| - i
  {
    if i == |t.items| then "]" else (if i > 0 then "," else "") + (Print(t.items[i]) + PrintItems(t, i + 1))
  }

  ghost function PrintMembers(t: Tree<Canon>, keys: seq<string>, i: nat): string
    requires t.JObject? && AllProper(t) && i <= |keys| && forall k :: 0 <= k < |keys| ==> keys[k] in t.members
    decreases t, |keys| - i
  {
    if i == |keys| then "}"
    else (if i > 0 then "," else "") + (Quote(keys[i]) + (":" + (Print(t.members[keys[i]]) + PrintMembers(t, keys, i + 1))))
  }

  lemma KeysOf(members: map<string, Tree<Canon>>)
    ensures var ks := Listing(members.Keys); forall k :: 0 <= k < |ks| ==> ks[k] in members
  {
    var ks := Listing(members.Keys);
    forall k | 0 <= k < |ks| ensures ks[k] in members {
      assert ks[k] in Elements(ks);
    }
  }

  // ---------------------------------------------------------------- reading it back

  // What the first character of a text says about the value.
  function Kind(c: char): nat {
    if c == 'n' then 0 else if c == 't' || c == 'f' then 1 else if c == '"' then 2
    else if IsDigit(c) || c == '-' then 3 else if c == '[' then 4 else if c == '{' then 5 else 6
  }

  function KindOf(t: Tree<Canon>): nat {
    match t
    case JNull => 0
    case JBool(_) => 1
    case JString(_) => 2
    case JNumber(_) => 3
    case JArray(_) => 4
    case JObject(_) => 5
  }

  lemma PrintStarts(t: Tree<Canon>)
    requires AllProper(t)
    ensures Print(t) != "" && Kind(Print(t)[0]) == KindOf(t)
  {
    hide Format, Text;
    if t.JNumber? { NumberText(t.n); }
  }

  lemma ItemsStart(t: Tree<Canon>, i: nat)
    requires t.JArray? && AllProper(t) && i <= |t.items|
    ensures var text := PrintItems(t, i);
            && text != "" && (text[0] == ']' <==> i == |t.items|) && (i > 0 ==> Stops(text))
  {
    if i < |t.items| {
      PrintStarts(t.items[i]);
      hide Print;
      assert i > 0 ==> PrintItems(t, i)[0] == ',';
      assert i == 0 ==> PrintItems(t, i)[0] == Print(t.items[i])[0];
    }
  }

  lemma MembersStart(t: Tree<Canon>, keys: seq<string>, i: nat)
    requires t.JObject? && AllProper(t) && i <= |keys| && forall k :: 0 <= k < |keys| ==> keys[k] in t.members
    ensures var text := PrintMembers(t, keys, i);
            && text != "" && (text[0] == '}' <==> i == |keys|) && (i > 0 ==> Stops(text))
  {
    hide Print, EscapeAll;
    if i < |keys| {
      assert i > 0 ==> PrintMembers(t, keys, i)[0] == ',';
      assert i == 0 ==> PrintMembers(t, keys, i)[0] == '"';
    }
  }

  lemma StopsMore(a: string, x: string)
    requires a != "" && Stops(a)
    ensures Stops(a + x)
  {
    assert (a + x)[0] == a[0];
  }

  lemma NoMore(a: string, b: string)
    ensures "" + a == a && "" + b == b
  {
  }

  // ---------------------------------------------------------------- decoded documents

  // Every number is one of the grammar, as the decoder guarantees.
  ghost predicate Decoded(t: Tree<Literal>) {
    match t
    case JNumber(l) => WellFormed(l)
    case JArray(items) => forall i :: 0 <= i < |items| ==> Decoded(items[i])
    case JObject(members) => forall k :: k in members ==> Decoded(members[k])
    case _ => true
  }

  ghost predicate LiteralInRange(l: Literal)
    requires WellFormed(l)
  {
    -MAX_EXPONENT <= ExponentOf(l.exp) <= MAX_EXPONENT
  }

  // Every number has an exponent within the limit.
  ghost predicate InRange(t: Tree<Literal>)
    requires Decoded(t)
  {
    match t
    case JNumber(l) => LiteralInRange(l)
    case JArray(items) => forall i :: 0 <= i < |items| ==> InRange(items[i])
    case JObject(members) => forall k :: k in members ==> InRange(members[k])
    case _ => true
  }

  // The same document up to how its numbers are written.
  ghost predicate SameValue(t: Tree<Literal>, u: Tree<Literal>)
    requires Decoded(t) && Decoded(u)
  {
    match t
    case JNumber(l) => u.JNumber? && ValueOf(l) == ValueOf(u.n)
    case JArray(items) => u.JArray? && |items| == |u.items| && forall i :: 0 <= i < |items| ==> SameValue(items[i], u.items[i])
    case JObject(members) =>
      u.JObject? && members.Keys == u.members.Keys && forall k :: k in members ==> SameValue(members[k], u.members[k])
    case JNull => u.JNull?
    case JBool(b) => u == JBool(b)
    case JString(s) => u == JString(s)
  }

  ghost function CanonNumber(l: Literal): (c: Canon)
    requires WellFormed(l)
    ensures Proper(c) && ValueOfCanon(c) == ValueOf(l)
  {
    CanonKeepsValue(l);
    CanonOf(l, ExponentOf(l.exp))
  }

  // The document with its numbers in canonical form.
  ghost function Canonized(t: Tree<Literal>): (c: Tree<Canon>)
    requires Decoded(t)
    ensures AllProper(c)
  {
    match t
    case JNull => JNull
    case JBool(b) => JBool(b)
    case JString(s) => JString(s)
    case JNumber(l) => JNumber(CanonNumber(l))
    case JArray(items) => JArray(seq(|items|, i requires 0 <= i < |items| => Canonized(items[i])))
    case JObject(members) => JObject(map k | k in members :: Canonized(members[k]))
  }

  // Documents have the same canonical form exactly when they have the same value.
  lemma {:induction false} CanonizedDecides(t: Tree<Literal>, u: Tree<Literal>)
    requires Decoded(t) && Decoded(u)
    ensures Canonized(t) == Canonized(u) <==> SameValue(t, u)
    decreases t
  {
    hide Proper, ValueOfCanon, ValueOf, WellFormed, CanonNumber;
    match t
    case JNumber(l) => if u.JNumber? { NumbersDecide(l, u.n); }
    case JArray(items) =>
      if u.JArray? && |items| == |u.items| {
        forall i | 0 <= i < |items| ensures Canonized(items[i]) == Canonized(u.items[i]) <==> SameValue(items[i], u.items[i]) {
          CanonizedDecides(items[i], u.items[i]);
        }
        ItemsDecide(t, u);
      }
    case JObject(members) =>
      CanonizedMembers(t);
      if u.JObject? { CanonizedMembers(u); }
      if u.JObject? && members.Keys == u.members.Keys {
        forall k | k in members ensures Canonized(members[k]) == Canonized(u.members[k]) <==> SameValue(members[k], u.members[k]) {
          CanonizedDecides(members[k], u.members[k]);
        }
        MembersDecide(t, u);
      }
    case _ =>
  }

  lemma NumbersDecide(l: Literal, m: Literal)
    requires WellFormed(l) && WellFormed(m)
    ensures CanonNumber(l) == CanonNumber(m) <==> ValueOf(l) == ValueOf(m)
  {
    hide CanonNumber, ValueOf;
    if ValueOf(l) == ValueOf(m) { CanonUnique(CanonNumber(l), CanonNumber(m)); }
  }

  lemma ItemsDecide(t: Tree<Literal>, u: Tree<Literal>)
    requires t.JArray? && u.JArray? && Decoded(t) && Decoded(u) && |t.items| == |u.items|
    ensures Canonized(t) == Canonized(u) <==> forall i :: 0 <= i < |t.items| ==> Canonized(t.items[i]) == Canonized(u.items[i])
  {
    var a, b := Canonized(t).items, Canonized(u).items;
    assert |a| == |b| == |t.items|;
    assert forall i :: 0 <= i < |a| ==> a[i] == Canonized(t.items[i]) && b[i] == Canonized(u.items[i]);
    assert a == b <==> forall i :: 0 <= i < |a| ==> a[i] == b[i];
  }

  lemma MembersDecide(t: Tree<Literal>, u: Tree<Literal>)
    requires t.JObject? && u.JObject? && Decoded(t) && Decoded(u) && t.members.Keys == u.members.Keys
    ensures Canonized(t) == Canonized(u) <==> forall k :: k in t.members ==> Canonized(t.members[k]) == Canonized(u.members[k])
  {
    hide Canonized, Decoded;
    CanonizedMembers(t);
    CanonizedMembers(u);
    MapsDecide(t.members.Keys, Canonized(t).members, Canonized(u).members);
  }

  lemma MapsDecide(keys: set<string>, a: map<string, Tree<Canon>>, b: map<string, Tree<Canon>>)
    requires a.Keys == b.Keys == keys
    ensures a == b <==> forall k :: k in keys ==> a[k] == b[k]
  {
  }

  // The canonical text of a document, unless a number is out of range.
  ghost function CanonicalText(t: Tree<Literal>): Result<string>
    requires Decoded(t)
  {
    if InRange(t) then Ok(Print(Canonized(t))) else Err
  }

  // ---------------------------------------------------------------- the printer

  method MarshalString(value: string) returns (output: string)
    ensures output == Quote(value) && ReadString(output) == Some((value, ""))
  {
    hide Escape;
    output := "\"";
    for i := 0 to |value|
      invariant output + EscapeAll(value[i..]) == "\"" + EscapeAll(value)
    {
      assert value[i..][0] == value[i] && value[i..][1..] == value[i + 1..];
      Associates(output, Escape(value[i]), EscapeAll(value[i + 1..]));
      output := output + Escape(value[i]);
    }
    assert value[|value|..] == "";
    output := output + "\"";
    QuoteReads(value, "");
    assert Quote(value) + "" == Quote(value);
  }

  // Writes a document canonically, whatever the order in which the decoder met the members.
  method AppendCanonical(t: Tree<Literal>) returns (r: Result<string>)
    requires Decoded(t)
    ensures r == CanonicalText(t)
    decreases t
  {
    hide Canonized, WellFormed, Normal, Quote, CanonNumber;
    match t {
      case JNull => CanonizedLeaf(t); return Ok("null");
      case JBool(b) => CanonizedLeaf(t); return Ok(if b then "true" else "false");
      case JString(s) =>
        var quoted := MarshalString(s);
        CanonizedLeaf(t);
        return Ok(quoted);
      case JNumber(l) =>
        r := NormalizeJsonNumber(Text(l));
        NumberCase(l);
      case JArray(_) => r := AppendItems(t);
      case JObject(_) => r := AppendMembers(t);
    }
  }

  lemma CanonizedLeaf(t: Tree<Literal>)
    requires t.JNull? || t.JBool? || t.JString?
    ensures Canonized(t) == (match t case JNull => JNull case JBool(b) => JBool(b) case JString(s) => JString(s) case _ => JNull)
  {
  }

  lemma NumberCase(l: Literal)
    requires WellFormed(l)
    ensures CanonicalText(JNumber(l)) == Normal(l)
  {
    hide Format, Text, CanonOf;
  }

  method AppendItems(t: Tree<Literal>) returns (r: Result<string>)
    requires t.JArray? && Decoded(t)
    ensures r == CanonicalText(t)
    decreases t, 0
  {
    hide Print, CanonicalText, InRange;
    ghost var c := Canonized(t);
    assert c.JArray? && |c.items| == |t.items|;
    hide Canonized, Decoded;
    var output := "[";
    for i := 0 to |t.items|
      invariant output + PrintItems(c, i) == "[" + PrintItems(c, 0)
      invariant forall k :: 0 <= k < i ==> InRange(t.items[k])
    {
      CanonizedItem(t, i);
      if i > 0 { output := output + ","; }
      var item := AppendCanonical(t.items[i]);
      TextOfItem(t, i);
      if item.Err? { return Err; }
      Associates(output, item.value, PrintItems(c, i + 1));
      output := output + item.value;
    }
    ItemsDone(t, output);
    return Ok(output + "]");
  }

  lemma TextOfItem(t: Tree<Literal>, i: nat)
    requires t.JArray? && Decoded(t) && i < |t.items|
    ensures CanonicalText(t.items[i]).Err? ==> CanonicalText(t) == Err
    ensures CanonicalText(t.items[i]).Ok? ==> InRange(t.items[i]) && CanonicalText(t.items[i]).value == Print(Canonized(t.items[i]))
  {
    hide Print, Canonized;
  }

  lemma TextOfMember(t: Tree<Literal>, k: string)
    requires t.JObject? && Decoded(t) && k in t.members
    ensures CanonicalText(t.members[k]).Err? ==> CanonicalText(t) == Err
    ensures CanonicalText(t.members[k]).Ok? ==> InRange(t.members[k]) && CanonicalText(t.members[k]).value == Print(Canonized(t.members[k]))
  {
    hide Print, Canonized;
  }

  lemma CanonizedItem(t: Tree<Literal>, i: nat)
    requires t.JArray? && Decoded(t) && i < |t.items|
    ensures var c := Canonized(t); c.JArray? && |c.items| == |t.items| && c.items[i] == Canonized(t.items[i])
  {
  }

  lemma ItemsDone(t: Tree<Literal>, output: string)
    requires t.JArray? && Decoded(t) && (forall k :: 0 <= k < |t.items| ==> InRange(t.items[k]))
    requires var c := Canonized(t); output + PrintItems(c, |t.items|) == "[" + PrintItems(c, 0)
    ensures CanonicalText(t) == Ok(output + "]")
  {
    hide PrintItems;
    assert Print(Canonized(t)) == "[" + PrintItems(Canonized(t), 0);
    LastItem(Canonized(t));
  }

  lemma LastItem(c: Tree<Canon>)
    requires c.JArray? && AllProper(c)
    ensures PrintItems(c, |c.items|) == "]"
  {
  }

  method AppendMembers(t: Tree<Literal>) returns (r: Result<string>)
    requires t.JObject? && Decoded(t)
    ensures r == CanonicalText(t)
    decreases t, 0
  {
    hide Print, Quote, CanonicalText, InRange;
    ghost var c := Canonized(t);
    var keys := SortIds(t.members.Keys);
    CanonizedMembers(t);
    KeysSorted(t, keys);
    hide Canonized, Ascending, Elements, Listing;
    var output := "{";
    for i := 0 to |keys|
      invariant output + PrintMembers(c, keys, i) == "{" + PrintMembers(c, keys, 0)
      invariant forall k :: 0 <= k < i ==> keys[k] in t.members && InRange(t.members[keys[k]])
    {
      hide PrintMembers;
      var name := MarshalString(keys[i]);
      var member := AppendCanonical(t.members[keys[i]]);
      TextOfMember(t, keys[i]);
      if member.Err? { return Err; }
      MemberStep(c, keys, i, output);
      output := output + (if i > 0 then "," else "") + name + ":" + member.value;
    }
    MembersDone(t, keys, output);
    return Ok(output + "}");
  }

  lemma MemberStep(c: Tree<Canon>, keys: seq<string>, i: nat, output: string)
    requires c.JObject? && AllProper(c) && i < |keys| && forall k :: 0 <= k < |keys| ==> keys[k] in c.members
    ensures (output + (if i > 0 then "," else "") + Quote(keys[i]) + ":" + Print(c.members[keys[i]])) + PrintMembers(c, keys, i + 1)
            == output + PrintMembers(c, keys, i)
  {
    hide Print, Quote;
    var comma, name, value, more := (if i > 0 then "," else ""), Quote(keys[i]), Print(c.members[keys[i]]), PrintMembers(c, keys, i + 1);
    assert PrintMembers(c, keys, i) == comma + (name + (":" + (value + more)));
    FourParts(output, comma, name, value, more);
  }

  lemma FourParts(a: string, b: string, c: string, d: string, e: string)
    ensures (a + b + c + ":" + d) + e == a + (b + (c + (":" + (d + e))))
  {
  }

  lemma KeysSorted(t: Tree<Literal>, keys: seq<string>)
    requires t.JObject? && Decoded(t) && Canonized(t).JObject? && Canonized(t).members.Keys == t.members.Keys
    requires Ascending(keys) && Elements(keys) == t.members.Keys
    ensures keys == Listing(Canonized(t).members.Keys)
    ensures forall k :: 0 <= k < |keys| ==> keys[k] in t.members && keys[k] in Canonized(t).members
  {
    hide Canonized;
    AscendingUnique(keys, Listing(Canonized(t).members.Keys));
    KeysOf(Canonized(t).members);
  }

  lemma CanonizedMembers(t: Tree<Literal>)
    requires t.JObject? && Decoded(t)
    ensures var c := Canonized(t);
            c.JObject? && c.members.Keys == t.members.Keys && forall k :: k in t.members ==> c.members[k] == Canonized(t.members[k])
  {
  }

  lemma MembersDone(t: Tree<Literal>, keys: seq<string>, output: string)
    requires t.JObject? && Decoded(t) && Canonized(t).JObject? && keys == Listing(Canonized(t).members.Keys)
    requires Canonized(t).members.Keys == t.members.Keys
    requires forall k :: 0 <= k < |keys| ==> keys[k] in t.members && keys[k] in Canonized(t).members && InRange(t.members[keys[k]])
    requires var c := Canonized(t); output + PrintMembers(c, keys, |keys|) == "{" + PrintMembers(c, keys, 0)
    ensures CanonicalText(t) == Ok(output + "}")
  {
    hide Canonized;
    var c := Canonized(t);
    forall k | k in t.members ensures InRange(t.members[k]) {
      assert k in Elements(keys);
      var i :| 0 <= i < |keys| && keys[i] == k;
    }
    assert PrintMembers(c, keys, |keys|) == "}";
    assert Print(c) == "{" + PrintMembers(c, keys, 0);
  }
}
