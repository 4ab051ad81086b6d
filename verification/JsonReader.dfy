/**
 Reading JSON as the grammar of RFC 8259 says: white space (section 2), values (section 3), objects and
 arrays (sections 4 and 5), numbers (section 6) and strings (section 7).  Numbers are kept as they are
 written; an object that repeats a name is refused.
 */
module JsonReader {
  import opened Json
  import opened Numbers

  datatype Tree<N> =
    | JNull
    | JBool(b: bool)
    | JString(s: string)
    | JNumber(n: N)
    | JArray(items: seq<Tree<N>>)
    | JObject(members: map<string, Tree<N>>)

  // ---------------------------------------------------------------- white space

  predicate IsSpace(c: char) {
    c == ' ' || c == '\t' || c == '\n' || c == '\r'
  }

  function SkipSpace(s: string): (r: string)
    ensures |r| <= |s|
  {
    if s != "" && IsSpace(s[0]) then SkipSpace(s[1..]) else s
  }

  // ---------------------------------------------------------------- strings

  function HexValue(c: char): (n: Option<nat>)
    ensures n.Some? ==> n.value < 16
  {
    if '0' <= c <= '9' then Some(c as int - '0' as int)
    else if 'a' <= c <= 'f' then Some(c as int - 'a' as int + 10)
    else if 'A' <= c <= 'F' then Some(c as int - 'A' as int + 10)
    else None
  }

  // The code unit that four hexadecimal digits stand for.
  function HexCode(a: char, b: char, c: char, d: char): (n: Option<nat>)
    ensures n.Some? ==> n.value < 0x10000
  {
    var w, x, y, z := HexValue(a), HexValue(b), HexValue(c), HexValue(d);
    if w.None? || x.None? || y.None? || z.None? then None
    else Some(w.value * 4096 + x.value * 256 + y.value * 16 + z.value)
  }

  // The character that a backslash and one more character stand for.
  function ShortEscape(c: char): Option<char> {
    if c == '"' then Some('"')
    else if c == '\\' then Some('\\')
    else if c == '/' then Some('/')
    else if c == 'b' then Some(0x08 as char)
    else if c == 'f' then Some(0x0C as char)
    else if c == 'n' then Some(0x0A as char)
    else if c == 'r' then Some(0x0D as char)
    else if c == 't' then Some(0x09 as char)
    else None
  }

  // A backslash, the letter u and four digits; a character outside the basic plane takes two of them.
  function ReadUnicode(s: string): (r: Option<(char, string)>)
    requires |s| >= 2
    ensures r.Some? ==> |r.value.1| < |s|
  {
    if |s| < 6 || HexCode(s[2], s[3], s[4], s[5]).None? then None
    else
      var code := HexCode(s[2], s[3], s[4], s[5]).value;
      if code < 0xD800 || 0xE000 <= code then Some((code as char, s[6..]))
      else if 0xDC00 <= code || |s| < 12 || s[6] != '\\' || s[7] != 'u' || HexCode(s[8], s[9], s[10], s[11]).None? then None
      else
        var low := HexCode(s[8], s[9], s[10], s[11]).value;
        if low < 0xDC00 || 0xE000 <= low then None
        else Some(((0x10000 + (code - 0xD800) * 0x400 + (low - 0xDC00)) as char, s[12..]))
  }

  // One character of a string, escaped or not; control characters have to be escaped.
  function ReadChar(s: string): (r: Option<(char, string)>)
    requires s != ""
    ensures r.Some? ==> |r.value.1| < |s|
  {
    if s[0] == '\\' then
      if |s| < 2 then None
      else if s[1] == 'u' then ReadUnicode(s)
      else
        match ShortEscape(s[1])
        case Some(c) => Some((c, s[2..]))
        case None => None
    else if s[0] as int < 0x20 then None
    else Some((s[0], s[1..]))
  }

  // The characters up to the closing quotation mark.
  function ReadChars(s: string): (r: Option<(string, string)>)
    ensures r.Some? ==> |r.value.1| < |s|
    decreases |s|
  {
    if s == "" then None
    else if s[0] == '"' then Some(("", s[1..]))
    else
      match ReadChar(s)
      case None => None
      case Some((c, rest)) =>
        match ReadChars(rest)
        case None => None
        case Some((more, after)) => Some(([c] + more, after))
  }

  function ReadString(s: string): (r: Option<(string, string)>)
    ensures r.Some? ==> |r.value.1| < |s|
  {
    if s != "" && s[0] == '"' then ReadChars(s[1..]) else None
  }

  // ---------------------------------------------------------------- numbers

  // How many digits the text starts with.
  function DigitCount(s: string): (n: nat)
    ensures n <= |s|
  {
    if s != "" && IsDigit(s[0]) then 1 + DigitCount(s[1..]) else 0
  }

  // A point and at least one digit, or nothing.
  function ReadFraction(s: string): (r: Option<(string, string)>)
    ensures r.Some? ==> |r.value.1| <= |s|
  {
    if s == "" || s[0] != '.' then Some(("", s))
    else
      var n := DigitCount(s[1..]);
      if n == 0 then None else Some((s[1..][..n], s[1..][n..]))
  }

  // The letter e, a sign or none, and at least one digit; or nothing.
  function ReadPower(s: string): (r: Option<(Exponent, string)>)
    ensures r.Some? ==> |r.value.1| <= |s|
  {
    if s == "" || (s[0] != 'e' && s[0] != 'E') then Some((NoExponent, s))
    else
      var rest := s[1..];
      var sign := if rest == "" then Unsigned else if rest[0] == '+' then Plus else if rest[0] == '-' then Minus else Unsigned;
      var digits := if sign.Unsigned? then rest else rest[1..];
      var n := DigitCount(digits);
      if n == 0 then None else Some((Power(s[0] == 'E', sign, digits[..n]), digits[n..]))
  }

  // The integer part has no leading zeros.
  function ReadNumber(s: string): (r: Option<(Literal, string)>)
    ensures r.Some? ==> |r.value.1| < |s|
  {
    var neg := s != "" && s[0] == '-';
    var body := if neg then s[1..] else s;
    var n := DigitCount(body);
    if n == 0 then None
    else
      var k := if body[0] == '0' then 1 else n;
      match ReadFraction(body[k..])
      case None => None
      case Some((frac, rest)) =>
        match ReadPower(rest)
        case None => None
        case Some((exp, after)) => Some((Literal(neg, body[..k], frac, exp), after))
  }

  // ---------------------------------------------------------------- values

  predicate Begins(s: string, word: string) {
    |word| <= |s| && s[..|word|] == word
  }

  // One value and what follows it.
  function ReadValue(s: string): (r: Option<(Tree<Literal>, string)>)
    ensures r.Some? ==> |r.value.1| < |s|
    decreases |s|, 0
  {
    var t := SkipSpace(s);
    if t == "" then None
    else if Begins(t, "null") then Some((JNull, t[4..]))
    else if Begins(t, "true") then Some((JBool(true), t[4..]))
    else if Begins(t, "false") then Some((JBool(false), t[5..]))
    else if t[0] == '"' then
      (match ReadString(t) case None => None case Some((x, rest)) => Some((JString(x), rest)))
    else if t[0] == '[' then
      var u := SkipSpace(t[1..]);
      if u != "" && u[0] == ']' then Some((JArray([]), u[1..]))
      else (match ReadItems(t[1..]) case None => None case Some((items, rest)) => Some((JArray(items), rest)))
    else if t[0] == '{' then
      var u := SkipSpace(t[1..]);
      if u != "" && u[0] == '}' then Some((JObject(map[]), u[1..]))
      else (match ReadMembers(t[1..]) case None => None case Some((members, rest)) => Some((JObject(members), rest)))
    else
      (match ReadNumber(t) case None => None case Some((l, rest)) => Some((JNumber(l), rest)))
  }

  // Values separated by commas, and the closing bracket.
  function ReadItems(s: string): (r: Option<(seq<Tree<Literal>>, string)>)
    ensures r.Some? ==> |r.value.1| < |s|
    decreases |s|, 1
  {
    match ReadValue(s)
    case None => None
    case Some((item, rest)) =>
      var t := SkipSpace(rest);
      if t != "" && t[0] == ']' then Some(([item], t[1..]))
      else if t != "" && t[0] == ',' then
        (match ReadItems(t[1..]) case None => None case Some((items, after)) => Some(([item] + items, after)))
      else None
  }

  // A name, a colon and its value.
  function ReadMember(s: string): (r: Option<(string, Tree<Literal>, string)>)
    ensures r.Some? ==> |r.value.2| < |s|
    decreases |s|, 1
  {
    match ReadString(SkipSpace(s))
    case None => None
    case Some((name, rest)) =>
      var t := SkipSpace(rest);
      if t == "" || t[0] != ':' then None
      else
        match ReadValue(t[1..])
        case None => None
        case Some((value, after)) => Some((name, value, after))
  }

  // Members separated by commas, and the closing brace.
  function ReadMembers(s: string): (r: Option<(map<string, Tree<Literal>>, string)>)
    ensures r.Some? ==> |r.value.1| < |s|
    decreases |s|, 2
  {
    match ReadMember(s)
    case None => None
    case Some((name, value, rest)) =>
      var t := SkipSpace(rest);
      if t != "" && t[0] == '}' then Some((map[name := value], t[1..]))
      else if t != "" && t[0] == ',' then
        (match ReadMembers(t[1..])
         case None => None
         case Some((members, after)) => if name in members then None else Some((members[name := value], after)))
      else None
  }

  // A document is one value, with white space around it.
  function ReadDocument(s: string): Option<Tree<Literal>> {
    match ReadValue(s)
    case None => None
    case Some((t, rest)) => if SkipSpace(rest) == "" then Some(t) else None
  }
}
