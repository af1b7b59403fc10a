/** The fragment of encoding/json that the metadata streams need: flat objects of strings, integers,
    booleans and nulls, printed compactly and parsed from the front of a text (RFC 8259, sections 4 to 7). */
module Json {
  import opened Wrappers
  import Decimal
  import Hex

  datatype Value = Null | Bool(b: bool) | Number(n: int) | Text(s: string)

  datatype Member = Member(name: string, value: Value)

  // ---------------------------------------------------------------- printing

  /** json.Marshal escapes quotes, backslashes, control characters, the HTML characters and U+2028/U+2029. */
  function PrintChar(c: char): (s: string)
    ensures s != ""
  {
    if c == '"' then "\\\""
    else if c == '\\' then "\\\\"
    else if c == '\n' then "\\n"
    else if c == '\r' then "\\r"
    else if c == '\t' then "\\t"
    else if c < ' ' || c == '<' || c == '>' || c == '&' then
      "\\u00" + [Hex.HexDigit(c as int / 16), Hex.HexDigit(c as int % 16)]
    else if c == '\U{2028}' then "\\u2028"
    else if c == '\U{2029}' then "\\u2029"
    else [c]
  }

  function PrintChars(s: string): string {
    if s == "" then "" else PrintChar(s[0]) + PrintChars(s[1..])
  }

  function PrintString(s: string): string {
    "\"" + PrintChars(s) + "\""
  }

  function PrintValue(v: Value): string {
    match v
    case Null => "null"
    case Bool(b) => if b then "true" else "false"
    case Number(n) => Decimal.PrintInt(n)
    case Text(s) => PrintString(s)
  }

  function PrintMember(m: Member): string {
    PrintString(m.name) + ":" + PrintValue(m.value)
  }

  function PrintMembers(ms: seq<Member>): string
    requires ms != []
  {
    if |ms| == 1 then PrintMember(ms[0]) + "}" else PrintMember(ms[0]) + "," + PrintMembers(ms[1..])
  }

  function PrintObject(ms: seq<Member>): string {
    if ms == [] then "{}" else "{" + PrintMembers(ms)
  }

  // ---------------------------------------------------------------- parsing

  function SkipSpace(s: string): (r: string)
    ensures |r| <= |s|
    ensures r != "" ==> r[0] !in {' ', '\t', '\n', '\r'}
  {
    if s != "" && s[0] in {' ', '\t', '\n', '\r'} then SkipSpace(s[1..]) else s
  }

  function FourDigits(s: string): (r: Option<nat>)
    ensures r.Some? ==> r.value < 0x1_0000
  {
    if |s| < 4 then None
    else
      var a :- Hex.HexValue(s[0]);
      var b :- Hex.HexValue(s[1]);
      var c :- Hex.HexValue(s[2]);
      var d :- Hex.HexValue(s[3]);
      Some(4096 * a + 256 * b + 16 * c + d)
  }

  /** The text after \u: one code unit, or a surrogate pair; an unpaired surrogate decodes to U+FFFD. */
  function ParseUnicode(s: string): (r: Option<(char, string)>)
    ensures r.Some? ==> |r.value.1| < |s|
  {
    var unit :- FourDigits(s);
    if unit < 0xD800 || 0xE000 <= unit then Some((unit as char, s[4..]))
    else
      var next := if |s| >= 10 && s[4] == '\\' && s[5] == 'u' then FourDigits(s[6..]) else None;
      if unit < 0xDC00 && next.Some? && 0xDC00 <= next.value < 0xE000 then
        Some(((0x10000 + 0x400 * (unit - 0xD800) + (next.value - 0xDC00)) as char, s[10..]))
      else Some(('\U{FFFD}', s[4..]))
  }

  /** The text after a backslash. */
  function ParseEscape(s: string): (r: Option<(char, string)>)
    ensures r.Some? ==> |r.value.1| < |s|
  {
    if s == "" then None
    else if s[0] == '"' || s[0] == '\\' || s[0] == '/' then Some((s[0], s[1..]))
    else if s[0] == 'b' then Some((8 as char, s[1..]))
    else if s[0] == 'f' then Some((12 as char, s[1..]))
    else if s[0] == 'n' then Some(('\n', s[1..]))
    else if s[0] == 'r' then Some(('\r', s[1..]))
    else if s[0] == 't' then Some(('\t', s[1..]))
    else if s[0] == 'u' then ParseUnicode(s[1..])
    else None
  }

  /** The text after an opening quote, up to and including the closing one. */
  function ParseChars(s: string): (r: Option<(string, string)>)
    ensures r.Some? ==> |r.value.1| < |s|
    decreases |s|
  {
    if s == "" || s[0] < ' ' then None
    else if s[0] == '"' then Some(("", s[1..]))
    else
      var (c, rest) :- if s[0] == '\\' then ParseEscape(s[1..]) else Some((s[0], s[1..]));
      var (chars, end) :- ParseChars(rest);
      Some(([c] + chars, end))
  }

  function ParseString(s: string): (r: Option<(string, string)>)
    ensures r.Some? ==> |r.value.1| < |s|
  {
    if s == "" || s[0] != '"' then None else ParseChars(s[1..])
  }

  /** An integer with no leading zero; a fraction or an exponent does not fit an integer field. */
  function ParseNumber(s: string): (r: Option<(int, string)>)
    ensures r.Some? ==> |r.value.1| < |s|
  {
    var negative := s != "" && s[0] == '-';
    var (digits, rest) := Decimal.SplitDigits(if negative then s[1..] else s);
    if digits == "" || (|digits| > 1 && digits[0] == '0') then None
    else if rest != "" && rest[0] in {'.', 'e', 'E'} then None
    else
      var n: int := Decimal.Value(digits);
      Some((if negative then -n else n, rest))
  }

  function ParseValue(s: string): (r: Option<(Value, string)>)
    ensures r.Some? ==> |r.value.1| < |s|
  {
    if "null" <= s then Some((Null, s[4..]))
    else if "true" <= s then Some((Bool(true), s[4..]))
    else if "false" <= s then Some((Bool(false), s[5..]))
    else if s != "" && s[0] == '"' then
      var (text, rest) :- ParseString(s);
      Some((Text(text), rest))
    else
      var (n, rest) :- ParseNumber(s);
      Some((Number(n), rest))
  }

  function ParseMember(s: string): (r: Option<(Member, string)>)
    ensures r.Some? ==> |r.value.1| < |s|
  {
    var (name, afterName) :- ParseString(SkipSpace(s));
    var colon := SkipSpace(afterName);
    if colon == "" || colon[0] != ':' then None
    else
      var (value, rest) :- ParseValue(SkipSpace(colon[1..]));
      Some((Member(name, value), SkipSpace(rest)))
  }

  /** One or more members up to and including the closing brace. */
  function ParseMembers(s: string): (r: Option<(seq<Member>, string)>)
    ensures r.Some? ==> |r.value.1| < |s|
    decreases |s|
  {
    var (m, rest) :- ParseMember(s);
    if rest != "" && rest[0] == '}' then Some(([m], rest[1..]))
    else if rest != "" && rest[0] == ',' then
      var (ms, end) :- ParseMembers(rest[1..]);
      Some(([m] + ms, end))
    else None
  }

  function ParseObject(s: string): (r: Option<(seq<Member>, string)>)
    ensures r.Some? ==> |r.value.1| < |s|
  {
    if s == "" || s[0] != '{' then None
    else
      var body := SkipSpace(s[1..]);
      if body != "" && body[0] == '}' then Some(([], body[1..])) else ParseMembers(body)
  }

  // ---------------------------------------------------------------- round trips

  predicate NeedsUnicodeEscape(c: char) {
    c < ' ' || c == '<' || c == '>' || c == '&' || c == '\U{2028}' || c == '\U{2029}'
  }

  lemma FourPrintedDigits(a: nat, b: nat, c: nat, d: nat, rest: string)
    requires a < 16 && b < 16 && c < 16 && d < 16
    ensures FourDigits([Hex.HexDigit(a), Hex.HexDigit(b), Hex.HexDigit(c), Hex.HexDigit(d)] + rest)
            == Some(4096 * a + 256 * b + 16 * c + d)
  {
  }

  lemma ParseUnicodeEscape(c: char, digits: string, rest: string)
    requires |digits| == 4 && FourDigits(digits + rest) == Some(c as nat) && c as nat < 0xD800
    ensures ParseEscape("u" + digits + rest) == Some((c, rest))
  {
    var s := "u" + digits + rest;
    assert s[1..] == digits + rest;
    assert s[1..][4..] == rest;
  }

  lemma UnicodeEscapeOf(c: char, rest: string) returns (digits: string)
    requires NeedsUnicodeEscape(c) && c !in {'\n', '\r', '\t'}
    ensures |digits| == 4 && PrintChar(c) == "\\u" + digits
    ensures FourDigits(digits + rest) == Some(c as nat) && c as nat < 0xD800
  {
    if c == '\U{2028}' {
      digits := "2028";
      FourPrintedDigits(2, 0, 2, 8, rest);
      assert [Hex.HexDigit(2), Hex.HexDigit(0), Hex.HexDigit(2), Hex.HexDigit(8)] == digits;
    } else if c == '\U{2029}' {
      digits := "2029";
      FourPrintedDigits(2, 0, 2, 9, rest);
      assert [Hex.HexDigit(2), Hex.HexDigit(0), Hex.HexDigit(2), Hex.HexDigit(9)] == digits;
    } else {
      var high, low := c as int / 16, c as int % 16;
      digits := [Hex.HexDigit(0), Hex.HexDigit(0), Hex.HexDigit(high), Hex.HexDigit(low)];
      FourPrintedDigits(0, 0, high, low, rest);
      assert "\\u" + digits == "\\u00" + [Hex.HexDigit(high), Hex.HexDigit(low)];
    }
  }

  /** The part of an escaped character after its backslash reads back as that character. */
  lemma ParsePrintedEscape(c: char, rest: string)
    requires NeedsUnicodeEscape(c) || c == '"' || c == '\\'
    ensures PrintChar(c)[0] == '\\'
    ensures ParseEscape(PrintChar(c)[1..] + rest) == Some((c, rest))
  {
    var s := PrintChar(c)[1..] + rest;
    if c in {'"', '\\', '\n', '\r', '\t'} {
      assert s[1..] == rest;
    } else {
      var digits := UnicodeEscapeOf(c, rest);
      assert s == "u" + digits + rest;
      ParseUnicodeEscape(c, digits, rest);
    }
  }

  lemma ParsePrintedChar(c: char, rest: string)
    ensures ParseChars(PrintChar(c) + rest) ==
            match ParseChars(rest) case None => None case Some((chars, end)) => Some(([c] + chars, end))
  {
    var s := PrintChar(c) + rest;
    if NeedsUnicodeEscape(c) || c == '"' || c == '\\' {
      ParsePrintedEscape(c, rest);
      assert s[1..] == PrintChar(c)[1..] + rest;
    } else {
      assert s[1..] == rest;
    }
  }

  lemma Assoc(a: string, b: string, c: string)
    ensures a + b + c == a + (b + c)
  {
  }

  lemma {:induction false} ParsePrintedChars(v: string, rest: string)
    ensures ParseChars(PrintChars(v) + ("\"" + rest)) == Some((v, rest))
  {
    var tail := "\"" + rest;
    if v == "" {
      assert PrintChars(v) + tail == tail;
      assert tail[1..] == rest;
    } else {
      ParsePrintedChars(v[1..], rest);
      Assoc(PrintChar(v[0]), PrintChars(v[1..]), tail);
      ParsePrintedChar(v[0], PrintChars(v[1..]) + tail);
      assert [v[0]] + v[1..] == v;
    }
  }

  lemma ParsePrintedString(v: string, rest: string)
    ensures ParseString(PrintString(v) + rest) == Some((v, rest))
  {
    ParsePrintedChars(v, rest);
    Assoc(PrintChars(v), "\"", rest);
    assert (PrintString(v) + rest)[1..] == PrintChars(v) + "\"" + rest;
  }

  /** Digits of a JSON number, and what must follow them. */
  predicate Numeral(digits: string, rest: string) {
    && digits != "" && Decimal.AllDigits(digits) && (|digits| > 1 ==> digits[0] != '0')
    && rest != "" && (rest[0] == ',' || rest[0] == '}')
  }

  lemma ParseNatural(digits: string, rest: string)
    requires Numeral(digits, rest)
    ensures ParseNumber(digits + rest) == Some((Decimal.Value(digits), rest))
  {
    Decimal.SplitDigitsAppend(digits, rest);
    assert Decimal.IsDigit(digits[0]);
  }

  /** A minus sign before a number negates it. */
  lemma Negated(s: string)
    requires s != "" && s[0] != '-' && ParseNumber(s).Some?
    ensures ParseNumber("-" + s) == Some((0 - ParseNumber(s).value.0, ParseNumber(s).value.1))
  {
    var t := "-" + s;
    assert t[0] == '-' && t[1..] == s;
  }

  lemma ParsePrintedNumber(n: int, rest: string)
    requires rest != "" && (rest[0] == ',' || rest[0] == '}')
    ensures ParseNumber(Decimal.PrintInt(n) + rest) == Some((n, rest))
  {
    var m: nat := if n < 0 then -n else n;
    var digits := Decimal.Print(m);
    Decimal.ValueOfPrint(m);
    if n < 0 {
      var text := digits + rest;
      ParseNatural(digits, rest);
      assert text[0] == digits[0];
      Negated(text);
      Assoc("-", digits, rest);
    } else {
      ParseNatural(digits, rest);
    }
  }

  lemma ParsePrintedWord(v: Value, rest: string)
    requires v.Null? || v.Bool?
    ensures ParseValue(PrintValue(v) + rest) == Some((v, rest))
  {
    var s := PrintValue(v) + rest;
    if v.Null? {
      assert s == "null" + rest && s[4..] == rest;
    } else if v.b {
      assert s == "true" + rest && s[0] == 't' && s[4..] == rest;
    } else {
      assert s == "false" + rest && s[0] == 'f' && s[5..] == rest;
    }
  }

  /** A printed value is self-delimiting: what follows it inside an object is left untouched. */
  lemma ParsePrintedValue(v: Value, rest: string)
    requires rest != "" && (rest[0] == ',' || rest[0] == '}')
    ensures ParseValue(PrintValue(v) + rest) == Some((v, rest))
  {
    var s := PrintValue(v) + rest;
    match v
    case Null => ParsePrintedWord(v, rest);
    case Bool(_) => ParsePrintedWord(v, rest);
    case Number(n) =>
      ParsePrintedNumber(n, rest);
      assert s[0] == '-' || Decimal.IsDigit(s[0]);
    case Text(t) => ParsePrintedString(t, rest);
  }

  lemma PrintedValueStart(v: Value, rest: string)
    ensures SkipSpace(PrintValue(v) + rest) == PrintValue(v) + rest
  {
    match v
    case Number(n) => assert PrintValue(v)[0] == '-' || Decimal.IsDigit(PrintValue(v)[0]);
    case _ =>
  }

  lemma PrintedMemberSplit(m: Member, rest: string)
    ensures PrintMember(m) + rest == PrintString(m.name) + (":" + (PrintValue(m.value) + rest))
  {
    Assoc(PrintString(m.name), ":", PrintValue(m.value));
    Assoc(PrintString(m.name), ":" + PrintValue(m.value), rest);
    Assoc(":", PrintValue(m.value), rest);
  }

  lemma ParsePrintedMember(m: Member, rest: string)
    requires rest != "" && (rest[0] == ',' || rest[0] == '}')
    ensures ParseMember(PrintMember(m) + rest) == Some((m, rest))
  {
    var value := PrintValue(m.value) + rest;
    PrintedMemberSplit(m, rest);
    ParsePrintedString(m.name, ":" + value);
    assert (":" + value)[1..] == value;
    PrintedValueStart(m.value, rest);
    ParsePrintedValue(m.value, rest);
  }

  lemma MembersStep(s: string, m: Member, rest: string)
    requires ParseMember(s) == Some((m, rest)) && rest != ""
    ensures rest[0] == '}' ==> ParseMembers(s) == Some(([m], rest[1..]))
    ensures rest[0] == ',' && ParseMembers(rest[1..]).Some? ==>
              ParseMembers(s) == Some(([m] + ParseMembers(rest[1..]).value.0, ParseMembers(rest[1..]).value.1))
  {
  }

  /** What follows the first member of a printed member list. */
  function AfterFirst(ms: seq<Member>, rest: string): string
    requires ms != []
  {
    if |ms| == 1 then "}" + rest else "," + (PrintMembers(ms[1..]) + rest)
  }

  lemma PrintedMembersSplit(ms: seq<Member>, rest: string)
    requires ms != []
    ensures PrintMembers(ms) + rest == PrintMember(ms[0]) + AfterFirst(ms, rest)
  {
    var first := PrintMember(ms[0]);
    if |ms| == 1 {
      Assoc(first, "}", rest);
    } else {
      var others := PrintMembers(ms[1..]);
      Assoc(first, ",", others);
      Assoc(first, "," + others, rest);
      Assoc(",", others, rest);
    }
  }

  lemma {:induction false} ParsePrintedMembers(ms: seq<Member>, rest: string)
    requires ms != []
    ensures ParseMembers(PrintMembers(ms) + rest) == Some((ms, rest))
  {
    var tail := AfterFirst(ms, rest);
    PrintedMembersSplit(ms, rest);
    ParsePrintedMember(ms[0], tail);
    MembersStep(PrintMember(ms[0]) + tail, ms[0], tail);
    assert tail[1..] == if |ms| == 1 then rest else PrintMembers(ms[1..]) + rest;
    if |ms| > 1 {
      ParsePrintedMembers(ms[1..], rest);
      assert ms == [ms[0]] + ms[1..];
    } else {
      assert ms == [ms[0]];
    }
  }

  lemma PrintedMembersStart(ms: seq<Member>)
    requires ms != []
    ensures PrintMembers(ms)[0] == '"'
  {
    assert PrintMember(ms[0])[0] == '"';
  }

  lemma ObjectStep(body: string)
    requires body != "" && body[0] == '"'
    ensures ParseObject("{" + body) == ParseMembers(body)
  {
    assert ("{" + body)[1..] == body;
    assert SkipSpace(body) == body;
  }

  lemma ParseEmptyObject(rest: string)
    ensures ParseObject("{}" + rest) == Some(([], rest))
  {
    var s := "{}" + rest;
    assert s[1..] == "}" + rest && s[1..][1..] == rest;
  }

  /** A printed object is self-delimiting: parsing it back stops exactly at its closing brace. */
  lemma ParsePrintedObject(ms: seq<Member>, rest: string)
    ensures ParseObject(PrintObject(ms) + rest) == Some((ms, rest))
  {
    if ms == [] {
      ParseEmptyObject(rest);
    } else {
      var members := PrintMembers(ms);
      PrintedMembersStart(ms);
      Assoc("{", members, rest);
      assert (members + rest)[0] == '"';
      ObjectStep(members + rest);
      ParsePrintedMembers(ms, rest);
    }
  }
}
