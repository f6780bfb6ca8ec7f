/**
JSON: values, the compact text the serializers write, and a strict parser for the grammar of RFC 8259
(sections 2 to 7). The parser knows nothing of the printer; `TextUndone` says it undoes it.
*/
module Json {
  import opened Text

  // Numbers, section 6 of RFC 8259.

  predicate IsNumberChar(c: char) {
    IsDigit(c) || c == '-' || c == '+' || c == '.' || c == 'e' || c == 'E'
  }

  function LeadingDigits(s: string): (n: nat)
    ensures n <= |s| && AllDigits(s[..n])
    ensures n < |s| ==> !IsDigit(s[n])
  {
    if s == "" || !IsDigit(s[0]) then 0
    else
      var n := LeadingDigits(s[1..]);
      assert s[..n + 1] == [s[0]] + s[1..][..n];
      n + 1
  }

  predicate IsExponent(s: string) {
    s == "" ||
    (&& (s[0] == 'e' || s[0] == 'E')
     && var digits := if |s| > 1 && (s[1] == '+' || s[1] == '-') then s[2..] else s[1..];
        digits != "" && AllDigits(digits))
  }

  predicate IsFraction(s: string) {
    if s != "" && s[0] == '.' then
      var n := LeadingDigits(s[1..]);
      n > 0 && IsExponent(s[1..][n..])
    else IsExponent(s)
  }

  predicate IsUnsigned(s: string) {
    var n := LeadingDigits(s);
    n > 0 && (s[0] == '0' ==> n == 1) && IsFraction(s[n..])
  }

  predicate IsNumber(s: string) {
    IsUnsigned(if s != "" && s[0] == '-' then s[1..] else s)
  }

  lemma {:induction false} AllDigitsLeading(s: string)
    requires AllDigits(s)
    ensures LeadingDigits(s) == |s|
  {
    if s != "" {
      AllDigitsLeading(s[1..]);
    }
  }

  lemma {:induction false} DecimalIsNumber(n: nat)
    ensures IsNumber(Decimal(n))
  {
    var s := Decimal(n);
    AllDigitsLeading(s);
    assert IsDigit(s[0]);
    assert s[|s|..] == "";
  }

  lemma {:induction false} SignedDecimalIsNumber(i: int)
    ensures IsNumber(SignedDecimal(i))
  {
    if i < 0 {
      DecimalIsNumber(-i);
      assert IsDigit(Decimal(-i)[0]);
      assert ("-" + Decimal(-i))[1..] == Decimal(-i);
    } else {
      DecimalIsNumber(i);
    }
  }

  type NumberToken = s: string | IsNumber(s) witness DefaultNumber()

  function DefaultNumber(): (s: string)
    ensures IsNumber(s)
  {
    DecimalIsNumber(0);
    Decimal(0)
  }

  predicate AllNumberChars(s: string) {
    forall i :: 0 <= i < |s| ==> IsNumberChar(s[i])
  }

  lemma {:induction false} ExponentChars(s: string)
    requires IsExponent(s)
    ensures AllNumberChars(s)
  {
    if s != "" {
      var k := if |s| > 1 && (s[1] == '+' || s[1] == '-') then 2 else 1;
      assert AllDigits(s[k..]);
      forall i | 0 <= i < |s| ensures IsNumberChar(s[i]) {
        assert i >= k ==> s[i] == s[k..][i - k];
      }
    }
  }

  lemma {:induction false} FractionChars(s: string)
    requires IsFraction(s)
    ensures AllNumberChars(s)
  {
    if s != "" && s[0] == '.' {
      var n := LeadingDigits(s[1..]);
      ExponentChars(s[1..][n..]);
      assert s == "." + s[1..][..n] + s[1..][n..];
    } else {
      ExponentChars(s);
    }
  }

  lemma {:induction false} NumberChars(s: string)
    requires IsNumber(s)
    ensures s != "" && AllNumberChars(s) && (s[0] == '-' || IsDigit(s[0]))
  {
    var u := if s != "" && s[0] == '-' then s[1..] else s;
    var n := LeadingDigits(u);
    FractionChars(u[n..]);
    assert u == u[..n] + u[n..];
    assert s == u || s == "-" + u;
    assert u[0] == u[..n][0];
  }

  // Values and their compact text.

  datatype Member = Member(key: string, value: Value)

  datatype Value =
    | Null
    | Bool(b: bool)
    | Number(token: NumberToken)
    | Str(s: string)
    | Array(items: seq<Value>)
    | Object(members: seq<Member>)

  const HEX: string := "0123456789ABCDEF"

  /** What append_json_escaped writes for one byte. */
  function EscapeChar(c: char): string {
    if c == '"' then "\\\""
    else if c == '\\' then "\\\\"
    else if c == 8 as char then "\\b"
    else if c == 12 as char then "\\f"
    else if c == '\n' then "\\n"
    else if c == '\r' then "\\r"
    else if c == '\t' then "\\t"
    else if c < ' ' then "\\u00" + [HEX[c as int / 16], HEX[c as int % 16]]
    else [c]
  }

  function Escape(s: string): string {
    if s == "" then "" else EscapeChar(s[0]) + Escape(s[1..])
  }

  function Quote(s: string): string {
    "\"" + Escape(s) + "\""
  }

  function Print(v: Value): string
    decreases v, 1
  {
    match v
    case Null => "null"
    case Bool(b) => if b then "true" else "false"
    case Number(token) => token
    case Str(s) => Quote(s)
    case Array(items) => "[" + PrintItems(items) + "]"
    case Object(members) => "{" + PrintMembers(members) + "}"
  }

  function PrintItems(items: seq<Value>): string
    decreases items, 0
  {
    if items == [] then ""
    else if |items| == 1 then Print(items[0])
    else Print(items[0]) + "," + PrintItems(items[1..])
  }

  function PrintMember(m: Member): string
    decreases m, 2
  {
    Quote(m.key) + ":" + Print(m.value)
  }

  function PrintMembers(members: seq<Member>): string
    decreases members, 0
  {
    if members == [] then ""
    else if |members| == 1 then PrintMember(members[0])
    else PrintMember(members[0]) + "," + PrintMembers(members[1..])
  }

  // The parser. Every parser returns what is left of the text, or fails.

  datatype Parsed<T> = Fail | Done(value: T, rest: string)

  predicate IsSpace(c: char) {
    c == ' ' || c == '\t' || c == '\n' || c == '\r'
  }

  function SkipSpace(s: string): (r: string)
    ensures |r| <= |s|
  {
    if s != "" && IsSpace(s[0]) then SkipSpace(s[1..]) else s
  }

  function HexDigit(c: char): int {
    if '0' <= c <= '9' then c as int - '0' as int
    else if 'A' <= c <= 'F' then c as int - 'A' as int + 10
    else if 'a' <= c <= 'f' then c as int - 'a' as int + 10
    else -1
  }

  /** Four hexadecimal digits, or -1. */
  function Hex4(s: string): (u: int)
    ensures -1 <= u < 0x1_0000
    ensures u >= 0 ==> |s| >= 4
  {
    if |s| < 4 || HexDigit(s[0]) < 0 || HexDigit(s[1]) < 0 || HexDigit(s[2]) < 0 || HexDigit(s[3]) < 0 then -1
    else ((HexDigit(s[0]) * 16 + HexDigit(s[1])) * 16 + HexDigit(s[2])) * 16 + HexDigit(s[3])
  }

  /** The UTF-8 bytes of a code point. */
  function Utf8(cp: nat): string
    requires cp < 0x11_0000
  {
    if cp < 0x80 then [cp as char]
    else if cp < 0x800 then [(0xC0 + cp / 0x40) as char, (0x80 + cp % 0x40) as char]
    else if cp < 0x1_0000 then
      [(0xE0 + cp / 0x1000) as char, (0x80 + cp / 0x40 % 0x40) as char, (0x80 + cp % 0x40) as char]
    else
      [(0xF0 + cp / 0x4_0000) as char, (0x80 + cp / 0x1000 % 0x40) as char,
       (0x80 + cp / 0x40 % 0x40) as char, (0x80 + cp % 0x40) as char]
  }

  /** After "\u": one code unit, or a surrogate pair. */
  function ParseUnicode(s: string): (r: Parsed<string>)
    ensures r.Done? ==> |r.rest| < |s|
  {
    var u := Hex4(s);
    if u < 0 then Fail
    else if u < 0xD800 || u >= 0xE000 then Done(Utf8(u), s[4..])
    else if u < 0xDC00 && |s| >= 6 && s[4] == '\\' && s[5] == 'u' && 0xDC00 <= Hex4(s[6..]) < 0xE000 then
      Done(Utf8(0x1_0000 + (u - 0xD800) * 0x400 + (Hex4(s[6..]) - 0xDC00)), s[10..])
    else Fail
  }

  /** After a backslash. */
  function ParseEscape(s: string): (r: Parsed<string>)
    ensures r.Done? ==> |r.rest| < |s|
  {
    if s == "" then Fail
    else match s[0]
      case '"' => Done("\"", s[1..])
      case '\\' => Done("\\", s[1..])
      case '/' => Done("/", s[1..])
      case 'b' => Done([8 as char], s[1..])
      case 'f' => Done([12 as char], s[1..])
      case 'n' => Done("\n", s[1..])
      case 'r' => Done("\r", s[1..])
      case 't' => Done("\t", s[1..])
      case 'u' => ParseUnicode(s[1..])
      case _ => Fail
  }

  function Prepend(s: string, r: Parsed<string>): Parsed<string> {
    match r
    case Fail => Fail
    case Done(t, rest) => Done(s + t, rest)
  }

  /** After the opening quotation mark: up to and including the closing one. Section 7 of RFC 8259. */
  function ParseString(s: string): (r: Parsed<string>)
    ensures r.Done? ==> |r.rest| < |s|
    decreases |s|
  {
    if s == "" || s[0] < ' ' then Fail
    else if s[0] == '"' then Done("", s[1..])
    else if s[0] == '\\' then
      match ParseEscape(s[1..])
      case Fail => Fail
      case Done(c, rest) => Prepend(c, ParseString(rest))
    else Prepend([s[0]], ParseString(s[1..]))
  }

  function NumberRun(s: string): (n: nat)
    ensures n <= |s|
  {
    if s != "" && IsNumberChar(s[0]) then 1 + NumberRun(s[1..]) else 0
  }

  function ParseNumber(s: string): (r: Parsed<Value>)
    ensures r.Done? ==> |r.rest| < |s|
  {
    var n := NumberRun(s);
    if IsNumber(s[..n]) then
      NumberChars(s[..n]);
      Done(Number(s[..n]), s[n..])
    else Fail
  }

  function ParseLiteral(s: string, word: string, v: Value): (r: Parsed<Value>)
    requires word != ""
    ensures r.Done? ==> |r.rest| < |s|
  {
    if word <= s then Done(v, s[|word|..]) else Fail
  }

  function ParseValue(s: string): (r: Parsed<Value>)
    ensures r.Done? ==> |r.rest| < |s|
    decreases |s|, 0
  {
    if s == "" then Fail
    else match s[0]
      case '{' =>
        var t := SkipSpace(s[1..]);
        if t != "" && t[0] == '}' then Done(Object([]), t[1..])
        else (
          match ParseMembers(t)
          case Fail => Fail
          case Done(members, rest) => Done(Object(members), rest))
      case '[' =>
        var t := SkipSpace(s[1..]);
        if t != "" && t[0] == ']' then Done(Array([]), t[1..])
        else (
          match ParseItems(t)
          case Fail => Fail
          case Done(items, rest) => Done(Array(items), rest))
      case '"' => (
        match ParseString(s[1..])
        case Fail => Fail
        case Done(text, rest) => Done(Str(text), rest))
      case 'n' => ParseLiteral(s, "null", Null)
      case 't' => ParseLiteral(s, "true", Bool(true))
      case 'f' => ParseLiteral(s, "false", Bool(false))
      case _ => ParseNumber(s)
  }

  /** One or more values up to and including the closing bracket. */
  function ParseItems(s: string): (r: Parsed<seq<Value>>)
    ensures r.Done? ==> |r.rest| < |s|
    decreases |s|, 1
  {
    match ParseValue(s)
    case Fail => Fail
    case Done(v, after) =>
      var t := SkipSpace(after);
      if t == "" then Fail
      else if t[0] == ']' then Done([v], t[1..])
      else if t[0] == ',' then (
        match ParseItems(SkipSpace(t[1..]))
        case Fail => Fail
        case Done(items, rest) => Done([v] + items, rest))
      else Fail
  }

  /** name : value */
  function ParseMember(s: string): (r: Parsed<Member>)
    ensures r.Done? ==> |r.rest| < |s|
    decreases |s|, 1
  {
    if s == "" || s[0] != '"' then Fail
    else match ParseString(s[1..])
      case Fail => Fail
      case Done(key, after) =>
        var t := SkipSpace(after);
        if t == "" || t[0] != ':' then Fail
        else match ParseValue(SkipSpace(t[1..]))
          case Fail => Fail
          case Done(v, rest) => Done(Member(key, v), rest)
  }

  /** One or more members up to and including the closing brace. */
  function ParseMembers(s: string): (r: Parsed<seq<Member>>)
    ensures r.Done? ==> |r.rest| < |s|
    decreases |s|, 2
  {
    match ParseMember(s)
    case Fail => Fail
    case Done(m, after) =>
      var t := SkipSpace(after);
      if t == "" then Fail
      else if t[0] == '}' then Done([m], t[1..])
      else if t[0] == ',' then (
        match ParseMembers(SkipSpace(t[1..]))
        case Fail => Fail
        case Done(members, rest) => Done([m] + members, rest))
      else Fail
  }

  datatype Option<T> = None | Some(value: T)

  /** A JSON text: one value, with nothing but white space around it. */
  function ParseText(s: string): Option<Value> {
    match ParseValue(SkipSpace(s))
    case Fail => None
    case Done(v, rest) => if SkipSpace(rest) == "" then Some(v) else None
  }

  // The parser undoes the printer.

  /** Bytes with an escape of their own, and the letter of that escape. */
  predicate HasShort(c: char) {
    c == '"' || c == '\\' || c == 8 as char || c == 12 as char || c == '\n' || c == '\r' || c == '\t'
  }

  function ShortFor(c: char): char {
    if c == 8 as char then 'b' else if c == 12 as char then 'f' else if c == '\n' then 'n'
    else if c == '\r' then 'r' else if c == '\t' then 't' else c
  }

  lemma {:induction false} ShortText(c: char)
    requires HasShort(c)
    ensures EscapeChar(c) == ['\\', ShortFor(c)]
  {
  }

  lemma {:induction false} ShortParsed(c: char, s: string)
    requires HasShort(c) && s != "" && s[0] == ShortFor(c)
    ensures ParseEscape(s) == Done([c], s[1..])
  {
  }

  lemma {:induction false} ShortUndone(c: char, s: string)
    requires HasShort(c)
    ensures ParseString(EscapeChar(c) + s) == Prepend([c], ParseString(s))
  {
    ShortText(c);
    var t := ['\\', ShortFor(c)] + s;
    assert t[0] == '\\' && t[1..][0] == ShortFor(c) && t[1..][1..] == s;
    ShortParsed(c, t[1..]);
  }

  lemma {:induction false} HexOf(d: nat)
    requires d < 16
    ensures HexDigit(HEX[d]) == d
  {
  }

  lemma {:induction false} ControlEscape(c: char, s: string)
    requires c < ' '
    ensures ParseEscape("u00" + [HEX[c as int / 16], HEX[c as int % 16]] + s) == Done([c], s)
  {
    var h, l := HEX[c as int / 16], HEX[c as int % 16];
    HexOf(c as int / 16);
    HexOf(c as int % 16);
    var t := "u00" + [h, l] + s;
    assert t[0] == 'u' && t[1] == '0' && t[2] == '0' && t[3] == h && t[4] == l;
    var u := t[1..];
    assert u[0] == '0' && u[1] == '0' && u[2] == h && u[3] == l && u[4..] == s;
    assert Hex4(u) == c as int;
  }

  lemma {:induction false} ControlUndone(c: char, s: string)
    requires c < ' '
    ensures ParseString("\\u00" + [HEX[c as int / 16], HEX[c as int % 16]] + s) == Prepend([c], ParseString(s))
  {
    ControlEscape(c, s);
    var t := "\\u00" + [HEX[c as int / 16], HEX[c as int % 16]] + s;
    assert t[0] == '\\' && t[1..] == "u00" + [HEX[c as int / 16], HEX[c as int % 16]] + s;
  }

  /** Reading back the escape of one byte gives that byte. */
  lemma {:induction false} EscapeCharUndone(c: char, s: string)
    ensures ParseString(EscapeChar(c) + s) == Prepend([c], ParseString(s))
  {
    if HasShort(c) {
      ShortUndone(c, s);
    } else if c < ' ' {
      ControlUndone(c, s);
    } else {
      assert ([c] + s)[1..] == s;
    }
  }

  // The same text written front to back: everything is put before `rest`, nothing is appended. This is the
  // form in which the parser meets it.

  function EmitEscaped(s: string, rest: string): string {
    if s == "" then rest else EscapeChar(s[0]) + EmitEscaped(s[1..], rest)
  }

  function EmitQuoted(s: string, rest: string): string {
    "\"" + EmitEscaped(s, "\"" + rest)
  }

  function Emit(v: Value, rest: string): string
    decreases v, 1
  {
    match v
    case Null => "null" + rest
    case Bool(b) => if b then "true" + rest else "false" + rest
    case Number(token) => token + rest
    case Str(s) => EmitQuoted(s, rest)
    case Array(items) => "[" + EmitItems(items, "]" + rest)
    case Object(members) => "{" + EmitMembers(members, "}" + rest)
  }

  function EmitItems(items: seq<Value>, rest: string): string
    decreases items, 0
  {
    if items == [] then rest
    else Emit(items[0], if |items| == 1 then rest else "," + EmitItems(items[1..], rest))
  }

  function EmitMember(m: Member, rest: string): string
    decreases m, 2
  {
    EmitQuoted(m.key, ":" + Emit(m.value, rest))
  }

  function EmitMembers(members: seq<Member>, rest: string): string
    decreases members, 0
  {
    if members == [] then rest
    else EmitMember(members[0], if |members| == 1 then rest else "," + EmitMembers(members[1..], rest))
  }

  lemma {:induction false} Regroup(a: string, b: string, c: string)
    ensures a + b + c == a + (b + c)
  {
  }

  lemma {:induction false} EmitEscapedIs(s: string, rest: string)
    ensures EmitEscaped(s, rest) == Escape(s) + rest
  {
    if s == "" {
      assert Escape(s) + rest == rest;
    } else {
      EmitEscapedIs(s[1..], rest);
      Regroup(EscapeChar(s[0]), Escape(s[1..]), rest);
    }
  }

  lemma {:induction false} EmitQuotedIs(s: string, rest: string)
    ensures EmitQuoted(s, rest) == Quote(s) + rest
  {
    EmitEscapedIs(s, "\"" + rest);
    Regroup(Escape(s), "\"", rest);
    Regroup("\"", Escape(s) + "\"", rest);
    Regroup("\"", Escape(s), "\"");
  }

  lemma {:induction false} EmitIs(v: Value, rest: string)
    ensures Emit(v, rest) == Print(v) + rest
    decreases v, 1
  {
    match v
    case Str(s) => EmitQuotedIs(s, rest);
    case Array(items) =>
      EmitItemsIs(items, "]" + rest);
      Bracket("[", PrintItems(items), "]", rest);
    case Object(members) =>
      EmitMembersIs(members, "}" + rest);
      Bracket("{", PrintMembers(members), "}", rest);
    case _ =>
  }

  lemma {:induction false} Bracket(a: string, b: string, c: string, rest: string)
    ensures a + b + c + rest == a + (b + (c + rest))
  {
    Regroup(a, b, c);
    Regroup(a, b + c, rest);
    Regroup(b, c, rest);
  }

  lemma {:induction false} EmitItemsIs(items: seq<Value>, rest: string)
    ensures EmitItems(items, rest) == PrintItems(items) + rest
    decreases items, 0
  {
    if items == [] {
      assert PrintItems(items) + rest == rest;
    } else if |items| == 1 {
      EmitIs(items[0], rest);
    } else {
      EmitItemsIs(items[1..], rest);
      EmitIs(items[0], "," + EmitItems(items[1..], rest));
      Bracket(Print(items[0]), ",", PrintItems(items[1..]), rest);
    }
  }

  lemma {:induction false} EmitMemberIs(m: Member, rest: string)
    ensures EmitMember(m, rest) == PrintMember(m) + rest
    decreases m, 2
  {
    EmitIs(m.value, rest);
    EmitQuotedIs(m.key, ":" + Emit(m.value, rest));
    Bracket(Quote(m.key), ":", Print(m.value), rest);
  }

  lemma {:induction false} EmitMembersIs(members: seq<Member>, rest: string)
    ensures EmitMembers(members, rest) == PrintMembers(members) + rest
    decreases members, 0
  {
    if members == [] {
      assert PrintMembers(members) + rest == rest;
    } else if |members| == 1 {
      EmitMemberIs(members[0], rest);
    } else {
      EmitMembersIs(members[1..], rest);
      EmitMemberIs(members[0], "," + EmitMembers(members[1..], rest));
      Bracket(PrintMember(members[0]), ",", PrintMembers(members[1..]), rest);
    }
  }

  /** Every byte string survives escaping. */
  lemma {:induction false} EscapeUndone(s: string, rest: string)
    ensures ParseString(EmitEscaped(s, "\"" + rest)) == Done(s, rest)
  {
    if s == "" {
      assert ("\"" + rest)[1..] == rest;
    } else {
      EscapeUndone(s[1..], rest);
      EscapeCharUndone(s[0], EmitEscaped(s[1..], "\"" + rest));
      assert [s[0]] + s[1..] == s;
    }
  }

  /** Escaping is injective. */
  lemma {:induction false} EscapeInjective(s: string, t: string)
    requires Escape(s) == Escape(t)
    ensures s == t
  {
    EscapeUndone(s, "");
    EscapeUndone(t, "");
    EmitEscapedIs(s, "\"");
    EmitEscapedIs(t, "\"");
    assert "\"" + "" == "\"";
  }

  lemma {:induction false} QuoteUndone(s: string, rest: string)
    ensures EmitQuoted(s, rest)[0] == '"' && ParseString(EmitQuoted(s, rest)[1..]) == Done(s, rest)
  {
    EscapeUndone(s, rest);
    assert EmitQuoted(s, rest)[1..] == EmitEscaped(s, "\"" + rest);
  }

  /** What may follow a value: anything that does not continue a number. */
  predicate Stops(rest: string) {
    rest == "" || !IsNumberChar(rest[0])
  }

  lemma {:induction false} NumberRunStops(token: string, rest: string)
    requires AllNumberChars(token) && Stops(rest)
    ensures NumberRun(token + rest) == |token|
  {
    if token == "" {
      assert token + rest == rest;
    } else {
      NumberRunStops(token[1..], rest);
      assert (token + rest)[1..] == token[1..] + rest;
    }
  }

  lemma {:induction false} NumberUndone(token: NumberToken, rest: string)
    requires Stops(rest)
    ensures ParseValue(token + rest) == Done(Number(token), rest)
  {
    NumberChars(token);
    NumberRunStops(token, rest);
    var s := token + rest;
    assert s[0] == token[0] && s[..|token|] == token && s[|token|..] == rest;
  }

  lemma {:induction false} LiteralUndone(word: string, v: Value, rest: string)
    requires word != ""
    ensures ParseLiteral(word + rest, word, v) == Done(v, rest)
    ensures (word + rest)[0] == word[0]
  {
    assert (word + rest)[|word|..] == rest;
  }

  /** The first byte of a value is no white space and closes nothing. */
  lemma {:induction false} EmitStarts(v: Value, rest: string)
    ensures var s := Emit(v, rest); s != "" && !IsSpace(s[0]) && s[0] != ']' && s[0] != '}' && SkipSpace(s) == s
  {
    if v.Number? {
      NumberChars(v.token);
    }
  }

  lemma {:induction false} LeafUndone(v: Value, rest: string)
    requires !v.Array? && !v.Object? && Stops(rest)
    ensures ParseValue(Emit(v, rest)) == Done(v, rest)
  {
    match v
    case Null => LiteralUndone("null", v, rest);
    case Bool(b) => LiteralUndone(if b then "true" else "false", v, rest);
    case Number(token) => NumberUndone(token, rest);
    case Str(s) => QuoteUndone(s, rest);
  }

  lemma {:induction false} ColonUndone(v: Value, rest: string)
    ensures var t := ":" + Emit(v, rest);
            SkipSpace(t) == t && t[0] == ':' && SkipSpace(t[1..]) == Emit(v, rest)
  {
    EmitStarts(v, rest);
    assert (":" + Emit(v, rest))[1..] == Emit(v, rest);
  }

  /** One member read back. */
  lemma {:induction false} MemberUndone(m: Member, rest: string)
    requires ParseValue(Emit(m.value, rest)) == Done(m.value, rest)
    ensures ParseMember(EmitMember(m, rest)) == Done(m, rest)
  {
    QuoteUndone(m.key, ":" + Emit(m.value, rest));
    ColonUndone(m.value, rest);
  }

  lemma {:induction false} ItemsStart(items: seq<Value>, rest: string)
    requires items != []
    ensures var s := EmitItems(items, rest); s != "" && s[0] != ']' && SkipSpace(s) == s
  {
    EmitStarts(items[0], if |items| == 1 then rest else "," + EmitItems(items[1..], rest));
  }

  lemma {:induction false} MembersStart(members: seq<Member>, rest: string)
    requires members != []
    ensures var s := EmitMembers(members, rest); s != "" && s[0] == '"' && SkipSpace(s) == s
  {
  }

  lemma {:induction false} CharFirst(c: char, rest: string)
    ensures ([c] + rest)[0] == c && ([c] + rest)[1..] == rest
    ensures !IsSpace(c) ==> SkipSpace([c] + rest) == [c] + rest
  {
  }

  lemma {:induction false} LastItem(s: string, v: Value, rest: string)
    requires ParseValue(s) == Done(v, "]" + rest)
    ensures ParseItems(s) == Done([v], rest)
  {
    CharFirst(']', rest);
  }

  lemma {:induction false} OneMoreItem(s: string, v: Value, more: string, items: seq<Value>, rest: string)
    requires ParseValue(s) == Done(v, "," + more)
    requires SkipSpace(more) == more && ParseItems(more) == Done(items, rest)
    ensures ParseItems(s) == Done([v] + items, rest)
  {
    CharFirst(',', more);
  }

  lemma {:induction false} LastMember(s: string, m: Member, rest: string)
    requires ParseMember(s) == Done(m, "}" + rest)
    ensures ParseMembers(s) == Done([m], rest)
  {
    CharFirst('}', rest);
  }

  lemma {:induction false} OneMoreMember(s: string, m: Member, more: string, members: seq<Member>, rest: string)
    requires ParseMember(s) == Done(m, "," + more)
    requires SkipSpace(more) == more && ParseMembers(more) == Done(members, rest)
    ensures ParseMembers(s) == Done([m] + members, rest)
  {
    CharFirst(',', more);
  }

  /** The strict parser reads back every value, and stops exactly where it ends. */
  lemma {:induction false} ParseEmit(v: Value, rest: string)
    requires Stops(rest)
    ensures ParseValue(Emit(v, rest)) == Done(v, rest)
    decreases v, 1
  {
    match v
    case Array(items) => ArrayUndone(items, rest);
    case Object(members) => ObjectUndone(members, rest);
    case _ => LeafUndone(v, rest);
  }

  lemma {:induction false} ArrayUndone(items: seq<Value>, rest: string)
    ensures ParseValue(Emit(Array(items), rest)) == Done(Array(items), rest)
    decreases items, 1
  {
    CharFirst('[', EmitItems(items, "]" + rest));
    CharFirst(']', rest);
    if items != [] {
      ItemsStart(items, "]" + rest);
      ItemsUndone(items, rest);
    }
  }

  lemma {:induction false} ObjectUndone(members: seq<Member>, rest: string)
    ensures ParseValue(Emit(Object(members), rest)) == Done(Object(members), rest)
    decreases members, 1
  {
    CharFirst('{', EmitMembers(members, "}" + rest));
    CharFirst('}', rest);
    if members != [] {
      MembersStart(members, "}" + rest);
      MembersUndone(members, rest);
    }
  }

  lemma {:induction false} ItemsUndone(items: seq<Value>, rest: string)
    requires items != []
    ensures ParseItems(EmitItems(items, "]" + rest)) == Done(items, rest)
    decreases items, 0
  {
    var s := EmitItems(items, "]" + rest);
    if |items| == 1 {
      ParseEmit(items[0], "]" + rest);
      LastItem(s, items[0], rest);
      assert items == [items[0]];
    } else {
      var more := EmitItems(items[1..], "]" + rest);
      ParseEmit(items[0], "," + more);
      ItemsUndone(items[1..], rest);
      ItemsStart(items[1..], "]" + rest);
      OneMoreItem(s, items[0], more, items[1..], rest);
      assert items == [items[0]] + items[1..];
    }
  }

  lemma {:induction false} MembersUndone(members: seq<Member>, rest: string)
    requires members != []
    ensures ParseMembers(EmitMembers(members, "}" + rest)) == Done(members, rest)
    decreases members, 0
  {
    var s := EmitMembers(members, "}" + rest);
    if |members| == 1 {
      ParseEmit(members[0].value, "}" + rest);
      MemberUndone(members[0], "}" + rest);
      LastMember(s, members[0], rest);
      assert members == [members[0]];
    } else {
      var more := EmitMembers(members[1..], "}" + rest);
      ParseEmit(members[0].value, "," + more);
      MemberUndone(members[0], "," + more);
      MembersUndone(members[1..], rest);
      MembersStart(members[1..], "}" + rest);
      OneMoreMember(s, members[0], more, members[1..], rest);
      assert members == [members[0]] + members[1..];
    }
  }

  /** A printed value is a JSON text, and parses to that value. */
  lemma {:induction false} TextUndone(v: Value)
    ensures ParseText(Print(v)) == Some(v)
  {
    ParseEmit(v, "");
    EmitStarts(v, "");
    EmitIs(v, "");
    assert Print(v) + "" == Print(v);
  }

  /** Values with the same text are the same. */
  lemma {:induction false} PrintInjective(v: Value, w: Value)
    requires Print(v) == Print(w)
    ensures v == w
  {
    TextUndone(v);
    TextUndone(w);
  }

  // No byte below 0x20 is ever written.

  predicate NoControls(s: string) {
    forall i :: 0 <= i < |s| ==> s[i] >= ' '
  }

  lemma {:induction false} EscapeNoControls(s: string)
    ensures NoControls(Escape(s))
  {
    if s != "" {
      EscapeNoControls(s[1..]);
      assert NoControls(EscapeChar(s[0]));
    }
  }

  lemma {:induction false} QuoteNoControls(s: string)
    ensures NoControls(Quote(s))
  {
    EscapeNoControls(s);
  }

  lemma {:induction false} PrintNoControls(v: Value)
    ensures NoControls(Print(v))
    decreases v, 1
  {
    match v
    case Null =>
    case Bool(_) =>
    case Number(token) => NumberChars(token); assert forall c :: IsNumberChar(c) ==> c >= ' ';
    case Str(s) => QuoteNoControls(s);
    case Array(items) => ItemsNoControls(items);
    case Object(members) => MembersNoControls(members);
  }

  lemma {:induction false} ItemsNoControls(items: seq<Value>)
    ensures NoControls(PrintItems(items))
    decreases items, 0
  {
    if items != [] {
      PrintNoControls(items[0]);
      ItemsNoControls(items[1..]);
    }
  }

  lemma {:induction false} MembersNoControls(members: seq<Member>)
    ensures NoControls(PrintMembers(members))
    decreases members, 0
  {
    if members != [] {
      QuoteNoControls(members[0].key);
      PrintNoControls(members[0].value);
      MembersNoControls(members[1..]);
      assert NoControls(PrintMember(members[0]));
    }
  }
}
