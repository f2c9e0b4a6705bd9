/**
 The JSON text layer under the extended serializer: text as JSON.stringify prints it
 (without insignificant white space) and a parser for it, following sections 2 to 7 of RFC 8259.
 A number is kept as its text.
 */
module JsonText {
  import opened Prelude

  datatype Json =
    | JNull
    | JBool(b: bool)
    | JNum(text: string)
    | JStr(s: string)
    | JArr(items: seq<Json>)
    | JObj(members: seq<Entry<Json>>)

  datatype Entry<+T> = Entry(key: string, value: T)

  predicate NumChar(c: char) {
    '0' <= c <= '9' || c == '-' || c == '+' || c == '.' || c == 'e' || c == 'E'
  }

  predicate Valid(j: Json) {
    match j
    case JNum(t) => t != "" && forall c <- t :: NumChar(c)
    case JArr(items) => forall x <- items :: Valid(x)
    case JObj(members) => forall m <- members :: Valid(m.value)
    case _ => true
  }

  // ------------------------------------------------------------------------ printing

  const BACKSPACE: char := 8 as char
  const FORMFEED: char := 12 as char

  function HexDigit(n: nat): char
    requires n < 16
  {
    "0123456789abcdef"[n]
  }

  function EscapeChar(c: char): string {
    if c == '\"' then "\\\""
    else if c == '\\' then "\\\\"
    else if c == BACKSPACE then "\\b"
    else if c == FORMFEED then "\\f"
    else if c == '\n' then "\\n"
    else if c == '\r' then "\\r"
    else if c == '\t' then "\\t"
    else if c < ' ' then "\\u00" + [HexDigit(c as int / 16), HexDigit(c as int % 16)]
    else [c]
  }

  function Escape(s: string): string {
    if s == "" then "" else EscapeChar(s[0]) + Escape(s[1..])
  }

  function Quote(s: string): string {
    "\"" + Escape(s) + "\""
  }

  function Print(j: Json): string
    decreases j, 1
  {
    match j
    case JNull => "null"
    case JBool(b) => if b then "true" else "false"
    case JNum(t) => t
    case JStr(s) => Quote(s)
    case JArr(items) => "[" + PrintItems(items) + "]"
    case JObj(members) => "{" + PrintMembers(members) + "}"
  }

  function PrintItems(items: seq<Json>): string
    decreases items, 0
  {
    if items == [] then ""
    else if |items| == 1 then Print(items[0])
    else Print(items[0]) + "," + PrintItems(items[1..])
  }

  function PrintMember(m: Entry<Json>): string
    decreases m.value, 2
  {
    Quote(m.key) + ":" + Print(m.value)
  }

  function PrintMembers(members: seq<Entry<Json>>): string
    decreases members, 0
  {
    if members == [] then ""
    else if |members| == 1 then PrintMember(members[0])
    else PrintMember(members[0]) + "," + PrintMembers(members[1..])
  }

  // ------------------------------------------------------------------------- parsing

  datatype Parsed<+T> = Fail | Ok(value: T, rest: string)

  function HexValue(c: char): Option<nat> {
    if '0' <= c <= '9' then Some(c as int - '0' as int)
    else if 'a' <= c <= 'f' then Some(c as int - 'a' as int + 10)
    else if 'A' <= c <= 'F' then Some(c as int - 'A' as int + 10)
    else None
  }

  /** The character written by four hex digits, unless it is half of a surrogate pair. */
  function FourHex(a: char, b: char, c: char, d: char): Option<char> {
    var (w, x, y, z) := (HexValue(a), HexValue(b), HexValue(c), HexValue(d));
    if w.None? || x.None? || y.None? || z.None? then None
    else
      var code := ((w.value * 16 + x.value) * 16 + y.value) * 16 + z.value;
      if 0xD800 <= code < 0xE000 || code >= 0x10000 then None else Some(code as char)
  }

  function SimpleEscape(c: char): Option<char> {
    if c == '\"' then Some('\"')
    else if c == '\\' then Some('\\')
    else if c == '/' then Some('/')
    else if c == 'b' then Some(BACKSPACE)
    else if c == 'f' then Some(FORMFEED)
    else if c == 'n' then Some('\n')
    else if c == 'r' then Some('\r')
    else if c == 't' then Some('\t')
    else None
  }

  /** One possibly escaped character of a string literal. */
  function ParseChar(s: string): (r: Parsed<char>)
    ensures r.Ok? ==> |r.rest| < |s|
  {
    if s == "" || s[0] < ' ' || s[0] == '\"' then Fail
    else if s[0] != '\\' then Ok(s[0], s[1..])
    else if |s| >= 2 && SimpleEscape(s[1]).Some? then Ok(SimpleEscape(s[1]).value, s[2..])
    else if |s| >= 6 && s[1] == 'u' &&
        FourHex(s[2], s[3], s[4], s[5]).Some? then Ok(FourHex(s[2], s[3], s[4], s[5]).value, s[6..])
    else Fail
  }

  /** The characters of a string literal up to and including the closing quote. */
  function ParseChars(s: string): (r: Parsed<string>)
    ensures r.Ok? ==> |r.value| + |r.rest| < |s|
    decreases |s|
  {
    if s != "" && s[0] == '\"' then Ok("", s[1..])
    else
      var c := ParseChar(s);
      if c.Fail? then Fail
      else
        var tail := ParseChars(c.rest);
        if tail.Fail? then Fail else Ok([c.value] + tail.value, tail.rest)
  }

  function NumPrefix(s: string): (n: nat)
    ensures n <= |s|
  {
    if s == "" || !NumChar(s[0]) then 0 else 1 + NumPrefix(s[1..])
  }

  /** A lower bound of the text a value takes; it bounds the recursion into embedded text. */
  function Size(j: Json): nat
    decreases j, 1
  {
    match j
    case JStr(s) => |s| + 2
    case JArr(items) => 1 + ItemsSize(items)
    case JObj(members) => 1 + MembersSize(members)
    case _ => 1
  }

  function ItemsSize(items: seq<Json>): nat
    decreases items, 0
  {
    if items == [] then 0 else 1 + Size(items[0]) + ItemsSize(items[1..])
  }

  function MembersSize(members: seq<Entry<Json>>): nat
    decreases members, 0
  {
    if members == [] then 0 else 1 + Size(members[0].value) + MembersSize(members[1..])
  }

  function Starts(s: string, lit: string): bool {
    |s| >= |lit| && s[..|lit|] == lit
  }

  function ParseValue(s: string): (r: Parsed<Json>)
    ensures r.Ok? ==> Size(r.value) + |r.rest| <= |s| && |r.rest| < |s|
    decreases |s|, 2
  {
    if s == "" then Fail
    else if s[0] == '\"' then
      var p := ParseChars(s[1..]);
      if p.Fail? then Fail else Ok(JStr(p.value), p.rest)
    else if s[0] == '[' then
      if Starts(s[1..], "]") then Ok(JArr([]), s[2..])
      else
        var p := ParseItems(s[1..]);
        if p.Fail? then Fail else Ok(JArr(p.value), p.rest)
    else if s[0] == '{' then
      if Starts(s[1..], "}") then Ok(JObj([]), s[2..])
      else
        var p := ParseMembers(s[1..]);
        if p.Fail? then Fail else Ok(JObj(p.value), p.rest)
    else if Starts(s, "null") then Ok(JNull, s[4..])
    else if Starts(s, "true") then Ok(JBool(true), s[4..])
    else if Starts(s, "false") then Ok(JBool(false), s[5..])
    else if NumChar(s[0]) then Ok(JNum(s[..NumPrefix(s)]), s[NumPrefix(s)..])
    else Fail
  }

  /** A non-empty item list and the closing bracket. */
  function ParseItems(s: string): (r: Parsed<seq<Json>>)
    ensures r.Ok? ==> ItemsSize(r.value) + |r.rest| <= |s|
    decreases |s|, 3
  {
    var v := ParseValue(s);
    if v.Fail? || v.rest == "" then Fail
    else if v.rest[0] == ']' then Ok([v.value], v.rest[1..])
    else if v.rest[0] == ',' then
      var more := ParseItems(v.rest[1..]);
      if more.Fail? then Fail else Ok([v.value] + more.value, more.rest)
    else Fail
  }

  function ParseMember(s: string): (r: Parsed<Entry<Json>>)
    ensures r.Ok? ==> Size(r.value.value) + |r.rest| < |s|
    decreases |s|, 3
  {
    if s == "" || s[0] != '\"' then Fail
    else
      var k := ParseChars(s[1..]);
      if k.Fail? || k.rest == "" || k.rest[0] != ':' then Fail
      else
        var v := ParseValue(k.rest[1..]);
        if v.Fail? then Fail else Ok(Entry(k.value, v.value), v.rest)
  }

  function ParseMembers(s: string): (r: Parsed<seq<Entry<Json>>>)
    ensures r.Ok? ==> MembersSize(r.value) + |r.rest| <= |s|
    decreases |s|, 4
  {
    var m := ParseMember(s);
    if m.Fail? || m.rest == "" then Fail
    else if m.rest[0] == '}' then Ok([m.value], m.rest[1..])
    else if m.rest[0] == ',' then
      var more := ParseMembers(m.rest[1..]);
      if more.Fail? then Fail else Ok([m.value] + more.value, more.rest)
    else Fail
  }

  function Parse(s: string): (r: Option<Json>)
    ensures r.Some? ==> Size(r.value) <= |s|
  {
    var p := ParseValue(s);
    if p.Ok? && p.rest == "" then Some(p.value) else None
  }

  // --------------------------------------------------------------------- round trip

  lemma HexOfControl(c: char)
    requires c < ' '
    ensures FourHex('0', '0', HexDigit(c as int / 16), HexDigit(c as int % 16)) == Some(c)
  {
    var hi, lo := c as int / 16, c as int % 16;
    HexBack(hi);
    HexBack(lo);
    assert HexValue('0') == Some(0);
    assert hi * 16 + lo == c as int;
  }

  lemma HexBack(n: nat)
    requires n < 16
    ensures HexValue(HexDigit(n)) == Some(n)
  {
  }

  lemma ParseCharBack(c: char, rest: string)
    ensures ParseChar(EscapeChar(c) + rest) == Ok(c, rest)
    ensures EscapeChar(c)[0] != '\"'
  {
    var e := EscapeChar(c);
    var s := e + rest;
    assert s[|e|..] == rest;
    if |e| == 6 {
      HexOfControl(c);
    }
  }

  lemma EscapeText(s: string, rest: string)
    requires s != ""
    ensures Escape(s) + "\"" + rest == EscapeChar(s[0]) + (Escape(s[1..]) + "\"" + rest)
  {
    var a, b := EscapeChar(s[0]), Escape(s[1..]);
    assert Escape(s) == a + b;
    assert (a + b) + "\"" == a + (b + "\"");
    assert a + (b + "\"") + rest == a + (b + "\"" + rest);
  }

  lemma CharsEnd(rest: string)
    ensures ParseChars("\"" + rest) == Ok("", rest)
  {
    assert ("\"" + rest)[0] == '\"' && ("\"" + rest)[1..] == rest;
  }

  lemma CharsGlue(text: string, c: char, tail: string, cs: string, rest: string)
    requires ParseChar(text) == Ok(c, tail) && ParseChars(tail) == Ok(cs, rest)
    ensures ParseChars(text) == Ok([c] + cs, rest)
  {
  }

  lemma {:induction false} ParseCharsBack(s: string, rest: string)
    ensures ParseChars(Escape(s) + "\"" + rest) == Ok(s, rest)
  {
    if s == "" {
      assert Escape(s) + "\"" + rest == "\"" + rest;
      CharsEnd(rest);
    } else {
      var tail := Escape(s[1..]) + "\"" + rest;
      EscapeText(s, rest);
      ParseCharBack(s[0], tail);
      ParseCharsBack(s[1..], rest);
      CharsGlue(EscapeChar(s[0]) + tail, s[0], tail, s[1..], rest);
      assert s == [s[0]] + s[1..];
    }
  }

  lemma QuoteBack(s: string, rest: string)
    ensures (Quote(s) + rest)[0] == '\"'
    ensures ParseChars((Quote(s) + rest)[1..]) == Ok(s, rest)
  {
    assert (Quote(s) + rest)[1..] == Escape(s) + "\"" + rest;
    ParseCharsBack(s, rest);
  }

  predicate NumberEnds(rest: string) {
    rest == "" || !NumChar(rest[0])
  }

  lemma {:induction false} NumPrefixBack(t: string, rest: string)
    requires (forall c <- t :: NumChar(c)) && NumberEnds(rest)
    ensures NumPrefix(t + rest) == |t|
  {
    if t == "" {
      assert t + rest == rest;
    } else {
      NumPrefixBack(t[1..], rest);
      assert (t + rest)[1..] == t[1..] + rest;
    }
  }

  lemma PrintHead(j: Json)
    requires Valid(j)
    ensures Print(j) != "" && Print(j)[0] != ']'
  {
    if j.JNum? { assert j.text[0] in j.text; }
  }

  lemma OtherHead(s: string, lit: string)
    requires s != "" && lit != "" && s[0] != lit[0]
    ensures !Starts(s, lit)
  {
    if |s| >= |lit| { assert s[..|lit|][0] != lit[0]; }
  }

  lemma LiteralBack(lit: string, rest: string)
    ensures Starts(lit + rest, lit) && (lit + rest)[|lit|..] == rest
  {
  }

  lemma ScalarBack(j: Json, rest: string)
    requires Valid(j) && NumberEnds(rest) && !j.JArr? && !j.JObj?
    ensures ParseValue(Print(j) + rest) == Ok(j, rest)
  {
    var s := Print(j) + rest;
    match j
    case JStr(t) => QuoteBack(t, rest);
    case JNum(t) =>
      NumPrefixBack(t, rest);
      assert s[..|t|] == t && s[|t|..] == rest;
      assert t[0] in t && s[0] == t[0];
      OtherHead(s, "null");
      OtherHead(s, "true");
      OtherHead(s, "false");
    case JNull => LiteralBack("null", rest);
    case JBool(b) =>
      LiteralBack(Print(j), rest);
      OtherHead(s, "null");
      if !b { OtherHead(s, "true"); }
  }

  /** Printed text followed by anything that does not continue a number parses to the value. */
  lemma {:induction false} PrintBack(j: Json, rest: string)
    requires Valid(j) && NumberEnds(rest)
    ensures ParseValue(Print(j) + rest) == Ok(j, rest)
    decreases j, 1
  {
    match j
    case JArr(items) =>
      if items != [] { ItemsBack(items, rest); }
      ArrayBack(items, rest);
    case JObj(members) =>
      if members != [] { MembersBack(members, rest); }
      ObjectBack(members, rest);
    case _ => ScalarBack(j, rest);
  }

  lemma Bracketed(open: string, text: string, close: string, rest: string)
    ensures open + text + close + rest == open + (text + close + rest)
  {
    assert open + text + close == open + (text + close);
    assert open + (text + close) + rest == open + (text + close + rest);
  }

  lemma EmptyArray(rest: string)
    ensures ParseValue("[" + ("]" + rest)) == Ok(JArr([]), rest)
  {
    var s := "[" + ("]" + rest);
    assert s[1..] == "]" + rest && s[2..] == rest;
    LiteralBack("]", rest);
  }

  lemma FullArray(body: string, items: seq<Json>, rest: string)
    requires body != "" && body[0] != ']' && ParseItems(body) == Ok(items, rest)
    ensures ParseValue("[" + body) == Ok(JArr(items), rest)
  {
    assert ("[" + body)[0] == '[' && ("[" + body)[1..] == body;
    OtherHead(body, "]");
  }

  lemma ItemsHead(items: seq<Json>, rest: string)
    requires items != [] && Valid(items[0])
    ensures var body := PrintItems(items) + "]" + rest; body != "" && body[0] != ']'
  {
    PrintHead(items[0]);
    assert PrintItems(items)[0] == Print(items[0])[0];
  }

  lemma ArrayBack(items: seq<Json>, rest: string)
    requires Valid(JArr(items))
    requires items != [] ==> ParseItems(PrintItems(items) + "]" + rest) == Ok(items, rest)
    ensures ParseValue(Print(JArr(items)) + rest) == Ok(JArr(items), rest)
  {
    Bracketed("[", PrintItems(items), "]", rest);
    if items == [] {
      assert PrintItems(items) + "]" + rest == "]" + rest;
      EmptyArray(rest);
    } else {
      ItemsHead(items, rest);
      FullArray(PrintItems(items) + "]" + rest, items, rest);
    }
  }

  lemma EmptyObject(rest: string)
    ensures ParseValue("{" + ("}" + rest)) == Ok(JObj([]), rest)
  {
    var s := "{" + ("}" + rest);
    assert s[1..] == "}" + rest && s[2..] == rest;
    LiteralBack("}", rest);
  }

  lemma FullObject(body: string, members: seq<Entry<Json>>, rest: string)
    requires body != "" && body[0] != '}' && ParseMembers(body) == Ok(members, rest)
    ensures ParseValue("{" + body) == Ok(JObj(members), rest)
  {
    assert ("{" + body)[0] == '{' && ("{" + body)[1..] == body;
    OtherHead(body, "}");
  }

  lemma ObjectBack(members: seq<Entry<Json>>, rest: string)
    requires Valid(JObj(members))
    requires members != [] ==> ParseMembers(PrintMembers(members) + "}" + rest) == Ok(members, rest)
    ensures ParseValue(Print(JObj(members)) + rest) == Ok(JObj(members), rest)
  {
    Bracketed("{", PrintMembers(members), "}", rest);
    if members == [] {
      assert PrintMembers(members) + "}" + rest == "}" + rest;
      EmptyObject(rest);
    } else {
      assert PrintMembers(members)[0] == '\"';
      FullObject(PrintMembers(members) + "}" + rest, members, rest);
    }
  }

  lemma ItemsGlue(s: string, x: Json, tail: string, xs: seq<Json>, rest: string)
    requires ParseValue(s) == Ok(x, "," + tail) && ParseItems(tail) == Ok(xs, rest)
    ensures ParseItems(s) == Ok([x] + xs, rest)
  {
    assert ("," + tail)[1..] == tail;
  }

  lemma LastItem(s: string, x: Json, rest: string)
    requires ParseValue(s) == Ok(x, "]" + rest)
    ensures ParseItems(s) == Ok([x], rest)
  {
    assert ("]" + rest)[1..] == rest;
  }

  lemma {:induction false} ItemsBack(items: seq<Json>, rest: string)
    requires items != [] && forall x <- items :: Valid(x)
    ensures ParseItems(PrintItems(items) + "]" + rest) == Ok(items, rest)
    decreases items, 0
  {
    var x, more := items[0], items[1..];
    Regroup(Print(x), PrintItems(more), "]", rest);
    if |items| == 1 {
      PrintBack(x, "]" + rest);
      LastItem(Print(x) + ("]" + rest), x, rest);
      assert items == [x];
    } else {
      var tail := PrintItems(more) + "]" + rest;
      PrintBack(x, "," + tail);
      ItemsBack(more, rest);
      ItemsGlue(Print(x) + ("," + tail), x, tail, more, rest);
      assert items == [x] + more;
    }
  }

  lemma MemberGlue(key: string, v: Json, text: string, rest: string)
    requires ParseValue(text) == Ok(v, rest)
    ensures ParseMember(Quote(key) + (":" + text)) == Ok(Entry(key, v), rest)
  {
    QuoteBack(key, ":" + text);
    assert (":" + text)[1..] == text;
  }

  lemma MembersGlue(s: string, m: Entry<Json>, tail: string, ms: seq<Entry<Json>>, rest: string)
    requires ParseMember(s) == Ok(m, "," + tail) && ParseMembers(tail) == Ok(ms, rest)
    ensures ParseMembers(s) == Ok([m] + ms, rest)
  {
    assert ("," + tail)[1..] == tail;
  }

  lemma LastMember(s: string, m: Entry<Json>, rest: string)
    requires ParseMember(s) == Ok(m, "}" + rest)
    ensures ParseMembers(s) == Ok([m], rest)
  {
    assert ("}" + rest)[1..] == rest;
  }

  lemma {:induction false} MemberBack(m: Entry<Json>, rest: string)
    requires Valid(m.value) && NumberEnds(rest)
    ensures ParseMember(PrintMember(m) + rest) == Ok(m, rest)
    decreases m.value, 2
  {
    PrintBack(m.value, rest);
    assert PrintMember(m) + rest == Quote(m.key) + (":" + (Print(m.value) + rest));
    MemberGlue(m.key, m.value, Print(m.value) + rest, rest);
  }

  lemma Regroup(a: string, b: string, close: string, rest: string)
    ensures a + "," + b + close + rest == a + ("," + (b + close + rest))
    ensures a + close + rest == a + (close + rest)
  {
    var tail := b + close + rest;
    assert a + "," + b + close == a + "," + (b + close);
    assert a + "," + (b + close) + rest == a + "," + tail;
    assert a + "," + tail == a + ("," + tail);
  }

  lemma {:induction false} MembersBack(members: seq<Entry<Json>>, rest: string)
    requires members != [] && forall m <- members :: Valid(m.value)
    ensures ParseMembers(PrintMembers(members) + "}" + rest) == Ok(members, rest)
    decreases members, 0
  {
    var m, more := members[0], members[1..];
    Regroup(PrintMember(m), PrintMembers(more), "}", rest);
    if |members| == 1 {
      MemberBack(m, "}" + rest);
      LastMember(PrintMember(m) + ("}" + rest), m, rest);
      assert members == [m];
    } else {
      var tail := PrintMembers(more) + "}" + rest;
      MemberBack(m, "," + tail);
      MembersBack(more, rest);
      MembersGlue(PrintMember(m) + ("," + tail), m, tail, more, rest);
      assert members == [m] + more;
    }
  }

  lemma ParsePrint(j: Json)
    requires Valid(j)
    ensures Parse(Print(j)) == Some(j)
  {
    PrintBack(j, "");
    assert Print(j) + "" == Print(j);
  }

  // -------------------------------------------------- escapes, section 7 of RFC 8259

  /** Every two-character escape stands for its character, whatever follows. */
  lemma TwoCharacterEscapes(rest: string)
    ensures ParseChar("\\\"" + rest) == Ok('\"', rest) && ParseChar("\\\\" + rest) == Ok('\\', rest)
    ensures ParseChar("\\/" + rest) == Ok('/', rest)
    ensures ParseChar("\\b" + rest) == Ok(8 as char, rest) && ParseChar("\\f" + rest) == Ok(12 as char, rest)
    ensures ParseChar("\\n" + rest) == Ok(10 as char, rest) && ParseChar("\\r" + rest) == Ok(13 as char, rest)
    ensures ParseChar("\\t" + rest) == Ok(9 as char, rest)
  {
    AfterTwo("\\\"", rest);
    AfterTwo("\\\\", rest);
    AfterTwo("\\/", rest);
    AfterTwo("\\b", rest);
    AfterTwo("\\f", rest);
    AfterTwo("\\n", rest);
    AfterTwo("\\r", rest);
    AfterTwo("\\t", rest);
  }

  lemma AfterTwo(escape: string, rest: string)
    requires |escape| == 2
    ensures (escape + rest)[2..] == rest && (escape + rest)[0] == escape[0] && (escape + rest)[1] == escape[1]
  {
  }

  /** Hexadecimal digits may be upper or lower case. */
  lemma HexDigits(n: nat)
    requires n < 16
    ensures HexValue("0123456789abcdef"[n]) == Some(n) && HexValue("0123456789ABCDEF"[n]) == Some(n)
  {
  }
}
