/** The part of JSON (RFC 8259) that the quiz pages keep in session storage:
    objects whose member values are null, booleans, integers or strings.
    `Encode*` is `JSON.stringify` for those shapes (compact, members in order);
    `Parse*` is `JSON.parse` restricted to them, whitespace included. */
module Json {
  import opened Wrappers
  import opened Text

  datatype Scalar = JNull | JBool(b: bool) | JNum(n: int) | JStr(s: string)

  type Member = (string, Scalar)

  // ---------------------------------------------------------------- encoding

  function HexDigit(d: nat): (c: char)
    requires d < 16
  {
    if d < 10 then DigitChar(d) else ('a' as int + d - 10) as char
  }

  /** How `JSON.stringify` writes one character inside a string literal:
      quote and backslash escaped, the short escapes for five control
      characters, `\u00XX` for the other characters below U+0020. */
  function EscapeChar(c: char): (r: string)
    ensures |r| > 0
  {
    if c == '"' then "\\\""
    else if c == '\\' then "\\\\"
    else if c == '\U{8}' then "\\b"
    else if c == '\t' then "\\t"
    else if c == '\n' then "\\n"
    else if c == '\U{C}' then "\\f"
    else if c == '\r' then "\\r"
    else if c < ' ' then "\\u00" + [HexDigit(c as int / 16), HexDigit(c as int % 16)]
    else [c]
  }

  function EscapeString(s: string): string
    decreases |s|
  {
    if s == [] then [] else EscapeChar(s[0]) + EscapeString(s[1..])
  }

  function EncodeString(s: string): string {
    "\"" + EscapeString(s) + "\""
  }

  function EncodeNumber(n: int): (r: string)
    ensures |r| > 0
  {
    if n < 0 then "-" + NatToDecimal(-n) else NatToDecimal(n)
  }

  function EncodeScalar(v: Scalar): (r: string)
    ensures |r| > 0
  {
    match v
    case JNull => "null"
    case JBool(b) => if b then "true" else "false"
    case JNum(n) => EncodeNumber(n)
    case JStr(s) => EncodeString(s)
  }

  function EncodeMember(m: Member): string {
    EncodeString(m.0) + ":" + EncodeScalar(m.1)
  }

  /** The members joined by "," and followed by the closing '}'. */
  function EncodeMembersClosed(ms: seq<Member>): string
    decreases |ms|
  {
    if ms == [] then "}"
    else if |ms| == 1 then EncodeMember(ms[0]) + "}"
    else EncodeMember(ms[0]) + ("," + EncodeMembersClosed(ms[1..]))
  }

  function EncodeObject(ms: seq<Member>): string {
    "{" + EncodeMembersClosed(ms)
  }

  // ---------------------------------------------------------------- parsing

  /** The four whitespace characters JSON allows between tokens. */
  predicate IsJsonSpace(c: char) {
    c == ' ' || c == '\t' || c == '\n' || c == '\r'
  }

  function SkipSpace(t: string): (r: string)
    ensures |r| <= |t|
    ensures r == [] || !IsJsonSpace(r[0])
    decreases |t|
  {
    if t != [] && IsJsonSpace(t[0]) then SkipSpace(t[1..]) else t
  }

  function HexValue(c: char): (r: Option<nat>)
    ensures r.Some? ==> r.value < 16
  {
    if IsDigit(c) then Some(DigitValue(c))
    else if 'a' <= c <= 'f' then Some(c as int - 'a' as int + 10)
    else if 'A' <= c <= 'F' then Some(c as int - 'A' as int + 10)
    else None
  }

  /** The escape after a backslash: one of `"\/bfnrt`, or `u` and four hex
      digits naming a code point that is not a surrogate. */
  function ParseEscape(t: string): (r: Option<(char, string)>)
    ensures r.Some? ==> |r.value.1| < |t|
  {
    if t == [] then None
    else if t[0] == '"' then Some(('"', t[1..]))
    else if t[0] == '\\' then Some(('\\', t[1..]))
    else if t[0] == '/' then Some(('/', t[1..]))
    else if t[0] == 'b' then Some(('\U{8}', t[1..]))
    else if t[0] == 'f' then Some(('\U{C}', t[1..]))
    else if t[0] == 'n' then Some(('\n', t[1..]))
    else if t[0] == 'r' then Some(('\r', t[1..]))
    else if t[0] == 't' then Some(('\t', t[1..]))
    else if t[0] == 'u' && |t| >= 5 then
      match (HexValue(t[1]), HexValue(t[2]), HexValue(t[3]), HexValue(t[4]))
      case (Some(a), Some(b), Some(c), Some(d)) =>
        var code := ((a * 16 + b) * 16 + c) * 16 + d;
        assert code < 0x10000;
        if code < 0xD800 || 0xE000 <= code then Some((code as char, t[5..])) else None
      case _ => None
    else None
  }

  /** The rest of a string literal after its opening quote: the decoded text
      and what follows the closing quote. Raw control characters are refused. */
  function ParseStringBody(t: string): (r: Option<(string, string)>)
    ensures r.Some? ==> |r.value.1| < |t|
    decreases |t|
  {
    if t == [] then None
    else if t[0] == '"' then Some(([], t[1..]))
    else if t[0] == '\\' then
      match ParseEscape(t[1..])
      case None => None
      case Some((c, after)) =>
        match ParseStringBody(after)
        case None => None
        case Some((s, rest)) => Some(([c] + s, rest))
    else if t[0] < ' ' then None
    else
      match ParseStringBody(t[1..])
      case None => None
      case Some((s, rest)) => Some(([t[0]] + s, rest))
  }

  /** The longest run of digits at the front of `t`. */
  function SpanDigits(t: string): (r: (string, string))
    ensures r.0 + r.1 == t && AllDigits(r.0)
    ensures r.1 == [] || !IsDigit(r.1[0])
    decreases |t|
  {
    if t != [] && IsDigit(t[0]) then
      var (ds, rest) := SpanDigits(t[1..]);
      assert [t[0]] + ds + rest == t;
      ([t[0]] + ds, rest)
    else ([], t)
  }

  /** A number token that denotes an integer: optional '-', then '0' or a
      digit run without a leading zero. A fraction or exponent is refused. */
  function ParseNumber(t: string): (r: Option<(int, string)>)
    ensures r.Some? ==> |r.value.1| < |t|
  {
    var negative := t != [] && t[0] == '-';
    var body := if negative then t[1..] else t;
    var (ds, rest) := SpanDigits(body);
    if ds == [] || (|ds| > 1 && ds[0] == '0') then None
    else if rest != [] && (rest[0] == '.' || rest[0] == 'e' || rest[0] == 'E') then None
    else
      var magnitude: int := DecimalToNat(ds);
      var n: int := if negative then 0 - magnitude else magnitude;
      Some((n, rest))
  }

  function ParseScalar(t: string): (r: Option<(Scalar, string)>)
    ensures r.Some? ==> |r.value.1| < |t|
  {
    if t == [] then None
    else if t[0] == '"' then
      match ParseStringBody(t[1..])
      case None => None
      case Some((s, rest)) => Some((JStr(s), rest))
    else if StartsWith(t, "null") then Some((JNull, t[4..]))
    else if StartsWith(t, "true") then Some((JBool(true), t[4..]))
    else if StartsWith(t, "false") then Some((JBool(false), t[5..]))
    else
      match ParseNumber(t)
      case None => None
      case Some((n, rest)) => Some((JNum(n), rest))
  }

  /** A member's name: a string literal after optional whitespace. */
  function ParseKey(t: string): (r: Option<(string, string)>)
    ensures r.Some? ==> |r.value.1| < |t|
  {
    var t0 := SkipSpace(t);
    if t0 == [] || t0[0] != '"' then None else ParseStringBody(t0[1..])
  }

  /** A member's `: value` part, with the whitespace around it. */
  function ParseColonValue(t: string): (r: Option<(Scalar, string)>)
    ensures r.Some? ==> |r.value.1| < |t|
  {
    var t0 := SkipSpace(t);
    if t0 == [] || t0[0] != ':' then None
    else
      match ParseScalar(SkipSpace(t0[1..]))
      case None => None
      case Some((v, rest)) => Some((v, SkipSpace(rest)))
  }

  /** `"key" : value`, with the whitespace around it. */
  function ParseMember(t: string): (r: Option<(Member, string)>)
    ensures r.Some? ==> |r.value.1| < |t|
  {
    match ParseKey(t)
    case None => None
    case Some((key, after)) =>
      match ParseColonValue(after)
      case None => None
      case Some((v, rest)) => Some(((key, v), rest))
  }

  /** One or more members separated by ',' and closed by '}'. */
  function ParseMemberList(t: string): (r: Option<(seq<Member>, string)>)
    ensures r.Some? ==> |r.value.1| < |t|
    decreases |t|
  {
    match ParseMember(t)
    case None => None
    case Some((m, r)) =>
      if r != [] && r[0] == '}' then Some(([m], r[1..]))
      else if r != [] && r[0] == ',' then
        match ParseMemberList(r[1..])
        case None => None
        case Some((ms, rest)) => Some(([m] + ms, rest))
      else None
  }

  /** `JSON.parse` of a text holding one flat object; `None` where it would throw
      (or where the text holds anything other than such an object). */
  function ParseObject(text: string): Option<seq<Member>> {
    var t := SkipSpace(text);
    if t == [] || t[0] != '{' then None
    else
      var u := SkipSpace(t[1..]);
      if u != [] && u[0] == '}' then
        if SkipSpace(u[1..]) == [] then Some([]) else None
      else
        match ParseMemberList(u)
        case None => None
        case Some((ms, rest)) => if SkipSpace(rest) == [] then Some(ms) else None
  }

  /** The value of the last member named `key`, as `JSON.parse` keeps it. */
  function Lookup(ms: seq<Member>, key: string): (r: Option<Scalar>)
    ensures r.Some? <==> exists i :: 0 <= i < |ms| && ms[i].0 == key
    decreases |ms|
  {
    if ms == [] then None
    else
      match Lookup(ms[1..], key)
      case Some(v) => Some(v)
      case None => if ms[0].0 == key then Some(ms[0].1) else None
  }

  // ---------------------------------------------------------------- round trip

  lemma HexDigitValue(d: nat)
    requires d < 16
    ensures HexValue(HexDigit(d)) == Some(d)
  {
  }

  /** Parsing reads back one escaped character. */
  lemma EscapeCharRoundTrip(c: char, tail: string)
    ensures ParseStringBody(EscapeChar(c) + tail) ==
      match ParseStringBody(tail)
      case None => None
      case Some((s, rest)) => Some(([c] + s, rest))
  {
    var t := EscapeChar(c) + tail;
    if c < ' ' && c != '\U{8}' && c != '\t' && c != '\n' && c != '\U{C}' && c != '\r' {
      assert ParseEscape(t[1..]) == Some((c, tail)) by {
        UnicodeEscapeRoundTrip(c, tail);
      }
    } else if c == '"' || c == '\\' || c == '\U{8}' || c == '\t' || c == '\n' || c == '\U{C}' || c == '\r' {
      assert t[1..][1..] == tail;
    } else {
      assert t[1..] == tail;
    }
  }

  /** A control character written as `\u00XX` reads back. */
  lemma UnicodeEscapeRoundTrip(c: char, tail: string)
    requires c < ' ' && c != '\U{8}' && c != '\t' && c != '\n' && c != '\U{C}' && c != '\r'
    ensures EscapeChar(c) + tail == "\\" + ("u00" + [HexDigit(c as int / 16), HexDigit(c as int % 16)] + tail)
    ensures ParseEscape("u00" + [HexDigit(c as int / 16), HexDigit(c as int % 16)] + tail) == Some((c, tail))
  {
    var hi := c as int / 16;
    var lo := c as int % 16;
    var u := "u00" + [HexDigit(hi), HexDigit(lo)] + tail;
    HexDigitValue(hi);
    HexDigitValue(lo);
    assert u[5..] == tail;
    assert HexValue(u[1]) == Some(0) && HexValue(u[2]) == Some(0);
    assert ((0 * 16 + 0) * 16 + hi) * 16 + lo == c as int;
  }

  lemma {:induction false} StringRoundTrip(s: string, rest: string)
    ensures ParseStringBody(EscapeString(s) + "\"" + rest) == Some((s, rest))
    decreases |s|
  {
    if s == [] {
      assert EscapeString(s) + "\"" + rest == "\"" + rest;
    } else {
      var after := EscapeString(s[1..]) + "\"" + rest;
      assert ParseStringBody(after) == Some((s[1..], rest)) by {
        StringRoundTrip(s[1..], rest);
      }
      assert EscapeString(s) + "\"" + rest == EscapeChar(s[0]) + after by {
        EscapeStringCons(s, "\"" + rest);
      }
      assert ParseStringBody(EscapeChar(s[0]) + after) == Some(([s[0]] + s[1..], rest)) by {
        EscapeCharRoundTrip(s[0], after);
      }
      assert [s[0]] + s[1..] == s;
    }
  }

  lemma EscapeStringCons(s: string, tail: string)
    requires s != []
    ensures EscapeString(s) + tail == EscapeChar(s[0]) + (EscapeString(s[1..]) + tail)
  {
    ConcatRegroups(EscapeString(s), EscapeChar(s[0]), EscapeString(s[1..]), tail);
  }

  /** Regrouping a concatenation, stated on plain values so that the parts
      are not unfolded. */
  lemma ConcatRegroups(whole: string, first: string, others: string, tail: string)
    requires whole == first + others
    ensures whole + tail == first + (others + tail)
  {
  }

  /** A maximal digit run stops where the digits stop. */
  lemma {:induction false} SpanDigitsStops(d: string, rest: string)
    requires AllDigits(d) && (rest == [] || !IsDigit(rest[0]))
    ensures SpanDigits(d + rest) == (d, rest)
    decreases |d|
  {
    var t := d + rest;
    if d != [] {
      assert t[0] == d[0] && t[1..] == d[1..] + rest;
      SpanDigitsStops(d[1..], rest);
      var (ds, rest') := SpanDigits(t[1..]);
      assert ds == d[1..] && rest' == rest;
      assert SpanDigits(t) == ([t[0]] + ds, rest');
      assert [d[0]] + d[1..] == d;
    } else {
      assert t == rest;
    }
  }

  /** What may follow a value inside an object. */
  predicate ClosesValue(rest: string) {
    rest != [] && (rest[0] == ',' || rest[0] == '}')
  }

  /** A canonical numeral, negated or not, parses back followed by what
      closes the value. */
  lemma CanonicalNumberParses(negative: bool, d: string, rest: string)
    requires IsCanonicalDecimal(d) && ClosesValue(rest)
    ensures var magnitude: int := DecimalToNat(d);
            ParseNumber((if negative then "-" else "") + d + rest) ==
              Some((if negative then 0 - magnitude else magnitude, rest))
  {
    var t := (if negative then "-" else "") + d + rest;
    assert (t != [] && t[0] == '-') == negative && (if negative then t[1..] else t) == d + rest by {
      if negative {
        assert t == "-" + (d + rest);
      } else {
        assert t == d + rest;
        assert IsDigit(d[0]);
      }
    }
    SignedDigitsParse(t, negative, d, rest);
  }

  /** `ParseNumber` on text whose sign is known and whose digits are `d`. */
  lemma SignedDigitsParse(t: string, negative: bool, d: string, rest: string)
    requires (t != [] && t[0] == '-') == negative && (if negative then t[1..] else t) == d + rest
    requires IsCanonicalDecimal(d) && ClosesValue(rest)
    ensures var magnitude: int := DecimalToNat(d);
            ParseNumber(t) == Some((if negative then 0 - magnitude else magnitude, rest))
  {
    SpanDigitsStops(d, rest);
  }

  lemma NumberRoundTrip(n: int, rest: string)
    requires ClosesValue(rest)
    ensures ParseNumber(EncodeNumber(n) + rest) == Some((n, rest))
  {
    var m: nat := if n < 0 then -n else n;
    var d := NatToDecimal(m);
    assert EncodeNumber(n) + rest == (if n < 0 then "-" else "") + d + rest;
    CanonicalNumberParses(n < 0, d, rest);
    DecimalRoundTrip(m);
  }

  lemma ScalarRoundTrip(v: Scalar, rest: string)
    requires ClosesValue(rest)
    ensures ParseScalar(EncodeScalar(v) + rest) == Some((v, rest))
  {
    match v
    case JNull => LiteralRoundTrip("null", JNull, rest);
    case JBool(b) =>
      if b {
        LiteralRoundTrip("true", JBool(true), rest);
      } else {
        LiteralRoundTrip("false", JBool(false), rest);
      }
    case JNum(n) => NumberScalarRoundTrip(n, rest);
    case JStr(str) => StringScalarRoundTrip(str, rest);
  }

  lemma LiteralRoundTrip(word: string, v: Scalar, rest: string)
    requires (word, v) == ("null", JNull) || (word, v) == ("true", JBool(true)) || (word, v) == ("false", JBool(false))
    ensures EncodeScalar(v) == word
    ensures ParseScalar(word + rest) == Some((v, rest))
  {
    var t := word + rest;
    assert t[..|word|] == word && t[|word|..] == rest;
    assert t[0] == word[0];
    if word == "false" {
      assert t[..4] != "null" && t[..4] != "true" by {
        assert t[..4][0] == 'f';
      }
    } else if word == "true" {
      assert t[..4] != "null" by {
        assert t[..4][0] == 't';
      }
    }
  }

  lemma NumberScalarRoundTrip(n: int, rest: string)
    requires ClosesValue(rest)
    ensures ParseScalar(EncodeNumber(n) + rest) == Some((JNum(n), rest))
  {
    var t := EncodeNumber(n) + rest;
    assert t[0] == '-' || IsDigit(t[0]) by {
      var m: nat := if n < 0 then -n else n;
      if n >= 0 {
        assert t[0] == NatToDecimal(m)[0];
      }
    }
    assert ParseNumber(t) == Some((n, rest)) by {
      NumberRoundTrip(n, rest);
    }
    NumberTokenIsScalar(t);
  }

  /** Text starting with '-' or a digit is read as a number. */
  lemma NumberTokenIsScalar(t: string)
    requires t != [] && (t[0] == '-' || IsDigit(t[0]))
    ensures ParseScalar(t) == match ParseNumber(t)
                              case None => None
                              case Some((n, rest)) => Some((JNum(n), rest))
  {
    assert !StartsWith(t, "null") && !StartsWith(t, "true") && !StartsWith(t, "false") by {
      if |t| >= 4 {
        assert t[..4][0] == t[0];
      }
      if |t| >= 5 {
        assert t[..5][0] == t[0];
      }
    }
  }

  lemma StringScalarRoundTrip(str: string, rest: string)
    ensures ParseScalar(EncodeString(str) + rest) == Some((JStr(str), rest))
  {
    var t := EncodeString(str) + rest;
    assert t[0] == '"';
    assert t[1..] == EscapeString(str) + "\"" + rest;
    StringRoundTrip(str, rest);
  }

  lemma EncodeScalarStart(v: Scalar)
    ensures !IsJsonSpace(EncodeScalar(v)[0])
  {
    if v.JNum? {
      var n := v.n;
      var m: nat := if n < 0 then -n else n;
      if n >= 0 { assert IsDigit(NatToDecimal(m)[0]); }
    }
  }

  lemma KeyRoundTrip(key: string, tail: string)
    ensures ParseKey(EncodeString(key) + tail) == Some((key, tail))
  {
    var t := EncodeString(key) + tail;
    assert t[0] == '"';
    assert SkipSpace(t) == t;
    assert t[1..] == EscapeString(key) + "\"" + tail;
    StringRoundTrip(key, tail);
  }

  lemma ColonValueRoundTrip(v: Scalar, rest: string)
    requires ClosesValue(rest)
    ensures ParseColonValue(":" + EncodeScalar(v) + rest) == Some((v, rest))
  {
    var vt := EncodeScalar(v) + rest;
    assert ":" + EncodeScalar(v) + rest == ":" + vt;
    EncodeScalarStart(v);
    assert vt[0] == EncodeScalar(v)[0];
    ScalarRoundTrip(v, rest);
    ColonThenValue(vt, v, rest);
  }

  lemma ColonThenValue(vt: string, v: Scalar, rest: string)
    requires vt != [] && !IsJsonSpace(vt[0]) && ClosesValue(rest)
    requires ParseScalar(vt) == Some((v, rest))
    ensures ParseColonValue(":" + vt) == Some((v, rest))
  {
    var t := ":" + vt;
    assert SkipSpace(t) == t;
    assert t[1..] == vt;
    assert SkipSpace(vt) == vt;
    assert SkipSpace(rest) == rest;
  }

  lemma MemberRoundTrip(m: Member, rest: string)
    requires ClosesValue(rest)
    ensures ParseMember(EncodeMember(m) + rest) == Some((m, rest))
  {
    var tail := ":" + EncodeScalar(m.1) + rest;
    var t := EncodeMember(m) + rest;
    assert ParseKey(t) == Some((m.0, tail)) by {
      assert t == EncodeString(m.0) + tail;
      KeyRoundTrip(m.0, tail);
    }
    assert ParseColonValue(tail) == Some((m.1, rest)) by {
      ColonValueRoundTrip(m.1, rest);
    }
    MemberOfParts(t, m.0, tail, m.1, rest);
  }

  /** A member is a key followed by its `: value` part. */
  lemma MemberOfParts(t: string, key: string, tail: string, v: Scalar, rest: string)
    requires ParseKey(t) == Some((key, tail)) && ParseColonValue(tail) == Some((v, rest))
    ensures ParseMember(t) == Some(((key, v), rest))
  {
  }

  lemma {:induction false} MemberListRoundTrip(ms: seq<Member>)
    requires ms != []
    ensures ParseMemberList(EncodeMembersClosed(ms)) == Some((ms, []))
    decreases |ms|
  {
    var head := EncodeMember(ms[0]);
    if |ms| == 1 {
      assert EncodeMembersClosed(ms) == head + ("}" + []);
      assert ParseMember(head + ("}" + [])) == Some((ms[0], "}" + [])) by {
        MemberRoundTrip(ms[0], "}");
        assert "}" + [] == "}";
      }
      ListClose(head + ("}" + []), ms[0], []);
      assert [ms[0]] == ms;
    } else {
      var more := EncodeMembersClosed(ms[1..]);
      assert EncodeMembersClosed(ms) == head + ("," + more);
      assert ParseMemberList(more) == Some((ms[1..], [])) by {
        MemberListRoundTrip(ms[1..]);
      }
      assert ParseMember(head + ("," + more)) == Some((ms[0], "," + more)) by {
        MemberRoundTrip(ms[0], "," + more);
      }
      ListContinue(head + ("," + more), ms[0], more, ms[1..], []);
      assert [ms[0]] + ms[1..] == ms;
    }
  }

  lemma ListClose(t: string, m: Member, rest: string)
    requires ParseMember(t) == Some((m, "}" + rest))
    ensures ParseMemberList(t) == Some(([m], rest))
  {
    assert ("}" + rest)[1..] == rest;
  }

  lemma ListContinue(t: string, m: Member, more: string, ms: seq<Member>, rest: string)
    requires ParseMember(t) == Some((m, "," + more))
    requires ParseMemberList(more) == Some((ms, rest))
    ensures ParseMemberList(t) == Some(([m] + ms, rest))
  {
    assert ("," + more)[1..] == more;
  }

  /** `JSON.parse(JSON.stringify(o))` gives back the object, members in order. */
  lemma ObjectRoundTrip(ms: seq<Member>)
    ensures ParseObject(EncodeObject(ms)) == Some(ms)
  {
    if ms == [] {
      EmptyObjectParses();
    } else {
      MemberListRoundTrip(ms);
      assert EncodeMembersClosed(ms)[0] == EncodeMember(ms[0])[0];
      ObjectOfMembers(EncodeMembersClosed(ms), ms);
    }
  }

  lemma EmptyObjectParses()
    ensures EncodeObject([]) == "{}"
    ensures ParseObject("{}") == Some([])
  {
    assert SkipSpace("{}") == "{}";
    assert "{}"[1..] == "}";
    assert SkipSpace("}") == "}";
    assert "}"[1..] == [];
  }

  lemma ObjectOfMembers(body: string, ms: seq<Member>)
    requires body != [] && body[0] == '"'
    requires ParseMemberList(body) == Some((ms, []))
    ensures ParseObject("{" + body) == Some(ms)
  {
    var t := "{" + body;
    assert SkipSpace(t) == t;
    assert t[1..] == body;
    assert SkipSpace(body) == body;
  }

  /** Text that is not an object fails, as `JSON.parse` throws on it. */
  lemma TruncatedTextFails()
    ensures ParseObject("{not json") == None
  {
    var t := "{not json";
    assert SkipSpace(t) == t;
    assert t[1..] == "not json";
    var u := "not json";
    assert SkipSpace(u) == u;
    assert ParseKey(u) == None;
    assert ParseMember(u) == None;
  }

  // ---------------------------------------------------------------- answer maps

  /** The least element of a non-empty set of naturals, found by removing
      one element at a time. */
  lemma {:induction false} LeastElement(s: set<nat>) returns (k: nat)
    requires s != {}
    ensures k in s && forall j :: j in s ==> k <= j
    decreases |s|
  {
    var x :| x in s;
    if s == {x} {
      k := x;
    } else {
      var k' := LeastElement(s - {x});
      k := if x < k' then x else k';
      forall j | j in s
        ensures k <= j
      {
        if j != x {
          assert j in s - {x};
        }
      }
    }
  }

  lemma MinimumExists(s: set<nat>)
    requires s != {}
    ensures exists k :: k in s && forall j :: j in s ==> k <= j
  {
    var k := LeastElement(s);
  }

  function MinKey(m: map<nat, string>): (k: nat)
    requires m != map[]
    ensures k in m && forall j :: j in m ==> k <= j
  {
    assert m.Keys != {};
    MinimumExists(m.Keys);
    var k :| k in m && forall j :: j in m ==> k <= j;
    k
  }

  /** The members `JSON.stringify` writes for an answer map keyed by question
      id: one per answer, the smallest id first, as it orders integer-like keys. */
  function AnswerMembers(answers: map<nat, string>): (ms: seq<Member>)
    ensures |ms| == |answers|
    decreases |answers|
  {
    if answers == map[] then []
    else
      var k := MinKey(answers);
      var rest := answers - {k};
      assert |rest| == |answers| - 1 by {
        assert rest.Keys == answers.Keys - {k};
      }
      [(NatToDecimal(k), JStr(answers[k]))] + AnswerMembers(rest)
  }

  /** `JSON.stringify(answers)`. */
  function EncodeAnswers(answers: map<nat, string>): string {
    EncodeObject(AnswerMembers(answers))
  }

  /** Reads an object back as an answer map: every key a question id in
      decimal, every value a string, later members winning as in `JSON.parse`. */
  function MembersToAnswers(ms: seq<Member>): Option<map<nat, string>>
    decreases |ms|
  {
    if ms == [] then Some(map[])
    else
      match MembersToAnswers(ms[1..])
      case None => None
      case Some(rest) =>
        if IsCanonicalDecimal(ms[0].0) && ms[0].1.JStr? then
          var k := DecimalToNat(ms[0].0);
          Some(if k in rest then rest else rest[k := ms[0].1.s])
        else None
  }

  function DecodeAnswers(text: string): Option<map<nat, string>> {
    match ParseObject(text)
    case None => None
    case Some(ms) => MembersToAnswers(ms)
  }

  lemma {:induction false} AnswerMembersRoundTrip(answers: map<nat, string>)
    ensures MembersToAnswers(AnswerMembers(answers)) == Some(answers)
    decreases |answers|
  {
    if answers != map[] {
      var k := MinKey(answers);
      var rest := answers - {k};
      assert |rest| == |answers| - 1 by {
        assert rest.Keys == answers.Keys - {k};
      }
      var ms := AnswerMembers(answers);
      assert ms[1..] == AnswerMembers(rest);
      AnswerMembersRoundTrip(rest);
      DecimalRoundTrip(k);
      assert rest[k := answers[k]] == answers;
    }
  }

  /** The answers saved before login come back unchanged. */
  lemma AnswersRoundTrip(answers: map<nat, string>)
    ensures DecodeAnswers(EncodeAnswers(answers)) == Some(answers)
  {
    ObjectRoundTrip(AnswerMembers(answers));
    AnswerMembersRoundTrip(answers);
  }

  /** The member found is the last one with that name. */
  lemma {:induction false} LookupLast(ms: seq<Member>, i: nat, key: string)
    requires i < |ms| && ms[i].0 == key
    requires forall j :: i < j < |ms| ==> ms[j].0 != key
    ensures Lookup(ms, key) == Some(ms[i].1)
    decreases |ms|
  {
    if i > 0 {
      LookupLast(ms[1..], i - 1, key);
    } else {
      assert forall j :: 0 <= j < |ms[1..]| ==> ms[1..][j].0 != key by {
        forall j | 0 <= j < |ms[1..]|
          ensures ms[1..][j].0 != key
        {
          assert ms[1..][j] == ms[j + 1];
        }
      }
    }
  }
}
