/** `JSON.parse` (the grammar of RFC 8259) over the values of `Json`, and the
    round trip `Parse(Serialize(v)) == Success(Strip(v))` that the worker relies
    on twice: the form's private metadata and the cached project list are both
    written with `JSON.stringify` and read back with `JSON.parse`. Numbers are
    integers (a fraction or an exponent is rejected), and a `\u` escape of a
    UTF-16 surrogate is rejected, since a lone surrogate is not a character here. */
module JsonParse {
  import opened Wrappers
  import opened Text
  import opened Json

  datatype Parsed<T> = Parsed(value: T, rest: string)

  const SyntaxError := "Unexpected token in JSON"

  predicate IsJsonSpace(c: char) {
    c == ' ' || c == '\t' || c == '\n' || c == '\r'
  }

  function SkipSpace(s: string): (r: string)
    ensures |r| <= |s|
    ensures r == [] || !IsJsonSpace(r[0])
  {
    if s != [] && IsJsonSpace(s[0]) then SkipSpace(s[1..]) else s
  }

  function HexValue(c: char): Option<nat> {
    if '0' <= c <= '9' then Some((c as int) - ('0' as int))
    else if 'a' <= c <= 'f' then Some((c as int) - ('a' as int) + 10)
    else if 'A' <= c <= 'F' then Some((c as int) - ('A' as int) + 10)
    else None
  }

  function Hex4(s: string): (r: Option<nat>)
    requires |s| == 4
    ensures r.Some? ==> r.value < 0x1_0000
  {
    match (HexValue(s[0]), HexValue(s[1]), HexValue(s[2]), HexValue(s[3]))
    case (Some(a), Some(b), Some(c), Some(d)) =>
      if a < 16 && b < 16 && c < 16 && d < 16 then Some(((a * 16 + b) * 16 + c) * 16 + d) else None
    case _ => None
  }

  /** The escape sequence after a backslash: the character it denotes and how
      many characters it takes. */
  function Unescape(s: string): (r: Option<(char, nat)>)
    ensures r.Some? ==> 1 <= r.value.1 <= |s|
  {
    if s == [] then None
    else if s[0] == '"' then Some(('"', 1))
    else if s[0] == '\\' then Some(('\\', 1))
    else if s[0] == '/' then Some(('/', 1))
    else if s[0] == 'b' then Some(('\U{0008}', 1))
    else if s[0] == 'f' then Some(('\U{000C}', 1))
    else if s[0] == 'n' then Some(('\n', 1))
    else if s[0] == 'r' then Some(('\r', 1))
    else if s[0] == 't' then Some(('\t', 1))
    else if s[0] == 'u' && |s| >= 5 then
      match Hex4(s[1..5])
      case Some(n) => if n < 0xD800 || 0xDFFF < n then Some((n as char, 5)) else None
      case None => None
    else None
  }

  function Prepend(c: char, r: Option<Parsed<string>>): Option<Parsed<string>> {
    match r
    case None => None
    case Some(p) => Some(Parsed([c] + p.value, p.rest))
  }

  /** The characters of a string literal after its opening quote, up to and
      including the closing quote. */
  function ParseStringBody(s: string): (r: Option<Parsed<string>>)
    ensures r.Some? ==> |r.value.rest| < |s|
    decreases |s|
  {
    if s == [] then None
    else if s[0] == '"' then Some(Parsed([], s[1..]))
    else if s[0] == '\\' then
      match Unescape(s[1..])
      case None => None
      case Some((c, n)) => Prepend(c, ParseStringBody(s[1 + n..]))
    else if s[0] < ' ' then None
    else Prepend(s[0], ParseStringBody(s[1..]))
  }

  /** The length of the run of decimal digits s starts with. */
  function DigitRun(s: string): (k: nat)
    ensures k <= |s| && AllDigits(s[..k])
    ensures k < |s| ==> !IsDigit(s[k])
  {
    if s != [] && IsDigit(s[0]) then 1 + DigitRun(s[1..]) else 0
  }

  /** Digits without a leading zero, not followed by a fraction or exponent. */
  function ParseDigits(t: string): (r: Option<Parsed<JsValue>>)
    ensures r.Some? ==> |r.value.rest| < |t| && r.value.value.Num?
  {
    var k := DigitRun(t);
    if k == 0 || (k > 1 && t[0] == '0') then None
    else if k < |t| && (t[k] == '.' || t[k] == 'e' || t[k] == 'E') then None
    else Some(Parsed(Num(DecimalValue(t[..k])), t[k..]))
  }

  function Negate(r: Option<Parsed<JsValue>>): Option<Parsed<JsValue>> {
    match r
    case Some(Parsed(Num(n), rest)) => Some(Parsed(Num(-n), rest))
    case _ => None
  }

  /** An integer: an optional '-', then '0' or digits without a leading zero. */
  function ParseNumber(s: string): (r: Option<Parsed<JsValue>>)
    ensures r.Some? ==> |r.value.rest| < |s| && r.value.value.Num?
  {
    if s != [] && s[0] == '-' then Negate(ParseDigits(s[1..])) else ParseDigits(s)
  }

  /** A literal word such as `null`. */
  function ParseWord(t: string, word: string, v: JsValue): (r: Option<Parsed<JsValue>>)
    requires |word| > 0 && IsJson(v)
    ensures r.Some? ==> |r.value.rest| < |t| && IsJson(r.value.value)
  {
    if |t| >= |word| && t[..|word|] == word then Some(Parsed(v, t[|word|..])) else None
  }

  /** A string literal after its opening quote. */
  function ParseString(t: string): (r: Option<Parsed<JsValue>>)
    ensures r.Some? ==> |r.value.rest| < |t| && r.value.value.Str?
  {
    match ParseStringBody(t)
    case None => None
    case Some(p) => Some(Parsed(Str(p.value), p.rest))
  }

  function ParseValue(s: string): (r: Option<Parsed<JsValue>>)
    ensures r.Some? ==> |r.value.rest| < |s| && IsJson(r.value.value)
    decreases |s|, 0
  {
    var t := SkipSpace(s);
    if t == [] then None
    else if t[0] == 'n' then ParseWord(t, "null", Null)
    else if t[0] == 't' then ParseWord(t, "true", Bool(true))
    else if t[0] == 'f' then ParseWord(t, "false", Bool(false))
    else if t[0] == '"' then ParseString(t[1..])
    else if t[0] == '-' || IsDigit(t[0]) then ParseNumber(t)
    else if t[0] == '[' then ParseArray(t[1..])
    else if t[0] == '{' then ParseObject(t[1..])
    else None
  }

  /** An array after its opening bracket. */
  function ParseArray(s: string): (r: Option<Parsed<JsValue>>)
    ensures r.Some? ==> |r.value.rest| < |s| && IsJson(r.value.value)
    decreases |s|, 3
  {
    var u := SkipSpace(s);
    if u != [] && u[0] == ']' then Some(Parsed(Arr([]), u[1..]))
    else
      match ParseElements(s)
      case None => None
      case Some(p) => Some(Parsed(Arr(p.value), p.rest))
  }

  /** `value (',' value)* ']'` */
  function ParseElements(s: string): (r: Option<Parsed<seq<JsValue>>>)
    ensures r.Some? ==> |r.value.rest| < |s|
    ensures r.Some? ==> forall i :: 0 <= i < |r.value.value| ==> IsJson(r.value.value[i])
    decreases |s|, 1
  {
    match ParseValue(s)
    case None => None
    case Some(p) =>
      var w := SkipSpace(p.rest);
      if w == [] then None
      else if w[0] == ']' then Some(Parsed([p.value], w[1..]))
      else if w[0] == ',' then
        match ParseElements(w[1..])
        case None => None
        case Some(q) => Some(Parsed([p.value] + q.value, q.rest))
      else None
  }

  /** An object after its opening brace. */
  function ParseObject(s: string): (r: Option<Parsed<JsValue>>)
    ensures r.Some? ==> |r.value.rest| < |s| && IsJson(r.value.value)
    decreases |s|, 3
  {
    var u := SkipSpace(s);
    if u != [] && u[0] == '}' then Some(Parsed(Obj([]), u[1..]))
    else
      match ParseMembers(s)
      case None => None
      case Some(p) => Some(Parsed(Obj(p.value), p.rest))
  }

  /** `string ':' value` */
  function ParseMember(s: string): (r: Option<Parsed<Field>>)
    ensures r.Some? ==> |r.value.rest| < |s| && IsJson(r.value.value.value)
    decreases |s|, 1
  {
    var t := SkipSpace(s);
    if t == [] || t[0] != '"' then None
    else
      match ParseStringBody(t[1..])
      case None => None
      case Some(k) =>
        var u := SkipSpace(k.rest);
        if u == [] || u[0] != ':' then None
        else
          match ParseValue(u[1..])
          case None => None
          case Some(p) => Some(Parsed(Field(k.value, p.value), p.rest))
  }

  /** `member (',' member)* '}'`; a repeated key stays a repeated member, and
      reads take the last one, as with JSON.parse. */
  function ParseMembers(s: string): (r: Option<Parsed<seq<Field>>>)
    ensures r.Some? ==> |r.value.rest| < |s|
    ensures r.Some? ==> forall i :: 0 <= i < |r.value.value| ==> IsJson(r.value.value[i].value)
    decreases |s|, 2
  {
    match ParseMember(s)
    case None => None
    case Some(p) =>
      var w := SkipSpace(p.rest);
      if w == [] then None
      else if w[0] == '}' then Some(Parsed([p.value], w[1..]))
      else if w[0] == ',' then
        match ParseMembers(w[1..])
        case None => None
        case Some(q) => Some(Parsed([p.value] + q.value, q.rest))
      else None
  }

  /** `JSON.parse(text)`: one value, surrounded only by white space. */
  function Parse(text: string): (r: Result<JsValue>)
    ensures r.Success? ==> IsJson(r.value)
  {
    match ParseValue(text)
    case Some(p) => if SkipSpace(p.rest) == [] then Success(p.value) else Failure(SyntaxError)
    case None => Failure(SyntaxError)
  }

  // ---------------------------------------------------------------------
  // Round trip

  /** What may follow a value inside JSON text produced by Serialize. */
  predicate Delimited(t: string) {
    t == [] || t[0] == ',' || t[0] == ']' || t[0] == '}'
  }

  lemma {:induction false} DigitRunOf(d: string, t: string)
    requires AllDigits(d) && (t == [] || !IsDigit(t[0]))
    ensures DigitRun(d + t) == |d|
  {
    if d != [] {
      assert (d + t)[1..] == d[1..] + t;
      DigitRunOf(d[1..], t);
    } else {
      assert d + t == t;
    }
  }

  lemma DigitsRoundTrip(n: nat, t: string)
    requires Delimited(t)
    ensures ParseDigits(NatToDecimal(n) + t) == Some(Parsed(Num(n), t))
  {
    var d := NatToDecimal(n);
    var body := d + t;
    DigitRunOf(d, t);
    assert body[0] == d[0];
    assert body[..|d|] == d;
    assert body[|d|..] == t;
    DecimalRoundTrip(n);
  }

  lemma NegativeRoundTrip(m: nat, t: string)
    requires Delimited(t)
    ensures ParseNumber("-" + NatToDecimal(m) + t) == Some(Parsed(Num(-(m as int)), t))
  {
    var d := NatToDecimal(m);
    var s := "-" + d + t;
    assert s[0] == '-' && s[1..] == d + t;
    DigitsRoundTrip(m, t);
    NegateStep(s, m, t);
  }

  /** A '-' before digits negates what they denote. */
  lemma NegateStep(s: string, n: int, t: string)
    requires s != [] && s[0] == '-' && ParseDigits(s[1..]) == Some(Parsed(Num(n), t))
    ensures ParseNumber(s) == Some(Parsed(Num(-n), t))
  {
  }

  lemma NumberRoundTrip(n: int, t: string)
    requires Delimited(t)
    ensures ParseNumber(IntToDecimal(n) + t) == Some(Parsed(Num(n), t))
  {
    if n < 0 {
      assert IntToDecimal(n) + t == "-" + NatToDecimal(-n) + t;
      NegativeRoundTrip(-n, t);
    } else {
      NonNegativeRoundTrip(n, t);
    }
  }

  lemma NonNegativeRoundTrip(n: nat, t: string)
    requires Delimited(t)
    ensures ParseNumber(IntToDecimal(n) + t) == Some(Parsed(Num(n), t))
  {
    var d := NatToDecimal(n);
    assert IntToDecimal(n) + t == d + t;
    assert (d + t)[0] == d[0] && IsDigit(d[0]);
    DigitsRoundTrip(n, t);
  }

  /** One escaped character reads back as itself. */
  lemma EscapeCharRoundTrip(c: char, u: string)
    ensures ParseStringBody(EscapeChar(c) + u) == Prepend(c, ParseStringBody(u))
  {
    var e := EscapeChar(c);
    if c == '"' || c == '\\' || c == '\U{0008}' || c == '\U{000C}' || c == '\n' || c == '\r' || c == '\t' {
      ShortEscape(c, u);
      EscapeStep(c, e, u, 1);
    } else if c < ' ' {
      HexEscape(c, u);
      EscapeStep(c, e, u, 5);
    } else {
      var s := e + u;
      assert s[0] == c && s[1..] == u;
    }
  }

  /** A backslash and an escape sequence of n characters that denotes c. */
  lemma EscapeStep(c: char, e: string, u: string, n: nat)
    requires |e| == n + 1 && e[0] == '\\' && Unescape(e[1..] + u) == Some((c, n))
    ensures ParseStringBody(e + u) == Prepend(c, ParseStringBody(u))
  {
    var s := e + u;
    assert s[0] == '\\' && s[1..] == e[1..] + u && s[1 + n..] == u;
  }

  /** The two-character escapes. */
  lemma ShortEscape(c: char, u: string)
    requires c == '"' || c == '\\' || c == '\U{0008}' || c == '\U{000C}' || c == '\n' || c == '\r' || c == '\t'
    ensures |EscapeChar(c)| == 2 && EscapeChar(c)[0] == '\\'
    ensures Unescape(EscapeChar(c)[1..] + u) == Some((c, 1))
  {
    var e := EscapeChar(c);
    assert e == ['\\', e[1]];
    assert (e[1..] + u)[0] == e[1];
  }

  /** The six-character escapes of the other control characters. */
  lemma HexEscape(c: char, u: string)
    requires c < ' ' && !(c == '"' || c == '\\' || c == '\U{0008}' || c == '\U{000C}' || c == '\n' || c == '\r' || c == '\t')
    ensures |EscapeChar(c)| == 6 && EscapeChar(c)[0] == '\\'
    ensures Unescape(EscapeChar(c)[1..] + u) == Some((c, 5))
  {
    var hi, lo := (c as int) / 16, (c as int) % 16;
    HexEscapeText(c);
    HexUnescape(hi, lo, u);
  }

  lemma HexEscapeText(c: char)
    requires c < ' ' && !(c == '"' || c == '\\' || c == '\U{0008}' || c == '\U{000C}' || c == '\n' || c == '\r' || c == '\t')
    ensures var hi, lo := (c as int) / 16, (c as int) % 16;
      |EscapeChar(c)| == 6 && EscapeChar(c)[0] == '\\' && EscapeChar(c)[1..] == "u00" + [HexDigit(hi), HexDigit(lo)]
  {
    var hi, lo := (c as int) / 16, (c as int) % 16;
    var x := "u00" + [HexDigit(hi), HexDigit(lo)];
    assert EscapeChar(c) == "\\" + x;
    assert EscapeChar(c)[1..] == x;
  }

  /** `\u00` and two hex digits denote the character with that code. */
  lemma HexUnescape(hi: nat, lo: nat, u: string)
    requires hi < 2 && lo < 16
    ensures Unescape("u00" + [HexDigit(hi), HexDigit(lo)] + u) == Some(((hi * 16 + lo) as char, 5))
  {
    var s := "u00" + [HexDigit(hi), HexDigit(lo)] + u;
    assert s[0] == 'u' && s[1..5] == "00" + [HexDigit(hi), HexDigit(lo)];
    assert HexValue(HexDigit(hi)) == Some(hi);
    assert HexValue(HexDigit(lo)) == Some(lo);
  }

  lemma {:induction false} StringRoundTrip(s: string, t: string)
    ensures ParseStringBody(EscapeChars(s) + "\"" + t) == Some(Parsed(s, t))
  {
    if s == [] {
      assert EscapeChars(s) + "\"" + t == "\"" + t;
    } else {
      assert EscapeChars(s) + "\"" + t == EscapeChar(s[0]) + (EscapeChars(s[1..]) + "\"" + t);
      EscapeCharRoundTrip(s[0], EscapeChars(s[1..]) + "\"" + t);
      StringRoundTrip(s[1..], t);
      assert [s[0]] + s[1..] == s;
    }
  }

  /** Serialized text never starts with white space or a closing delimiter. */
  lemma SerializeStart(v: JsValue)
    ensures |Serialize(v)| >= 1
    ensures var c := Serialize(v)[0];
      !IsJsonSpace(c) && c != ']' && c != '}' && c != ','
  {
    if v.Num? {
      var d := IntToDecimal(v.n);
      assert d[0] == '-' || IsDigit(d[0]) by {
        if v.n >= 0 { assert IsDigit(NatToDecimal(v.n)[0]); }
      }
    }
  }

  lemma {:induction false} ItemsComma(items: seq<JsValue>)
    requires items != []
    ensures SerializeItems(items, true) == "," + SerializeItems(items, false)
  {
  }

  lemma {:induction false} MembersComma(ms: seq<Field>)
    ensures SerializeMembers(ms, true) ==
            (if StripMembers(ms) == [] then "" else "," + SerializeMembers(ms, false))
    ensures SerializeMembers(ms, false) == "" <==> StripMembers(ms) == []
    decreases ms
  {
    if ms != [] {
      MembersComma(ms[1..]);
      if !ms[0].value.Undefined? {
        SerializeStart(ms[0].value);
      }
    }
  }

  /** ParseValue dispatches on the first character of the text. */
  lemma ValueDispatch(s: string)
    requires s != [] && !IsJsonSpace(s[0])
    ensures s[0] == '[' ==> ParseValue(s) == ParseArray(s[1..])
    ensures s[0] == '{' ==> ParseValue(s) == ParseObject(s[1..])
    ensures s[0] == '"' ==> ParseValue(s) == ParseString(s[1..])
    ensures s[0] == '-' || IsDigit(s[0]) ==> ParseValue(s) == ParseNumber(s)
  {
  }

  lemma WordRoundTrip(word: string, v: JsValue, t: string)
    requires word == "null" || word == "true" || word == "false"
    requires IsJson(v)
    ensures ParseWord(word + t, word, v) == Some(Parsed(v, t))
  {
    assert (word + t)[..|word|] == word && (word + t)[|word|..] == t;
  }

  /** `JSON.parse` inverts `JSON.stringify` up to Strip. */
  lemma {:induction false} ValueRoundTrip(v: JsValue, t: string)
    requires Delimited(t)
    ensures ParseValue(Serialize(v) + t) == Some(Parsed(Strip(v), t))
    decreases v, 1
  {
    match v
    case Undefined => WordValueRoundTrip(v, "null", t);
    case Null => WordValueRoundTrip(v, "null", t);
    case Bool(b) => WordValueRoundTrip(v, if b then "true" else "false", t);
    case Num(n) => NumValueRoundTrip(n, t);
    case Str(x) => StrValueRoundTrip(x, t);
    case Arr(items) => ArrValueRoundTrip(items, t);
    case Obj(ms) => ObjValueRoundTrip(ms, t);
  }

  /** The text of v starts it, with no white space to skip. */
  lemma ValueStart(v: JsValue, t: string)
    ensures var s := Serialize(v) + t;
      s != [] && s[0] == Serialize(v)[0] && !IsJsonSpace(s[0]) && SkipSpace(s) == s
  {
    SerializeStart(v);
  }

  lemma WordValueRoundTrip(v: JsValue, word: string, t: string)
    requires v.Undefined? || v.Null? || v.Bool?
    requires word == Serialize(v)
    ensures ParseValue(Serialize(v) + t) == Some(Parsed(Strip(v), t))
  {
    ValueStart(v, t);
    WordRoundTrip(word, Strip(v), t);
  }

  lemma NumValueRoundTrip(n: int, t: string)
    requires Delimited(t)
    ensures ParseValue(Serialize(Num(n)) + t) == Some(Parsed(Num(n), t))
  {
    var s := Serialize(Num(n)) + t;
    ValueStart(Num(n), t);
    ValueDispatch(s);
    NumberRoundTrip(n, t);
  }

  lemma StrValueRoundTrip(x: string, t: string)
    ensures ParseValue(Serialize(Str(x)) + t) == Some(Parsed(Str(x), t))
  {
    var body := EscapeChars(x) + "\"" + t;
    var s := Serialize(Str(x)) + t;
    assert s == "\"" + body;
    ValueStart(Str(x), t);
    ValueDispatch(s);
    assert s[1..] == body;
    StringRoundTrip(x, t);
  }

  lemma {:induction false} ArrValueRoundTrip(items: seq<JsValue>, t: string)
    ensures ParseValue(Serialize(Arr(items)) + t) == Some(Parsed(Strip(Arr(items)), t))
    decreases items, 2
  {
    var s := Serialize(Arr(items)) + t;
    ValueStart(Arr(items), t);
    ValueDispatch(s);
    assert s[1..] == SerializeItems(items, false) + "]" + t;
    ArrayRoundTrip(items, t);
  }

  lemma {:induction false} ObjValueRoundTrip(ms: seq<Field>, t: string)
    ensures ParseValue(Serialize(Obj(ms)) + t) == Some(Parsed(Strip(Obj(ms)), t))
    decreases ms, 3
  {
    var s := Serialize(Obj(ms)) + t;
    ValueStart(Obj(ms), t);
    ValueDispatch(s);
    assert s[1..] == SerializeMembers(ms, false) + "}" + t;
    ObjectRoundTrip(ms, t);
  }

  lemma {:induction false} ArrayRoundTrip(items: seq<JsValue>, t: string)
    ensures ParseArray(SerializeItems(items, false) + "]" + t) == Some(Parsed(Arr(StripItems(items)), t))
    decreases items, 1
  {
    var inner := SerializeItems(items, false) + "]" + t;
    if items == [] {
      assert inner == "]" + t;
      Closing(']', t);
    } else {
      ItemsStart(items, "]" + t);
      assert inner == SerializeItems(items, false) + ("]" + t);
      NoSpace(inner);
      ItemsRoundTrip(items, t);
    }
  }

  lemma {:induction false} ObjectRoundTrip(ms: seq<Field>, t: string)
    ensures ParseObject(SerializeMembers(ms, false) + "}" + t) == Some(Parsed(Obj(StripMembers(ms)), t))
    decreases ms, 2
  {
    var inner := SerializeMembers(ms, false) + "}" + t;
    MembersComma(ms);
    if StripMembers(ms) == [] {
      assert inner == "}" + t;
      Closing('}', t);
    } else {
      MembersStart(ms);
      assert inner[0] == '"';
      NoSpace(inner);
      MembersRoundTrip(ms, t);
    }
  }

  /** Text that does not start with white space skips none. */
  lemma NoSpace(s: string)
    requires s != [] && !IsJsonSpace(s[0])
    ensures SkipSpace(s) == s
  {
  }

  /** A closing bracket or brace, and what follows it. */
  lemma Closing(c: char, t: string)
    requires c == ']' || c == '}'
    ensures SkipSpace([c] + t) == [c] + t && ([c] + t)[0] == c && ([c] + t)[1..] == t
  {
  }

  /** The items of a non-empty array start with the first item's text. */
  lemma ItemsStart(items: seq<JsValue>, u: string)
    requires items != []
    ensures var s := SerializeItems(items, false) + u;
      s != [] && !IsJsonSpace(s[0]) && s[0] != ']'
  {
    SerializeStart(items[0]);
    assert SerializeItems(items, false) == Serialize(items[0]) + SerializeItems(items[1..], true);
    assert (SerializeItems(items, false) + u)[0] == Serialize(items[0])[0];
  }

  lemma {:induction false} MembersStart(ms: seq<Field>)
    requires StripMembers(ms) != []
    ensures |SerializeMembers(ms, false)| >= 1 && SerializeMembers(ms, false)[0] == '"'
    decreases ms
  {
    if ms[0].value.Undefined? {
      MembersStart(ms[1..]);
    }
  }

  lemma {:induction false} ItemsRoundTrip(items: seq<JsValue>, t: string)
    requires items != []
    ensures ParseElements(SerializeItems(items, false) + "]" + t) == Some(Parsed(StripItems(items), t))
    decreases items, 0
  {
    var x, xs := items[0], items[1..];
    var item := Serialize(x);
    assert SerializeItems(items, false) == item + SerializeItems(xs, true);
    assert StripItems(items) == [Strip(x)] + StripItems(xs);
    if xs == [] {
      assert SerializeItems(items, false) == item + "" == item;
      assert StripItems(items) == [Strip(x)] + [] == [Strip(x)];
      LastItemRoundTrip(x, item, t);
    } else {
      ItemsComma(xs);
      var more := SerializeItems(xs, false) + "]" + t;
      assert SerializeItems(items, false) + "]" + t == item + "," + more;
      ItemsRoundTrip(xs, t);
      NextItemRoundTrip(x, item, more, StripItems(xs), t);
    }
  }

  lemma {:induction false} LastItemRoundTrip(x: JsValue, item: string, t: string)
    requires item == Serialize(x)
    ensures ParseElements(item + "]" + t) == Some(Parsed([Strip(x)], t))
    decreases x, 2
  {
    assert item + "]" + t == item + ("]" + t);
    ValueRoundTrip(x, "]" + t);
    ElementsStepLast(item + "]" + t, Strip(x), t);
  }

  lemma {:induction false} NextItemRoundTrip(x: JsValue, item: string, more: string, vs: seq<JsValue>, t: string)
    requires item == Serialize(x)
    requires ParseElements(more) == Some(Parsed(vs, t))
    ensures ParseElements(item + "," + more) == Some(Parsed([Strip(x)] + vs, t))
    decreases x, 2
  {
    assert item + "," + more == item + ("," + more);
    ValueRoundTrip(x, "," + more);
    ElementsStepNext(item + "," + more, Strip(x), more, vs, t);
  }

  lemma ElementsStepLast(s: string, v: JsValue, t: string)
    requires ParseValue(s) == Some(Parsed(v, "]" + t))
    ensures ParseElements(s) == Some(Parsed([v], t))
  {
    assert SkipSpace("]" + t) == "]" + t;
    assert ("]" + t)[1..] == t;
  }

  lemma ElementsStepNext(s: string, v: JsValue, more: string, vs: seq<JsValue>, t: string)
    requires ParseValue(s) == Some(Parsed(v, "," + more))
    requires ParseElements(more) == Some(Parsed(vs, t))
    ensures ParseElements(s) == Some(Parsed([v] + vs, t))
  {
    assert SkipSpace("," + more) == "," + more;
    assert ("," + more)[1..] == more;
  }

  lemma MemberStep(s: string, key: string, afterKey: string, v: JsValue, rest: string)
    requires s != [] && s[0] == '"'
    requires ParseStringBody(s[1..]) == Some(Parsed(key, afterKey))
    requires afterKey != [] && afterKey[0] == ':'
    requires ParseValue(afterKey[1..]) == Some(Parsed(v, rest))
    ensures ParseMember(s) == Some(Parsed(Field(key, v), rest))
  {
    assert SkipSpace(s) == s;
    assert SkipSpace(afterKey) == afterKey;
  }

  lemma MembersStepLast(s: string, f: Field, t: string)
    requires ParseMember(s) == Some(Parsed(f, "}" + t))
    ensures ParseMembers(s) == Some(Parsed([f], t))
  {
    assert SkipSpace("}" + t) == "}" + t;
    assert ("}" + t)[1..] == t;
  }

  lemma MembersStepNext(s: string, f: Field, more: string, fs: seq<Field>, t: string)
    requires ParseMember(s) == Some(Parsed(f, "," + more))
    requires ParseMembers(more) == Some(Parsed(fs, t))
    ensures ParseMembers(s) == Some(Parsed([f] + fs, t))
  {
    assert SkipSpace("," + more) == "," + more;
    assert ("," + more)[1..] == more;
  }

  lemma {:induction false} MemberRoundTrip(m: Field, tail: string)
    requires !m.value.Undefined? && Delimited(tail)
    ensures ParseMember(Quote(m.key) + ":" + Serialize(m.value) + tail)
            == Some(Parsed(Field(m.key, Strip(m.value)), tail))
    decreases m, 0
  {
    var q := EscapeChars(m.key);
    var afterKey := ":" + (Serialize(m.value) + tail);
    var s := Quote(m.key) + ":" + Serialize(m.value) + tail;
    assert s == "\"" + (q + "\"" + afterKey);
    assert s[1..] == q + "\"" + afterKey;
    StringRoundTrip(m.key, afterKey);
    assert afterKey[1..] == Serialize(m.value) + tail;
    ValueRoundTrip(m.value, tail);
    MemberStep(s, m.key, afterKey, Strip(m.value), tail);
  }

  lemma {:induction false} MembersRoundTrip(ms: seq<Field>, t: string)
    requires StripMembers(ms) != []
    ensures ParseMembers(SerializeMembers(ms, false) + "}" + t) == Some(Parsed(StripMembers(ms), t))
    decreases ms, 1
  {
    var m, rest := ms[0], ms[1..];
    if m.value.Undefined? {
      MembersRoundTrip(rest, t);
    } else {
      DefinedMembersRoundTrip(ms, t);
    }
  }

  /** The same when the first member has a value. */
  lemma {:induction false} DefinedMembersRoundTrip(ms: seq<Field>, t: string)
    requires ms != [] && !ms[0].value.Undefined?
    ensures ParseMembers(SerializeMembers(ms, false) + "}" + t) == Some(Parsed(StripMembers(ms), t))
    decreases ms, 0
  {
    var m, rest := ms[0], ms[1..];
    {
      MembersComma(rest);
      var pair := Quote(m.key) + ":" + Serialize(m.value);
      assert SerializeMembers(ms, false) == pair + SerializeMembers(rest, true);
      var f := Field(m.key, Strip(m.value));
      assert StripMembers(ms) == [f] + StripMembers(rest);
      if StripMembers(rest) == [] {
        assert SerializeMembers(ms, false) == pair;
        assert StripMembers(ms) == [f];
        LastMemberRoundTrip(m, pair, t);
      } else {
        var more := SerializeMembers(rest, false) + "}" + t;
        assert SerializeMembers(ms, false) + "}" + t == pair + "," + more;
        MembersRoundTrip(rest, t);
        NextMemberRoundTrip(m, pair, more, StripMembers(rest), t);
      }
    }
  }

  lemma {:induction false} LastMemberRoundTrip(m: Field, pair: string, t: string)
    requires !m.value.Undefined? && pair == Quote(m.key) + ":" + Serialize(m.value)
    ensures ParseMembers(pair + "}" + t) == Some(Parsed([Field(m.key, Strip(m.value))], t))
    decreases m, 1
  {
    assert pair + "}" + t == pair + ("}" + t);
    MemberRoundTrip(m, "}" + t);
    MembersStepLast(pair + "}" + t, Field(m.key, Strip(m.value)), t);
  }

  lemma {:induction false} NextMemberRoundTrip(m: Field, pair: string, more: string, fs: seq<Field>, t: string)
    requires !m.value.Undefined? && pair == Quote(m.key) + ":" + Serialize(m.value)
    requires ParseMembers(more) == Some(Parsed(fs, t))
    ensures ParseMembers(pair + "," + more) == Some(Parsed([Field(m.key, Strip(m.value))] + fs, t))
    decreases m, 1
  {
    assert pair + "," + more == pair + ("," + more);
    MemberRoundTrip(m, "," + more);
    MembersStepNext(pair + "," + more, Field(m.key, Strip(m.value)), more, fs, t);
  }

  /** What JSON.stringify writes, JSON.parse reads back (up to Strip). */
  lemma ParseSerialize(v: JsValue)
    ensures Parse(Serialize(v)) == Success(Strip(v))
  {
    ValueRoundTrip(v, []);
    assert Serialize(v) + [] == Serialize(v);
  }
}
