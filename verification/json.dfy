/** JavaScript values as the worker sees them after `JSON.parse`, and the few
    JavaScript operations it applies to them: property reads with `.` and `?.`,
    truthiness and `||`, conversion to a string in a template literal, and
    `JSON.stringify`. Numbers are integers; objects keep their members in
    insertion order. */
module Json {
  import opened Wrappers
  import opened Text

  datatype JsValue =
    | Undefined
    | Null
    | Bool(b: bool)
    | Num(n: int)
    | Str(s: string)
    | Arr(items: seq<JsValue>)
    | Obj(members: seq<Field>)

  datatype Field = Field(key: string, value: JsValue)

  /** The value of the last member named k, as a read of an object property
      gives it (`JSON.parse` keeps the last of duplicated keys). */
  function Lookup(ms: seq<Field>, k: string): (v: JsValue)
    ensures v != Undefined ==> exists i :: 0 <= i < |ms| && ms[i].key == k && ms[i].value == v
    ensures (forall i :: 0 <= i < |ms| ==> ms[i].key != k) ==> v == Undefined
    ensures ms != [] && ms[|ms| - 1].key == k ==> v == ms[|ms| - 1].value
  {
    if ms == [] then Undefined
    else if ms[|ms| - 1].key == k then ms[|ms| - 1].value
    else Lookup(ms[..|ms| - 1], k)
  }

  /** The value read is that of the last member with the key, wherever the
      key also occurs before it. */
  lemma {:induction false} LookupLastMatch(ms: seq<Field>, k: string, i: nat)
    requires i < |ms| && ms[i].key == k
    requires forall j :: i < j < |ms| ==> ms[j].key != k
    ensures Lookup(ms, k) == ms[i].value
    decreases |ms|
  {
    if i < |ms| - 1 {
      var front := ms[..|ms| - 1];
      assert front[i] == ms[i];
      assert forall j :: i < j < |front| ==> front[j] == ms[j];
      LookupLastMatch(front, k, i);
    }
  }

  /** `v?.k`: a property of an object, and `undefined` for every other value
      (built-in properties of strings and arrays are not modelled). */
  function Get(v: JsValue, k: string): (r: JsValue)
    ensures !v.Obj? ==> r == Undefined
    ensures r != Undefined ==> v.Obj? && exists i :: 0 <= i < |v.members| && v.members[i].key == k && v.members[i].value == r
    ensures v.Obj? && (forall i :: 0 <= i < |v.members| ==> v.members[i].key != k) ==> r == Undefined
  {
    if v.Obj? then Lookup(v.members, k) else Undefined
  }

  /** The message of the TypeError thrown by `v.k` when v is null or undefined. */
  function ReadError(v: JsValue, k: string): string {
    "Cannot read properties of " + (if v.Null? then "null" else "undefined") + " (reading '" + k + "')"
  }

  /** `v.k`: throws on null and undefined, reads the property otherwise. */
  function Member(v: JsValue, k: string): (r: Result<JsValue>)
    ensures r.Failure? <==> (v.Undefined? || v.Null?)
    ensures r.Success? ==> r.value == Get(v, k)
  {
    if v.Undefined? || v.Null? then Failure(ReadError(v, k)) else Success(Get(v, k))
  }

  /** `v.k1.k2…`: the reads in order, stopping at the first that throws. */
  function Path(v: JsValue, ks: seq<string>): (r: Result<JsValue>)
    ensures ks == [] ==> r == Success(v)
    ensures ks != [] && (v.Undefined? || v.Null?) ==> r == Failure(ReadError(v, ks[0]))
    ensures |ks| == 1 ==> r == Member(v, ks[0])
    decreases |ks|
  {
    if ks == [] then Success(v)
    else match Member(v, ks[0])
      case Failure(e) => Failure(e)
      case Success(w) => Path(w, ks[1..])
  }

  /** A longer path reads the shorter one, then one more property of what
      that gave. */
  lemma {:induction false} PathSnoc(v: JsValue, ks: seq<string>, k: string)
    ensures Path(v, ks + [k]) == (match Path(v, ks)
                                  case Failure(e) => Failure(e)
                                  case Success(w) => Member(w, k))
    decreases |ks|
  {
    if ks == [] {
      assert ks + [k] == [k];
    } else {
      assert (ks + [k])[0] == ks[0] && (ks + [k])[1..] == ks[1..] + [k];
      match Member(v, ks[0])
      case Failure(e) =>
      case Success(w) => PathSnoc(w, ks[1..], k);
    }
  }

  /** The element at i is the first on which f throws. */
  predicate FirstThrow<T>(f: JsValue -> Result<T>, ps: seq<JsValue>, i: nat) {
    i < |ps| && f(ps[i]).Failure? && forall j :: 0 <= j < i ==> f(ps[j]).Success?
  }

  /** `ps.map(f)` for a callback that may throw: the results in order, or
      the error of the first element on which f throws. */
  function MapAll<T>(f: JsValue -> Result<T>, ps: seq<JsValue>): (r: Result<seq<T>>)
    ensures r.Success? <==> forall i :: 0 <= i < |ps| ==> f(ps[i]).Success?
    ensures r.Success? ==> |r.value| == |ps|
    ensures r.Success? ==> forall i :: 0 <= i < |ps| ==> r.value[i] == f(ps[i]).value
    ensures r.Failure? ==> exists i: nat :: FirstThrow(f, ps, i) && r.error == f(ps[i]).error
  {
    if ps == [] then Success([])
    else match f(ps[0])
      case Failure(e) =>
        assert FirstThrow(f, ps, 0);
        Failure(e)
      case Success(q) =>
        match MapAll(f, ps[1..])
        case Failure(e) =>
          ghost var i: nat :| FirstThrow(f, ps[1..], i) && e == f(ps[1..][i]).error;
          assert ps[i + 1] == ps[1..][i];
          assert forall j :: 1 <= j < i + 1 ==> ps[j] == ps[1..][j - 1];
          assert FirstThrow(f, ps, i + 1);
          Failure(e)
        case Success(qs) =>
          assert forall i :: 1 <= i < |ps| ==> ps[i] == ps[1..][i - 1];
          Success([q] + qs)
  }

  /** `v?.[0]`: the first element of an array, undefined for an empty one,
      and no error on null or undefined. */
  function First(v: JsValue): (r: JsValue)
    ensures v.Arr? ==> (r == Undefined <==> v.items == [] || v.items[0] == Undefined)
    ensures v.Arr? && v.items != [] ==> r == v.items[0]
    ensures v.Undefined? || v.Null? ==> r == Undefined
  {
    match v
    case Arr(items) => if items == [] then Undefined else items[0]
    case Str(s) => if s == [] then Undefined else Str(s[..1])
    case Obj(ms) => Lookup(ms, "0")
    case _ => Undefined
  }

  /** JavaScript's ToBoolean on the modelled values. Numbers are integers
      here, so NaN and -0 do not arise. */
  function Truthy(v: JsValue): (r: bool)
    ensures !r <==> v == Undefined || v == Null || v == Bool(false) || v == Num(0) || v == Str([])
  {
    match v
    case Undefined => false
    case Null => false
    case Bool(b) => b
    case Num(n) => n != 0
    case Str(s) => s != []
    case Arr(_) => true
    case Obj(_) => true
  }

  /** `a || b` */
  function Or(a: JsValue, b: JsValue): (r: JsValue)
    ensures Truthy(a) ==> r == a
    ensures !Truthy(a) ==> r == b
  {
    if Truthy(a) then a else b
  }

  /** `String(v)`, which is what `${v}` in a template literal and `new Error(v)`
      produce. Array elements that are null or undefined become empty. */
  function ToJsString(v: JsValue): (r: string)
    ensures v.Str? ==> r == v.s
    ensures v.Num? && v.n >= 0 ==> AllDigits(r) && DecimalValue(r) == v.n
    ensures v.Undefined? ==> r == "undefined"
    ensures v.Null? ==> r == "null"
  {
    match v
    case Undefined => "undefined"
    case Null => "null"
    case Bool(b) => if b then "true" else "false"
    case Num(n) => if n >= 0 then DecimalRoundTrip(n); IntToDecimal(n) else IntToDecimal(n)
    case Str(s) => s
    case Obj(_) => "[object Object]"
    case Arr(items) => JoinItemText(items, false)
  }

  function JoinItemText(items: seq<JsValue>, comma: bool): string {
    if items == [] then ""
    else
      (if comma then "," else "")
      + (if items[0].Undefined? || items[0].Null? then "" else ToJsString(items[0]))
      + JoinItemText(items[1..], true)
  }

  // ---------------------------------------------------------------------
  // JSON.stringify

  function HexDigit(d: nat): (c: char)
    requires d < 16
  {
    "0123456789abcdef"[d]
  }

  /** How `JSON.stringify` writes one character inside a string literal. */
  function EscapeChar(c: char): string {
    if c == '"' then "\\\""
    else if c == '\\' then "\\\\"
    else if c == '\U{0008}' then "\\b"
    else if c == '\U{000C}' then "\\f"
    else if c == '\n' then "\\n"
    else if c == '\r' then "\\r"
    else if c == '\t' then "\\t"
    else if c < ' ' then "\\u00" + [HexDigit((c as int) / 16), HexDigit((c as int) % 16)]
    else [c]
  }

  function EscapeChars(s: string): string {
    if s == [] then "" else EscapeChar(s[0]) + EscapeChars(s[1..])
  }

  function Quote(s: string): string {
    "\"" + EscapeChars(s) + "\""
  }

  /** `JSON.stringify(v)`. Object members whose value is undefined are left
      out and undefined array elements become `null`; a top-level undefined,
      which JSON.stringify maps to no string at all, is never serialized by
      the worker and is written `null` here as well. */
  function Serialize(v: JsValue): (r: string)
    ensures |r| >= 1
    ensures v.Str? ==> |r| >= 2 && r[0] == '"' && r[|r| - 1] == '"'
    ensures v.Arr? ==> r[0] == '[' && r[|r| - 1] == ']'
    ensures v.Obj? ==> r[0] == '{' && r[|r| - 1] == '}'
    decreases v
  {
    match v
    case Undefined => "null"
    case Null => "null"
    case Bool(b) => if b then "true" else "false"
    case Num(n) => IntToDecimal(n)
    case Str(s) => Quote(s)
    case Arr(items) => "[" + SerializeItems(items, false) + "]"
    case Obj(ms) => "{" + SerializeMembers(ms, false) + "}"
  }

  function SerializeItems(items: seq<JsValue>, comma: bool): string
    decreases items
  {
    if items == [] then ""
    else (if comma then "," else "") + Serialize(items[0]) + SerializeItems(items[1..], true)
  }

  function SerializeMembers(ms: seq<Field>, comma: bool): string
    decreases ms
  {
    if ms == [] then ""
    else if ms[0].value.Undefined? then SerializeMembers(ms[1..], comma)
    else
      (if comma then "," else "") + Quote(ms[0].key) + ":" + Serialize(ms[0].value)
      + SerializeMembers(ms[1..], true)
  }

  // ---------------------------------------------------------------------
  // What survives a trip through JSON text

  /** A value JSON text can denote: no undefined anywhere inside it. */
  predicate IsJson(v: JsValue)
    decreases v
  {
    match v
    case Undefined => false
    case Arr(items) => forall i :: 0 <= i < |items| ==> IsJson(items[i])
    case Obj(ms) => forall i :: 0 <= i < |ms| ==> IsJson(ms[i].value)
    case _ => true
  }

  /** v as `JSON.parse(JSON.stringify(v))` gives it back. */
  function Strip(v: JsValue): JsValue
    decreases v
  {
    match v
    case Undefined => Null
    case Arr(items) => Arr(StripItems(items))
    case Obj(ms) => Obj(StripMembers(ms))
    case _ => v
  }

  function StripItems(items: seq<JsValue>): (r: seq<JsValue>)
    ensures |r| == |items|
    decreases items
  {
    if items == [] then [] else [Strip(items[0])] + StripItems(items[1..])
  }

  function StripMembers(ms: seq<Field>): seq<Field>
    decreases ms
  {
    if ms == [] then []
    else if ms[0].value.Undefined? then StripMembers(ms[1..])
    else [Field(ms[0].key, Strip(ms[0].value))] + StripMembers(ms[1..])
  }

  /** A member value as a property read sees it after the round trip: left-out
      members read as undefined again. */
  function StripMember(v: JsValue): JsValue {
    if v.Undefined? then Undefined else Strip(v)
  }

  predicate UniqueKeys(ms: seq<Field>) {
    forall i, j :: 0 <= i < j < |ms| ==> ms[i].key != ms[j].key
  }

  /** Values that are already JSON come back unchanged. */
  lemma {:induction false} StripJson(v: JsValue)
    requires IsJson(v)
    ensures Strip(v) == v
    decreases v
  {
    match v
    case Arr(items) => StripItemsJson(items);
    case Obj(ms) => StripMembersJson(ms);
    case _ =>
  }

  lemma {:induction false} StripItemsJson(items: seq<JsValue>)
    requires forall i :: 0 <= i < |items| ==> IsJson(items[i])
    ensures StripItems(items) == items
    decreases items
  {
    if items != [] {
      StripJson(items[0]);
      StripItemsJson(items[1..]);
    }
  }

  lemma {:induction false} StripMembersJson(ms: seq<Field>)
    requires forall i :: 0 <= i < |ms| ==> IsJson(ms[i].value)
    ensures StripMembers(ms) == ms
    decreases ms
  {
    if ms != [] {
      StripJson(ms[0].value);
      StripMembersJson(ms[1..]);
    }
  }

  /** Every member that survives the round trip is one of the original
      members, with its value stripped. */
  lemma {:induction false} StripMembersFrom(ms: seq<Field>, k: string)
    ensures (forall i :: 0 <= i < |ms| ==> ms[i].key != k) ==>
            (forall i :: 0 <= i < |StripMembers(ms)| ==> StripMembers(ms)[i].key != k)
  {
    if ms != [] {
      StripMembersFrom(ms[1..], k);
    }
  }

  /** Reading a property after the round trip gives what reading it before
      gives, once that is stripped, when the object's keys are distinct (as
      those of every JavaScript object are). */
  lemma {:induction false} LookupStrip(ms: seq<Field>, k: string)
    requires UniqueKeys(ms)
    ensures Lookup(StripMembers(ms), k) == StripMember(Lookup(ms, k))
  {
    if ms != [] {
      var rest := ms[1..];
      assert UniqueKeys(rest);
      LookupStrip(rest, k);
      if ms[0].key == k {
        forall i | 0 <= i < |rest| ensures rest[i].key != k {
          assert rest[i] == ms[i + 1];
        }
        StripMembersFrom(rest, k);
        LookupAbsent(rest, k);
        LookupAbsent(StripMembers(rest), k);
        LookupFront(ms, k);
        if !ms[0].value.Undefined? {
          LookupFront([Field(k, Strip(ms[0].value))] + StripMembers(rest), k);
        }
      } else {
        LookupSkipFront(ms, k);
        if !ms[0].value.Undefined? {
          LookupSkipFront([Field(ms[0].key, Strip(ms[0].value))] + StripMembers(rest), k);
        }
      }
    }
  }

  lemma {:induction false} LookupAbsent(ms: seq<Field>, k: string)
    requires forall i :: 0 <= i < |ms| ==> ms[i].key != k
    ensures Lookup(ms, k) == Undefined
  {
  }

  /** The first member decides the read when no later member has its key. */
  lemma {:induction false} LookupFront(ms: seq<Field>, k: string)
    requires ms != [] && ms[0].key == k
    requires forall i :: 1 <= i < |ms| ==> ms[i].key != k
    ensures Lookup(ms, k) == ms[0].value
    decreases |ms|
  {
    if |ms| > 1 {
      var init := ms[..|ms| - 1];
      assert init[0] == ms[0];
      LookupFront(init, k);
    }
  }

  /** A first member with another key does not change the read. */
  lemma {:induction false} LookupSkipFront(ms: seq<Field>, k: string)
    requires ms != [] && ms[0].key != k
    ensures Lookup(ms, k) == Lookup(ms[1..], k)
    decreases |ms|
  {
    if |ms| > 1 && ms[|ms| - 1].key != k {
      var init := ms[..|ms| - 1];
      LookupSkipFront(init, k);
      assert init[1..] == ms[1..][..|ms[1..]| - 1];
    }
  }

  /** `Get` after a round trip of an object with distinct keys. */
  lemma GetStrip(ms: seq<Field>, k: string)
    requires UniqueKeys(ms)
    ensures Get(Strip(Obj(ms)), k) == StripMember(Get(Obj(ms), k))
  {
    LookupStrip(ms, k);
  }

  /** A property of a JSON value is JSON itself, or undefined. */
  lemma GetJson(v: JsValue, k: string)
    requires IsJson(v)
    ensures Get(v, k).Undefined? || IsJson(Get(v, k))
  {
  }
}
