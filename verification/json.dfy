/** JavaScript values as the tool handlers see them: JSON payloads from the
    remote API, tool arguments whose optional fields may be `undefined`, and
    the three renderings of a value the handlers use: template
    interpolation (`String(v)`), compact `JSON.stringify(v)` and pretty
    `JSON.stringify(v, null, 2)`. */
module Json {
  import opened Wrappers

  /** A JSON value. Numbers are integers; objects list their members in
      insertion order and, having come from a parser or an object literal,
      never repeat a key. */
  datatype Json =
    | JNull
    | JBool(b: bool)
    | JNum(n: int)
    | JStr(s: string)
    | JArr(items: seq<Json>)
    | JObj(fields: seq<(string, Json)>)

  /** A property value of a JavaScript object: `undefined` or a JSON value. */
  datatype Value = Undefined | Js(json: Json)

  /** A plain JavaScript object (tool arguments, query parameters, a JSON
      request body), as its entries in insertion order. */
  type Object = seq<(string, Value)>

  /** JavaScript truthiness of a defined value: `null`, `false`, `0` and
      `""` are falsy, every array and object is truthy. */
  predicate Truthy(j: Json) {
    match j
    case JNull => false
    case JBool(b) => b
    case JNum(n) => n != 0
    case JStr(s) => s != []
    case JArr(_) => true
    case JObj(_) => true
  }

  /** `typeof v === 'object'`, which holds of `null` as well as of arrays
      and objects. */
  predicate IsObjectTyped(j: Json) {
    j.JNull? || j.JArr? || j.JObj?
  }

  /** An optional numeric tool argument as a property value. */
  function OptNum(x: Option<int>): Value {
    if x.Some? then Js(JNum(x.value)) else Undefined
  }

  /** An optional string tool argument as a property value. */
  function OptStr(x: Option<string>): Value {
    if x.Some? then Js(JStr(x.value)) else Undefined
  }

  /** An optional boolean tool argument as a property value. */
  function OptBool(x: Option<bool>): Value {
    if x.Some? then Js(JBool(x.value)) else Undefined
  }

  /** The keys of an object, in insertion order. */
  function Keys(o: Object): (ks: seq<string>)
    ensures |ks| == |o|
    ensures forall i :: 0 <= i < |o| ==> ks[i] == o[i].0
  {
    seq(|o|, i requires 0 <= i < |o| => o[i].0)
  }

  /** Property access `o[key]`: the value of the first entry with that key,
      `undefined` when there is none. */
  function Lookup(o: Object, key: string): (v: Value)
    ensures key !in Keys(o) ==> v == Undefined
    ensures v != Undefined ==> (key, v) in o
  {
    if o == [] then Undefined
    else if o[0].0 == key then o[0].1
    else Lookup(o[1..], key)
  }

  /** The object literal `{ key: v }`. */
  function Single(key: string, v: Value): (o: Object)
    ensures Keys(o) == [key]
    ensures Lookup(o, key) == v
  {
    [(key, v)]
  }

  /** Looking up the key of an entry that no earlier entry shares finds
      that entry's value. */
  lemma {:induction false} LookupAt(o: Object, i: nat)
    requires i < |o|
    requires forall j :: 0 <= j < i ==> o[j].0 != o[i].0
    ensures Lookup(o, o[i].0) == o[i].1
  {
    if i > 0 {
      assert o[1..][i - 1] == o[i];
      LookupAt(o[1..], i - 1);
    }
  }

  /** The rest object of `const { key, ...rest } = o`: every entry except
      the ones named `key`, in the same order. */
  function Without(o: Object, key: string): (rest: Object)
    ensures key !in Keys(rest)
    ensures forall e :: e in rest <==> e in o && e.0 != key
    ensures forall k :: k != key ==> Lookup(rest, k) == Lookup(o, k)
  {
    if o == [] then []
    else if o[0].0 == key then Without(o[1..], key)
    else [o[0]] + Without(o[1..], key)
  }

  /** Optional chaining `data?.key` on a value that may be undefined: only
      a JSON object has the named properties the handlers read. */
  function Property(data: Option<Json>, key: string): (r: Option<Json>)
    ensures r.Some? ==> data.Some? && data.value.JObj? && (key, r.value) in data.value.fields
    ensures data.Some? && data.value.JObj? && (exists v :: (key, v) in data.value.fields) ==> r.Some?
  {
    if data.Some? && data.value.JObj? then Member(data.value.fields, key) else None
  }

  function Member(fields: seq<(string, Json)>, key: string): (r: Option<Json>)
    ensures r.Some? ==> (key, r.value) in fields
    ensures (exists v :: (key, v) in fields) ==> r.Some?
  {
    if fields == [] then None
    else if fields[0].0 == key then Some(fields[0].1)
    else Member(fields[1..], key)
  }

  // ---------------------------------------------------------------------
  // Decimal rendering of integers, as `${n}` does for a safe integer.

  predicate IsDigit(c: char) {
    '0' <= c <= '9'
  }

  function DigitChar(d: nat): (c: char)
    requires d < 10
    ensures IsDigit(c)
  {
    (48 + d) as char
  }

  function DigitValue(c: char): (d: nat)
    requires IsDigit(c)
    ensures d < 10
  {
    c as int - 48
  }

  function NatDecimal(n: nat): (s: string)
    ensures |s| >= 1
    ensures forall i :: 0 <= i < |s| ==> IsDigit(s[i])
  {
    if n < 10 then [DigitChar(n)] else NatDecimal(n / 10) + [DigitChar(n % 10)]
  }

  /** `${n}` for an integer: an optional minus sign followed by digits. */
  function Decimal(n: int): (s: string)
    ensures |s| >= 1
    ensures IsDigit(s[|s| - 1])
    ensures forall i :: 0 <= i < |s| ==> IsDigit(s[i]) || (i == 0 && s[i] == '-')
  {
    if n < 0 then "-" + NatDecimal(-n) else NatDecimal(n)
  }

  /** Reads a non-empty run of decimal digits back as a number. */
  function ParseNat(s: string): Option<nat>
    decreases |s|
  {
    if s == [] || !IsDigit(s[|s| - 1]) then None
    else if |s| == 1 then Some(DigitValue(s[0]))
    else match ParseNat(s[..|s| - 1])
      case None => None
      case Some(v) => Some(10 * v + DigitValue(s[|s| - 1]))
  }

  /** Reads an optionally signed decimal integer. */
  function ParseDecimal(s: string): Option<int> {
    if |s| > 0 && s[0] == '-' then
      match ParseNat(s[1..])
      case None => None
      case Some(v) => Some(-(v as int))
    else ParseNat(s)
  }

  lemma {:induction false} NatDecimalRoundTrip(n: nat)
    ensures ParseNat(NatDecimal(n)) == Some(n)
  {
    if n >= 10 {
      var s := NatDecimal(n);
      var prefix := NatDecimal(n / 10);
      assert s == prefix + [DigitChar(n % 10)];
      assert s[..|s| - 1] == prefix;
      NatDecimalRoundTrip(n / 10);
    }
  }

  /** Every rendered integer reads back as itself. */
  lemma DecimalRoundTrip(n: int)
    ensures ParseDecimal(Decimal(n)) == Some(n)
  {
    if n < 0 {
      assert Decimal(n)[1..] == NatDecimal(-n);
      NatDecimalRoundTrip(-n);
    } else {
      NatDecimalRoundTrip(n);
    }
  }

  /** Distinct integers render as distinct strings. */
  lemma DecimalInjective(a: int, b: int)
    ensures Decimal(a) == Decimal(b) ==> a == b
  {
    DecimalRoundTrip(a);
    DecimalRoundTrip(b);
  }

  // ---------------------------------------------------------------------
  // Renderings of JSON values.

  /** `parts.join(sep)`. */
  function Join(parts: seq<string>, sep: string): string {
    if parts == [] then ""
    else if |parts| == 1 then parts[0]
    else parts[0] + sep + Join(parts[1..], sep)
  }

  function HexDigit(d: nat): char
    requires d < 16
  {
    "0123456789abcdef"[d]
  }

  /** How `JSON.stringify` writes one character inside a string literal. */
  function EscapeChar(c: char): string {
    if c == '"' then "\\\""
    else if c == '\\' then "\\\\"
    else if c == '\n' then "\\n"
    else if c == '\r' then "\\r"
    else if c == '\t' then "\\t"
    else if c as int == 8 then "\\b"
    else if c as int == 12 then "\\f"
    else if c as int < 32 then "\\u00" + [HexDigit(c as int / 16), HexDigit(c as int % 16)]
    else [c]
  }

  function Escape(s: string): string {
    if s == [] then "" else EscapeChar(s[0]) + Escape(s[1..])
  }

  function Quote(s: string): string {
    "\"" + Escape(s) + "\""
  }

  /** `JSON.stringify(j)`: no white space between tokens. */
  function Compact(j: Json): string
    decreases j
  {
    match j
    case JNull => "null"
    case JBool(b) => if b then "true" else "false"
    case JNum(n) => Decimal(n)
    case JStr(s) => Quote(s)
    case JArr(items) =>
      "[" + Join(seq(|items|, i requires 0 <= i < |items| => Compact(items[i])), ",") + "]"
    case JObj(fields) =>
      "{" + Join(seq(|fields|, i requires 0 <= i < |fields| =>
                   Quote(fields[i].0) + ":" + Compact(fields[i].1)), ",") + "}"
  }

  function Indent(depth: nat): string {
    if depth == 0 then "" else "  " + Indent(depth - 1)
  }

  /** `JSON.stringify(j, null, 2)` for a value nested `depth` levels deep. */
  function PrettyAt(j: Json, depth: nat): string
    decreases j
  {
    match j
    case JArr(items) =>
      if items == [] then "[]"
      else
        "[\n"
        + Join(seq(|items|, i requires 0 <= i < |items| =>
                 Indent(depth + 1) + PrettyAt(items[i], depth + 1)), ",\n")
        + "\n" + Indent(depth) + "]"
    case JObj(fields) =>
      if fields == [] then "{}"
      else
        "{\n"
        + Join(seq(|fields|, i requires 0 <= i < |fields| =>
                 Indent(depth + 1) + Quote(fields[i].0) + ": " + PrettyAt(fields[i].1, depth + 1)), ",\n")
        + "\n" + Indent(depth) + "}"
    case _ => Compact(j)
  }

  /** `JSON.stringify(j, null, 2)`. */
  function Pretty(j: Json): string {
    PrettyAt(j, 0)
  }

  /** `String(j)`, which is also what a template literal interpolates. */
  function JsString(j: Json): string
    decreases j
  {
    match j
    case JNull => "null"
    case JBool(b) => if b then "true" else "false"
    case JNum(n) => Decimal(n)
    case JStr(s) => s
    case JArr(items) =>
      Join(seq(|items|, i requires 0 <= i < |items| =>
             if items[i].JNull? then "" else JsString(items[i])), ",")
    case JObj(_) => "[object Object]"
  }
}
