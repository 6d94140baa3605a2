/** The JavaScript values the client handles: parsed JSON payloads, their
    truthiness, property reads and string conversion, and the JSON codec the
    browser provides. */
module JsValues {
  import opened Wrappers

  /** A JSON value as `JSON.parse` produces it. Numbers are integers here;
      `undefined` (a missing property) is read as `Null`, which is
      observably the same wherever the client only tests truthiness or
      falls back with `||`. */
  datatype Json =
    | Null
    | Bool(b: bool)
    | Num(n: int)
    | Str(s: string)
    | Arr(items: seq<Json>)
    | Obj(fields: map<string, Json>)

  /** JavaScript truthiness: `null`, `false`, `0` and `''` are falsy;
      every array and object is truthy. */
  predicate Truthy(v: Json) {
    match v
    case Null => false
    case Bool(b) => b
    case Num(n) => n != 0
    case Str(s) => s != ""
    case Arr(_) => true
    case Obj(_) => true
  }

  /** `a || b`. */
  function Or(a: Json, b: Json): (r: Json)
    ensures r == a || r == b
    ensures Truthy(r) <==> Truthy(a) || Truthy(b)
  {
    if Truthy(a) then a else b
  }

  /** `v || null`: the normalisation the session store applies to whatever
      it is given. */
  function OrNull(v: Json): (r: Json)
    ensures Truthy(v) ==> r == v
    ensures !Truthy(v) ==> r == Null
  {
    Or(v, Null)
  }

  /** `v?.name`, reading an own property of an object; anything else has
      no such property and reads as `undefined`. */
  function Get(v: Json, name: string): Json {
    if v.Obj? && name in v.fields then v.fields[name] else Null
  }

  predicate IsDigit(c: char) {
    '0' <= c <= '9'
  }

  function DigitChar(d: nat): (c: char)
    requires d < 10
    ensures IsDigit(c)
  {
    "0123456789"[d]
  }

  /** Decimal digits of `n`, as `String(n)` writes a non-negative integer. */
  function NatToString(n: nat): (s: string)
    ensures |s| > 0
    ensures forall i :: 0 <= i < |s| ==> IsDigit(s[i])
    ensures s[0] == '0' ==> n == 0
  {
    if n < 10 then [DigitChar(n)] else NatToString(n / 10) + [DigitChar(n % 10)]
  }

  /** The value of a string of decimal digits. */
  function DigitsValue(s: string): nat
    requires forall i :: 0 <= i < |s| ==> IsDigit(s[i])
  {
    if s == [] then 0
    else
      assert IsDigit(s[|s| - 1]);
      DigitsValue(s[..|s| - 1]) * 10 + (s[|s| - 1] as int - '0' as int)
  }

  /** Reading back the decimal form of `n` gives `n`. */
  lemma {:induction false} NatToStringRoundTrip(n: nat)
    ensures DigitsValue(NatToString(n)) == n
  {
    var s := NatToString(n);
    if n >= 10 {
      NatToStringRoundTrip(n / 10);
      assert s[..|s| - 1] == NatToString(n / 10);
    }
  }

  /** Distinct numbers have distinct decimal forms. */
  lemma NatToStringInjective(m: nat, n: nat)
    ensures NatToString(m) == NatToString(n) ==> m == n
  {
    NatToStringRoundTrip(m);
    NatToStringRoundTrip(n);
  }

  /** `String(v)`, the conversion used for template literals, for
      `localStorage.setItem` and for property keys. Inside an array,
      `null` converts to the empty string. */
  function ToString(v: Json): string
    decreases v
  {
    match v
    case Null => "null"
    case Bool(b) => if b then "true" else "false"
    case Num(n) => if n < 0 then "-" + NatToString(-n) else NatToString(n)
    case Str(s) => s
    case Arr(items) =>
      Join(seq(|items|, i requires 0 <= i < |items| =>
                 if items[i].Null? then "" else ToString(items[i])))
    case Obj(_) => "[object Object]"
  }

  /** `parts.join(',')`. */
  function Join(parts: seq<string>): string {
    if parts == [] then ""
    else if |parts| == 1 then parts[0]
    else parts[0] + "," + Join(parts[1..])
  }

  /** Numbers that differ convert to strings that differ, so two users with
      different numeric identifiers never share a property key. */
  lemma {:induction false} NumKeysDistinct(m: int, n: int)
    requires m != n
    ensures ToString(Num(m)) != ToString(Num(n))
  {
    if m >= 0 && n >= 0 {
      NatToStringInjective(m, n);
    } else if m < 0 && n < 0 {
      var a, b := NatToString(-m), NatToString(-n);
      if "-" + a == "-" + b {
        assert a == ("-" + a)[1..];
        NatToStringInjective(-m, -n);
      }
    } else if m < 0 {
      assert ToString(Num(m))[0] == '-';
      assert IsDigit(ToString(Num(n))[0]);
    } else {
      assert ToString(Num(n))[0] == '-';
      assert IsDigit(ToString(Num(m))[0]);
    }
  }

  /** ASCII upper-case letters mapped to lower case, every other character
      left alone. */
  function LowerChar(c: char): (r: char)
    ensures 'A' <= c <= 'Z' ==> r as int == c as int + 32
    ensures !('A' <= c <= 'Z') ==> r == c
  {
    if 'A' <= c <= 'Z' then (c as int + 32) as char else c
  }

  /** `s.toLowerCase()` restricted to ASCII letters. */
  function Lower(s: string): (r: string)
    ensures |r| == |s|
    ensures forall i :: 0 <= i < |s| ==> r[i] == LowerChar(s[i])
  {
    seq(|s|, i requires 0 <= i < |s| => LowerChar(s[i]))
  }

  /** Lower-casing twice is lower-casing once. */
  lemma LowerIdempotent(s: string)
    ensures Lower(Lower(s)) == Lower(s)
  {
  }

  /** The browser's `JSON.parse` (returning `None` where it throws) and
      `JSON.stringify`. */
  datatype JsonCodec = JsonCodec(parse: string -> Option<Json>, stringify: Json -> string)

  /** What every conforming JSON implementation guarantees of the values
      modelled here: stringify then parse gives the value back, and the
      empty string does not parse. */
  ghost predicate Faithful(codec: JsonCodec) {
    && codec.parse("") == None
    && forall v :: codec.parse(codec.stringify(v)) == Some(v)
  }

  /** A faithful `JSON.stringify` never writes the empty string, so a
      stored payload always passes the client's `if (stored)` test. */
  lemma StringifyNonEmpty(codec: JsonCodec, v: Json)
    requires Faithful(codec)
    ensures codec.stringify(v) != ""
  {
    assert codec.parse(codec.stringify(v)) == Some(v);
  }
}
