/** The untyped JavaScript values that the services inspect at run time, and
    the language operations they rely on: truthiness, `typeof`, the `in`
    operator, property reads, `String(v)`, `parseInt`, `String.prototype.trim`
    and `String.prototype.length` (UTF-16 code units). Numbers are modelled as
    integers only. */
module Js {
  import opened Prelude

  datatype JsValue =
    | Undefined
    | Null
    | Bool(b: bool)
    | Num(n: int)
    | Str(s: string)
      /** A plain object; `props` lists its own keys in `Object.entries` order. */
    | Obj(props: seq<(string, JsValue)>)
      /** An instance of `Error`. */
    | ErrorInstance(message: string)

  predicate IsNullish(v: JsValue)
  {
    v.Undefined? || v.Null?
  }

  /** Boolean coercion, as used by `!v`, `v || w` and `if (v)`. */
  predicate Truthy(v: JsValue)
  {
    match v
    case Undefined => false
    case Null => false
    case Bool(b) => b
    case Num(n) => n != 0
    case Str(s) => s != ""
    case Obj(_) => true
    case ErrorInstance(_) => true
  }

  /** `typeof v` */
  function TypeOf(v: JsValue): (t: string)
    ensures t == "object" <==> v.Null? || v.Obj? || v.ErrorInstance?
  {
    match v
    case Undefined => "undefined"
    case Null => "object"
    case Bool(_) => "boolean"
    case Num(_) => "number"
    case Str(_) => "string"
    case Obj(_) => "object"
    case ErrorInstance(_) => "object"
  }

  /** The object has an own property named `key`. */
  predicate HasKey(props: seq<(string, JsValue)>, key: string)
  {
    exists i :: 0 <= i < |props| && props[i].0 == key
  }

  /** The value of the first own property named `key`, `undefined` if none. */
  function Lookup(props: seq<(string, JsValue)>, key: string): (v: JsValue)
    ensures !HasKey(props, key) ==> v == Undefined
    ensures HasKey(props, key) ==> exists i :: 0 <= i < |props| && props[i] == (key, v)
  {
    if |props| == 0 then Undefined
    else if props[0].0 == key then props[0].1
    else
      assert HasKey(props, key) ==> HasKey(props[1..], key) by {
        if HasKey(props, key) {
          var i :| 0 <= i < |props| && props[i].0 == key;
          assert props[1..][i - 1].0 == key;
        }
      }
      Lookup(props[1..], key)
  }

  /** The `in` operator on an object-like value: own keys of a plain object;
      an `Error` instance holds `message` and `stack`. Keys inherited from
      `Object.prototype` are not modelled. */
  predicate HasProperty(v: JsValue, key: string)
    requires TypeOf(v) == "object" && !v.Null?
  {
    match v
    case Obj(props) => HasKey(props, key)
    case ErrorInstance(_) => key == "message" || key == "stack"
  }

  /** `v[key]` for a value that is neither `null` nor `undefined`. */
  function GetProperty(v: JsValue, key: string): JsValue
    requires !IsNullish(v)
  {
    match v
    case Obj(props) => Lookup(props, key)
    case ErrorInstance(m) => if key == "message" then Str(m) else Undefined
    case _ => Undefined
  }

  function DigitChar(d: nat): (c: char)
    requires d < 10
    ensures '0' <= c <= '9'
  {
    ('0' as int + d) as char
  }

  /** Decimal rendering of a natural number. */
  function NatToString(n: nat): (r: string)
    ensures |r| >= 1
    ensures forall i :: 0 <= i < |r| ==> '0' <= r[i] <= '9'
    decreases n
  {
    if n < 10 then [DigitChar(n)] else NatToString(n / 10) + [DigitChar(n % 10)]
  }

  /** `String(n)` for an integer. */
  function IntToString(n: int): string
  {
    if n < 0 then "-" + NatToString(-n) else NatToString(n)
  }

  /** `String(v)`. Plain objects use the default `toString`. */
  function ToJsString(v: JsValue): string
  {
    match v
    case Undefined => "undefined"
    case Null => "null"
    case Bool(b) => if b then "true" else "false"
    case Num(n) => IntToString(n)
    case Str(s) => s
    case Obj(_) => "[object Object]"
    case ErrorInstance(m) => if m == "" then "Error" else "Error: " + m
  }

  /** `s || null` and `s || undefined` on an optional string: the string
      when it is truthy (non-empty), absent otherwise. */
  function KeepTruthy(s: Option<string>): (r: Option<string>)
    ensures r.Some? <==> s.Some? && s.value != ""
    ensures r.Some? ==> r == s
  {
    if s.Some? && s.value != "" then s else None
  }

  /** WhiteSpace and LineTerminator code points: the set removed by `trim`,
      skipped by `parseInt` and matched by `\s` in a regular expression. */
  predicate IsWhitespace(c: char)
  {
    var x := c as int;
    x == 9 || x == 10 || x == 11 || x == 12 || x == 13 || x == 32 || x == 0xA0
    || x == 0x1680 || (0x2000 <= x <= 0x200A) || x == 0x2028 || x == 0x2029
    || x == 0x202F || x == 0x205F || x == 0x3000 || x == 0xFEFF
  }

  /** Length of the run of whitespace that opens `s`. */
  function LeadingWs(s: string): (k: nat)
    ensures k <= |s|
    ensures forall i :: 0 <= i < k ==> IsWhitespace(s[i])
    ensures k < |s| ==> !IsWhitespace(s[k])
  {
    if |s| > 0 && IsWhitespace(s[0]) then 1 + LeadingWs(s[1..]) else 0
  }

  /** Start of the run of whitespace that closes `s`. */
  function TrailingWsStart(s: string): (k: nat)
    ensures k <= |s|
    ensures forall i :: k <= i < |s| ==> IsWhitespace(s[i])
    ensures 0 < k ==> !IsWhitespace(s[k - 1])
  {
    if |s| > 0 && IsWhitespace(s[|s| - 1]) then TrailingWsStart(s[..|s| - 1]) else |s|
  }

  /** `s.trimStart()` */
  function TrimStart(s: string): string
  {
    s[LeadingWs(s)..]
  }

  /** `s.trimEnd()` */
  function TrimEnd(s: string): string
  {
    s[..TrailingWsStart(s)]
  }

  /** `s.trim()` */
  function Trim(s: string): (r: string)
    ensures r == [] || (!IsWhitespace(r[0]) && !IsWhitespace(r[|r| - 1]))
    ensures exists a, b ::
              0 <= a <= b <= |s| && r == s[a..b]
              && (forall i :: 0 <= i < a ==> IsWhitespace(s[i]))
              && (forall i :: b <= i < |s| ==> IsWhitespace(s[i]))
  {
    var a := LeadingWs(s);
    var t := TrimStart(s);
    assert |t| > 0 ==> t[0] == s[a];
    var b := a + TrailingWsStart(t);
    assert forall i :: b <= i < |s| ==> s[i] == t[i - a];
    assert TrimEnd(t) == s[a..b];
    TrimEnd(t)
  }

  /** A string without whitespace at either end is its own trim. */
  lemma TrimOfTrimmed(s: string)
    requires s == [] || (!IsWhitespace(s[0]) && !IsWhitespace(s[|s| - 1]))
    ensures Trim(s) == s
  {
  }

  /** Value of a character as a digit, 36 when it is no digit at all. */
  function DigitValue(c: char): (d: nat)
    ensures d <= 36
  {
    if '0' <= c <= '9' then c as int - '0' as int
    else if 'a' <= c <= 'z' then c as int - 'a' as int + 10
    else if 'A' <= c <= 'Z' then c as int - 'A' as int + 10
    else 36
  }

  /** Length of the longest prefix of `s` made of digits of `radix`. */
  function DigitRun(s: string, radix: nat): (k: nat)
    ensures k <= |s|
    ensures forall i :: 0 <= i < k ==> DigitValue(s[i]) < radix
    ensures k < |s| ==> DigitValue(s[k]) >= radix
  {
    if |s| > 0 && DigitValue(s[0]) < radix then 1 + DigitRun(s[1..], radix) else 0
  }

  /** Positional value of a digit string, most significant digit first. */
  function DigitsValue(ds: string, radix: nat): nat
  {
    if |ds| == 0 then 0
    else DigitsValue(ds[..|ds| - 1], radix) * radix + (var d := DigitValue(ds[|ds| - 1]); if d < radix then d else 0)
  }

  /** The unsigned part of `parseInt`: a `0x`/`0X` prefix switches to base 16
      when no radix (or radix 16) is given; then the longest run of digits is
      read. `None` is NaN. */
  function ParseUnsigned(u: string, radix: nat): Option<nat>
    requires radix == 0 || 2 <= radix <= 36
  {
    var hex := (radix == 0 || radix == 16) && |u| >= 2 && u[0] == '0' && (u[1] == 'x' || u[1] == 'X');
    var base := if hex then 16 else if radix == 0 then 10 else radix;
    var w := if hex then u[2..] else u;
    var k := DigitRun(w, base);
    if k == 0 then None else Some(DigitsValue(w[..k], base))
  }

  /** `parseInt(s, radix)`; `radix` 0 stands for an absent radix and `None`
      for NaN. Leading whitespace is skipped and one sign is read. */
  function ParseInt(s: string, radix: nat): (r: Option<int>)
    requires radix == 0 || 2 <= radix <= 36
  {
    ParseSigned(TrimStart(s), radix)
  }

  /** The part of `parseInt` after the whitespace: an optional sign, then
      the digits. */
  function ParseSigned(t: string, radix: nat): (r: Option<int>)
    requires radix == 0 || 2 <= radix <= 36
  {
    if |t| > 0 && t[0] == '-' then
      match ParseUnsigned(t[1..], radix)
      case None => None
      case Some(m) => Some(-(m as int))
    else if |t| > 0 && t[0] == '+' then
      match ParseUnsigned(t[1..], radix)
      case None => None
      case Some(m) => Some(m)
    else
      match ParseUnsigned(t, radix)
      case None => None
      case Some(m) => Some(m)
  }

  lemma {:induction false} DigitRunOfDecimal(s: string)
    requires forall i :: 0 <= i < |s| ==> '0' <= s[i] <= '9'
    ensures DigitRun(s, 10) == |s|
  {
    if |s| > 0 {
      DigitRunOfDecimal(s[1..]);
    }
  }

  lemma {:induction false} DigitsValueOfNat(n: nat)
    ensures DigitsValue(NatToString(n), 10) == n
    decreases n
  {
    var r := NatToString(n);
    if n >= 10 {
      DigitsValueOfNat(n / 10);
      assert r[..|r| - 1] == NatToString(n / 10);
    }
  }

  /** Reading an unsigned run of decimal digits. */
  lemma ParseUnsignedOfDigits(digits: string, radix: nat)
    requires radix == 0 || radix == 10
    requires |digits| >= 1 && forall i :: 0 <= i < |digits| ==> '0' <= digits[i] <= '9'
    ensures ParseUnsigned(digits, radix) == Some(DigitsValue(digits, 10))
  {
    assert !(|digits| >= 2 && (digits[1] == 'x' || digits[1] == 'X'));
    DigitRunOfDecimal(digits);
    assert digits[..|digits|] == digits;
  }

  /** `parseInt(String(n), 10)` gives `n` back, and so does `parseInt(String(n))`. */
  lemma {:induction false} ParseIntOfIntToString(n: int, radix: nat)
    requires radix == 0 || radix == 10
    ensures ParseInt(IntToString(n), radix) == Some(n)
  {
    if n < 0 {
      NegativeText(n, radix);
    } else {
      NatText(n, radix);
    }
  }

  lemma NegativeText(n: int, radix: nat)
    requires radix == 0 || radix == 10
    requires n < 0
    ensures ParseInt(IntToString(n), radix) == Some(n)
  {
    var m: nat := -n;
    var text := IntToString(n);
    assert text == "-" + NatToString(m);
    ParseIntOfNegative(m, radix);
    assert ParseInt(text, radix) == Some(-(m as int));
  }

  lemma NatText(n: int, radix: nat)
    requires radix == 0 || radix == 10
    requires n >= 0
    ensures ParseInt(IntToString(n), radix) == Some(n)
  {
    ParseIntOfNat(n, radix);
  }

  lemma ParseIntOfNat(n: nat, radix: nat)
    requires radix == 0 || radix == 10
    ensures ParseInt(NatToString(n), radix) == Some(n)
  {
    var s := NatToString(n);
    DigitsValueOfNat(n);
    ParseUnsignedOfDigits(s, radix);
    NoLeadingWs(s);
    assert !(s[0] == '-' || s[0] == '+');
  }

  lemma ParseIntOfNegative(n: nat, radix: nat)
    requires radix == 0 || radix == 10
    requires n > 0
    ensures ParseInt("-" + NatToString(n), radix) == Some(-(n as int))
  {
    var digits := NatToString(n);
    DigitsValueOfNat(n);
    ParseUnsignedOfDigits(digits, radix);
    NoLeadingWs("-" + digits);
    MinusSign(digits, radix);
  }

  lemma MinusSign(digits: string, radix: nat)
    requires radix == 0 || 2 <= radix <= 36
    ensures ParseSigned("-" + digits, radix) ==
      match ParseUnsigned(digits, radix)
      case None => None
      case Some(m) => Some(-(m as int))
  {
    assert ("-" + digits)[1..] == digits;
  }

  /** Text opening with a character that is neither whitespace, a sign nor a
      decimal digit reads as NaN without a radix. */
  lemma ParseIntOfNonNumeric(s: string)
    requires |s| > 0 && !IsWhitespace(s[0]) && s[0] != '-' && s[0] != '+' && DigitValue(s[0]) >= 10
    ensures ParseInt(s, 0).None?
  {
    NoLeadingWs(s);
    assert DigitRun(s, 10) == 0;
  }

  lemma NoLeadingWs(s: string)
    requires |s| > 0 && !IsWhitespace(s[0])
    ensures TrimStart(s) == s
  {
    assert LeadingWs(s) == 0;
  }

  /** `Math.round(x)` on an exact real: the nearest integer, halves rounded
      up. */
  function MathRound(x: real): (r: int)
    ensures x - 0.5 < r as real <= x + 0.5
  {
    (x + 0.5).Floor
  }

  /** A code point above U+FFFF, which UTF-16 stores as a surrogate pair. */
  predicate IsAstral(c: char)
  {
    c as int > 0xFFFF
  }

  /** `s.length`: UTF-16 code units, two for a code point above U+FFFF. */
  function Utf16Length(s: string): (n: nat)
    ensures |s| <= n <= 2 * |s|
    ensures n == |s| + Count(s, IsAstral)
  {
    if |s| == 0 then 0 else (if s[0] as int > 0xFFFF then 2 else 1) + Utf16Length(s[1..])
  }
}
