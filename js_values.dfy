/** The JavaScript values that arrive as message payloads, and the implicit
    coercions the nodes rely on: string conversion (as a regular expression's
    `test` or a template literal performs it), numeric conversion (as `<=`,
    `>=` and `==` against a number perform it), `parseInt`, property access and
    object spread. Numbers are integers here. */
module JsValues {
  import opened Strings

  datatype JsValue =
    | Undefined
    | Null
    | Bool(b: bool)
    | Num(n: int)
    | Str(s: string)
    | Array(items: seq<JsValue>)
    | Object(fields: map<string, JsValue>)

  datatype Option<T> = None | Some(value: T)

  /** `Object.prototype.toString.call(v) === '[object Object]'`. */
  predicate IsPlainObject(v: JsValue)
  {
    v.Object?
  }

  /** `Object.prototype.hasOwnProperty.call(v, key)` for a plain object. */
  predicate HasOwn(v: JsValue, key: string)
  {
    v.Object? && key in v.fields
  }

  /** `String(v)`. Array elements that are null or undefined render as empty. */
  function ToJsString(v: JsValue): string
  {
    match v
    case Undefined => "undefined"
    case Null => "null"
    case Bool(b) => if b then "true" else "false"
    case Num(n) => IntToString(n)
    case Str(s) => s
    case Array(items) =>
      Join(seq(|items|, i requires 0 <= i < |items| =>
             if items[i].Null? || items[i].Undefined? then "" else ToJsString(items[i])), ",")
    case Object(_) => "[object Object]"
  }

  /** The characters `String.prototype.trim` removes (white space and line
      terminators of the ECMAScript grammar). */
  predicate IsJsSpace(c: char)
  {
    var k := c as int;
    k == 0x09 || k == 0x0A || k == 0x0B || k == 0x0C || k == 0x0D || k == 0x20 ||
    k == 0xA0 || k == 0x1680 || (0x2000 <= k <= 0x200A) || k == 0x2028 || k == 0x2029 ||
    k == 0x202F || k == 0x205F || k == 0x3000 || k == 0xFEFF
  }

  function TrimStart(s: string): (r: string)
    ensures |r| <= |s| && r == s[|s| - |r|..]
    ensures |r| > 0 ==> !IsJsSpace(r[0])
  {
    if |s| > 0 && IsJsSpace(s[0]) then TrimStart(s[1..]) else s
  }

  function TrimEnd(s: string): (r: string)
    ensures |r| <= |s| && r == s[..|r|]
    ensures |r| > 0 ==> !IsJsSpace(r[|r| - 1])
  {
    if |s| > 0 && IsJsSpace(s[|s| - 1]) then TrimEnd(s[..|s| - 1]) else s
  }

  function Trim(s: string): string
  {
    TrimEnd(TrimStart(s))
  }

  /** Value of a digit in the given radix (2, 8, 10 or 16), if it is one. */
  function RadixDigit(c: char, radix: nat): Option<nat>
  {
    var d :=
      if '0' <= c <= '9' then c as int - '0' as int
      else if 'a' <= c <= 'z' then c as int - 'a' as int + 10
      else if 'A' <= c <= 'Z' then c as int - 'A' as int + 10
      else 99;
    if d < radix then Some(d) else None
  }

  predicate AllRadixDigits(s: string, radix: nat)
  {
    forall i :: 0 <= i < |s| ==> RadixDigit(s[i], radix).Some?
  }

  function RadixValue(s: string, radix: nat): nat
  {
    if |s| == 0 then 0
    else
      RadixValue(s[..|s| - 1], radix) * radix +
      (match RadixDigit(s[|s| - 1], radix) case Some(d) => d case None => 0)
  }

  /** Length of the longest prefix of `s` made of digits of `radix`. */
  function DigitPrefixLength(s: string, radix: nat): (k: nat)
    ensures k <= |s| && AllRadixDigits(s[..k], radix)
    ensures k < |s| ==> RadixDigit(s[k], radix).None?
  {
    if |s| > 0 && RadixDigit(s[0], radix).Some? then
      var k := 1 + DigitPrefixLength(s[1..], radix);
      assert forall i :: 1 <= i < k ==> s[..k][i] == s[1..][..k - 1][i - 1];
      k
    else 0
  }

  /** `Number(s)` for a string: surrounding white space is ignored, the empty
      string is 0, a signed decimal integer or a `0x`/`0o`/`0b` literal gives its
      value. Every other string (fractions, exponents, `Infinity`) is NaN here. */
  function StringToNumber(s: string): Option<int>
  {
    NumericLiteral(Trim(s))
  }

  /** The value of a trimmed numeric string. */
  function NumericLiteral(t: string): Option<int>
  {
    if |t| == 0 then Some(0)
    else if |t| > 2 && t[0] == '0' && (t[1] == 'x' || t[1] == 'X' || t[1] == 'o' || t[1] == 'O' || t[1] == 'b' || t[1] == 'B') then
      var radix := if t[1] == 'x' || t[1] == 'X' then 16 else if t[1] == 'o' || t[1] == 'O' then 8 else 2;
      if AllRadixDigits(t[2..], radix) then Some(RadixValue(t[2..], radix)) else None
    else if t[0] == '-' then
      match UnsignedDecimal(t[1..]) case Some(m) => Some(0 - m) case None => None
    else if t[0] == '+' then
      match UnsignedDecimal(t[1..]) case Some(m) => Some(m) case None => None
    else
      match UnsignedDecimal(t) case Some(m) => Some(m) case None => None
  }

  /** A non-empty run of decimal digits. */
  function UnsignedDecimal(body: string): Option<nat>
  {
    if |body| > 0 && AllRadixDigits(body, 10) then Some(RadixValue(body, 10)) else None
  }

  /** `Number(v)`: None stands for NaN. */
  function ToNumber(v: JsValue): Option<int>
  {
    match v
    case Undefined => None
    case Null => Some(0)
    case Bool(b) => Some(if b then 1 else 0)
    case Num(n) => Some(n)
    case Str(s) => StringToNumber(s)
    case Array(_) => StringToNumber(ToJsString(v))
    case Object(_) => None
  }

  /** `v >= lo && v <= hi` with JavaScript's numeric comparison: NaN compares false. */
  predicate NumberWithin(v: JsValue, lo: int, hi: int)
  {
    match ToNumber(v)
    case Some(n) => lo <= n <= hi
    case None => false
  }

  /** `v == b` (loose equality against a boolean). */
  predicate LooseEqualsBool(v: JsValue, b: bool)
  {
    !v.Null? && !v.Undefined? && ToNumber(v) == Some(if b then 1 else 0)
  }

  /** `parseInt(s)` with no radix: leading white space, an optional sign, an
      optional `0x`, then the longest run of digits; None stands for NaN. */
  function ParseInt(s: string): (r: Option<int>)
  {
    var t := TrimStart(s);
    if |t| > 0 && (t[0] == '-' || t[0] == '+') then
      match ParseUnsigned(t[1..])
      case Some(m) => Some(if t[0] == '-' then 0 - m else m as int)
      case None => None
    else
      match ParseUnsigned(t)
      case Some(m) => Some(m)
      case None => None
  }

  /** The digits part of `parseInt`: an optional `0x` selects radix 16. */
  function ParseUnsigned(u: string): Option<nat>
  {
    var hex := |u| >= 2 && u[0] == '0' && (u[1] == 'x' || u[1] == 'X');
    var radix := if hex then 16 else 10;
    var w := if hex then u[2..] else u;
    var k := DigitPrefixLength(w, radix);
    if k == 0 then None else Some(RadixValue(w[..k], radix))
  }

  /** `Number(s)` reads a decimal rendering back as the number. */
  lemma StringToNumberOfNat(n: nat)
    ensures StringToNumber(NatToString(n)) == Some(n)
  {
    var s := NatToString(n);
    assert TrimStart(s) == s by {
      assert !IsJsSpace(s[0]);
    }
    assert TrimEnd(s) == s by {
      assert !IsJsSpace(s[|s| - 1]);
    }
    assert AllRadixDigits(s, 10) by {
      forall i | 0 <= i < |s| ensures RadixDigit(s[i], 10).Some? {
        assert '0' <= s[i] <= '9';
      }
    }
    assert Trim(s) == s;
    NumericLiteralUnsigned(s);
    RadixValueDecimal(s);
    DigitsValueOfNatToString(n);
  }

  lemma NumericLiteralUnsigned(t: string)
    requires |t| > 0 && AllRadixDigits(t, 10)
    requires '0' <= t[0] <= '9' && !(|t| > 2 && t[0] == '0')
    ensures NumericLiteral(t) == Some(RadixValue(t, 10))
  {
    assert UnsignedDecimal(t) == Some(RadixValue(t, 10));
  }

  /** A string that starts with a letter and does not end in white space is
      not a number: `Number(s)` is NaN. */
  lemma WordIsNaN(s: string)
    requires |s| > 0 && 'a' <= s[0] <= 'z' && !IsJsSpace(s[|s| - 1])
    ensures StringToNumber(s) == None
  {
    assert !IsJsSpace(s[0]);
    assert TrimStart(s) == s;
    assert TrimEnd(s) == s;
    assert RadixDigit(s[0], 10).None?;
  }

  /** A plain decimal number is read back by `parseInt`. */
  lemma ParseIntOfNat(n: nat)
    ensures ParseInt(NatToString(n)) == Some(n)
  {
    var s := NatToString(n);
    assert TrimStart(s) == s by {
      assert !IsJsSpace(s[0]);
    }
    ParseUnsignedOfNat(n);
  }

  lemma ParseUnsignedOfNat(n: nat)
    ensures ParseUnsigned(NatToString(n)) == Some(n)
  {
    var s := NatToString(n);
    assert !(|s| >= 2 && s[0] == '0');
    assert AllRadixDigits(s, 10) by {
      forall i | 0 <= i < |s| ensures RadixDigit(s[i], 10).Some? {
        assert '0' <= s[i] <= '9';
      }
    }
    PrefixLengthAll(s, 10);
    assert s[..|s|] == s;
    RadixValueDecimal(s);
    DigitsValueOfNatToString(n);
  }

  lemma {:induction false} PrefixLengthAll(s: string, radix: nat)
    requires AllRadixDigits(s, radix)
    ensures DigitPrefixLength(s, radix) == |s|
  {
    if |s| > 0 {
      assert AllRadixDigits(s[1..], radix) by {
        assert forall i :: 0 <= i < |s| - 1 ==> s[1..][i] == s[i + 1];
      }
      PrefixLengthAll(s[1..], radix);
    }
  }

  lemma {:induction false} RadixValueDecimal(s: string)
    requires AllDigits(s)
    ensures RadixValue(s, 10) == DigitsValue(s)
  {
    if |s| > 0 {
      RadixValueDecimal(s[..|s| - 1]);
    }
  }

  /** Reading `v.key`: None stands for the TypeError thrown on null and
      undefined; a missing key, and any named field of a primitive or an array
      other than its length and indices, reads as undefined. */
  function Prop(v: JsValue, key: string): Option<JsValue>
  {
    match v
    case Null => None
    case Undefined => None
    case Object(m) => Some(if key in m then m[key] else Undefined)
    case _ => Some(Undefined)
  }

  /** The own enumerable properties that `{...v}` copies: an object's fields,
      the indexed characters of a string, the indexed items of an array, and
      nothing for any other value (null and undefined included). */
  function Spread(v: JsValue): map<string, JsValue>
  {
    match v
    case Object(m) => m
    case Str(s) => Indexed(seq(|s|, i requires 0 <= i < |s| => Str([s[i]])))
    case Array(items) => Indexed(items)
    case _ => map[]
  }

  /** `{ "0": xs[0], "1": xs[1], ... }`. */
  function Indexed(xs: seq<JsValue>): (r: map<string, JsValue>)
    ensures forall i :: 0 <= i < |xs| ==> NatToString(i) in r && r[NatToString(i)] == xs[i]
  {
    if |xs| == 0 then map[]
    else
      var k := NatToString(|xs| - 1);
      var r0 := Indexed(xs[..|xs| - 1]);
      assert forall i :: 0 <= i < |xs| - 1 ==> NatToString(i) != k by {
        forall i | 0 <= i < |xs| - 1 ensures NatToString(i) != k {
          if NatToString(i) == k { NatToStringInjective(i, |xs| - 1); }
        }
      }
      r0[k := xs[|xs| - 1]]
  }
}
