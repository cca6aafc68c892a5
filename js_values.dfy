/** JavaScript value semantics the components rely on: the whitespace that
    `String.prototype.trim` removes, the conversion of a string to a number done
    by unary `+` and `Number(...)`, IEEE comparisons against NaN, and the
    truthiness and `Number(...)` of values read from a JSON reply body. */
module JsValues {
  import opened Text
  import opened Wrappers

  /** WhiteSpace and LineTerminator code points of the ECMAScript grammar. */
  predicate IsJsWhitespace(c: char)
  {
    var n := c as int;
    (0x09 <= n <= 0x0D) || n == 0x20 || n == 0xA0 || n == 0x1680 || (0x2000 <= n <= 0x200A)
    || n == 0x2028 || n == 0x2029 || n == 0x202F || n == 0x205F || n == 0x3000 || n == 0xFEFF
  }

  predicate AllWhitespace(s: string) { forall i :: 0 <= i < |s| ==> IsJsWhitespace(s[i]) }

  function TrimStart(s: string): (r: string)
    ensures |r| <= |s| && r == s[|s| - |r|..]
    ensures r != [] ==> !IsJsWhitespace(r[0])
    ensures AllWhitespace(s[..|s| - |r|])
  {
    if s != [] && IsJsWhitespace(s[0]) then TrimStart(s[1..]) else s
  }

  function TrimEnd(s: string): (r: string)
    ensures |r| <= |s| && r == s[..|r|]
    ensures r != [] ==> !IsJsWhitespace(r[|r| - 1])
    ensures AllWhitespace(s[|r|..])
  {
    if s != [] && IsJsWhitespace(s[|s| - 1]) then TrimEnd(s[..|s| - 1]) else s
  }

  /** `String.prototype.trim`. */
  function Trim(s: string): (r: string)
  {
    TrimEnd(TrimStart(s))
  }

  /** Trimming leaves the empty string exactly when every character is whitespace:
      this is the "blank field" test of the prediction form. */
  lemma TrimEmptyIff(s: string)
    ensures Trim(s) == [] <==> AllWhitespace(s)
  {
    var a := TrimStart(s);
    if Trim(s) == [] {
      assert a[0..] == a;
      assert a == [];
      assert s[..|s|] == s;
    }
  }

  /** An IEEE double as far as comparisons go; finite values are exact reals. */
  datatype Number = NaN | Finite(value: real) | PosInfinity | NegInfinity

  /** `n <= r` for a finite bound `r`; false whenever `n` is NaN. */
  predicate AtMost(n: Number, r: real)
  {
    (n.Finite? && n.value <= r) || n.NegInfinity?
  }

  /** `n < r`. */
  predicate Below(n: Number, r: real)
  {
    (n.Finite? && n.value < r) || n.NegInfinity?
  }

  /** `n > r`. */
  predicate Above(n: Number, r: real)
  {
    (n.Finite? && n.value > r) || n.PosInfinity?
  }

  /** `n === r`. */
  predicate StrictEquals(n: Number, r: real)
  {
    n.Finite? && n.value == r
  }

  function Negate(n: Number): Number
  {
    match n
    case NaN => NaN
    case Finite(v) => Finite(-v)
    case PosInfinity => NegInfinity
    case NegInfinity => PosInfinity
  }

  /** The value of one digit in the given radix (2, 8 or 16), if it is one. */
  function RadixDigit(c: char, radix: nat): Option<nat>
  {
    if '0' <= c <= '9' && (c as int - '0' as int) < radix then Some(c as int - '0' as int)
    else if radix == 16 && 'a' <= c <= 'f' then Some(c as int - 'a' as int + 10)
    else if radix == 16 && 'A' <= c <= 'F' then Some(c as int - 'A' as int + 10)
    else None
  }

  predicate AllRadixDigits(d: string, radix: nat)
  {
    forall i :: 0 <= i < |d| ==> RadixDigit(d[i], radix).Some?
  }

  function RadixValue(d: string, radix: nat): nat
    requires AllRadixDigits(d, radix)
  {
    if d == [] then 0 else RadixValue(d[..|d| - 1], radix) * radix + RadixDigit(d[|d| - 1], radix).value
  }

  /** The digits after a 0x, 0o or 0b prefix. */
  function RadixLiteral(d: string, radix: nat): Number
  {
    if d != [] && AllRadixDigits(d, radix) then Finite(RadixValue(d, radix) as real) else NaN
  }

  /** Index of the first exponent marker `e` or `E`, or |u| when there is none. */
  function IndexOfExponent(u: string): (k: nat)
    ensures k <= |u|
    ensures k < |u| ==> u[k] == 'e' || u[k] == 'E'
    ensures forall i :: 0 <= i < k ==> u[i] != 'e' && u[i] != 'E'
  {
    if u == [] then 0 else if u[0] == 'e' || u[0] == 'E' then 0 else 1 + IndexOfExponent(u[1..])
  }

  /** `DecimalDigits`, `DecimalDigits . DecimalDigits?` or `. DecimalDigits`. */
  function MantissaValue(m: string): Option<real>
  {
    var d := IndexOf(m, '.');
    if d == |m| then
      if m != [] && AllDigits(m) then Some(DigitsValue(m) as real) else None
    else
      var whole, fraction := m[..d], m[d + 1..];
      if AllDigits(whole) && AllDigits(fraction) && (whole != [] || fraction != []) then
        Some(DigitsValue(whole) as real + FractionValue(fraction))
      else None
  }

  /** The digits after `e`/`E`, with an optional sign. */
  function ExponentValue(x: string): Option<int>
  {
    if x != [] && (x[0] == '+' || x[0] == '-') then
      var digits := x[1..];
      if digits != [] && AllDigits(digits) then
        var v: int := DigitsValue(digits);
        Some(if x[0] == '-' then -v else v)
      else None
    else if x != [] && AllDigits(x) then Some(DigitsValue(x))
    else None
  }

  /** The value of the digits after a decimal point: "25" is 0.25. */
  function FractionValue(d: string): real
    requires AllDigits(d)
  {
    if d == [] then 0.0 else (DigitValue(d[0]) as real + FractionValue(d[1..])) / 10.0
  }

  /** m times ten to the power e. */
  function Scale(m: real, e: int): real
    decreases if e >= 0 then e else -e
  {
    if e == 0 then m else if e > 0 then Scale(m, e - 1) * 10.0 else Scale(m, e + 1) / 10.0
  }

  /** `StrUnsignedDecimalLiteral` without its sign. */
  function UnsignedDecimal(u: string): Number
  {
    if u == "Infinity" then PosInfinity
    else
      var k := IndexOfExponent(u);
      var mantissa := MantissaValue(u[..k]);
      var exponent := if k == |u| then Some(0) else ExponentValue(u[k + 1..]);
      if mantissa.Some? && exponent.Some? then Finite(Scale(mantissa.value, exponent.value)) else NaN
  }

  /** `StringToNumber` of the ECMAScript specification: the conversion done by unary `+`
      and by `Number(s)`. A blank string is 0; anything that is not a numeric literal
      after trimming is NaN. */
  function StringToNumber(s: string): Number
  {
    NumericLiteral(Trim(s))
  }

  /** `StringNumericLiteral` of a trimmed string. */
  function NumericLiteral(t: string): Number
  {
    if t == [] then Finite(0.0)
    else if HasRadixPrefix(t) then RadixLiteral(t[2..], PrefixRadix(t[1]))
    else if t[0] == '-' then Negate(UnsignedDecimal(t[1..]))
    else if t[0] == '+' then UnsignedDecimal(t[1..])
    else UnsignedDecimal(t)
  }

  /** `0x`, `0o` or `0b` (either case) followed by at least one more character. */
  predicate HasRadixPrefix(t: string)
  {
    |t| > 2 && t[0] == '0' && t[1] in "xXoObB"
  }

  function PrefixRadix(c: char): nat
  {
    if c == 'x' || c == 'X' then 16 else if c == 'o' || c == 'O' then 8 else 2
  }

  lemma TrimDigits(s: string)
    requires AllDigits(s)
    ensures Trim(s) == s
  {
    if s != [] {
      assert !IsJsWhitespace(s[0]) by { assert IsDigit(s[0]); }
      assert TrimStart(s) == s;
      assert !IsJsWhitespace(s[|s| - 1]) by { assert IsDigit(s[|s| - 1]); }
      assert TrimEnd(s) == s;
    }
  }

  lemma UnsignedDecimalOfDigits(s: string)
    requires s != [] && AllDigits(s)
    ensures UnsignedDecimal(s) == Finite(DigitsValue(s) as real)
  {
    assert s != "Infinity" by { assert IsDigit(s[0]); }
    var k := IndexOfExponent(s);
    assert s[..k] == s;
    var d := IndexOf(s, '.');
  }

  /** A non-empty string of decimal digits reads as the number it denotes. */
  lemma ParseDigits(s: string)
    requires s != [] && AllDigits(s)
    ensures StringToNumber(s) == Finite(DigitsValue(s) as real)
  {
    TrimDigits(s);
    UnsignedDecimalOfDigits(s);
    assert IsDigit(s[0]);
    assert !HasRadixPrefix(s) by {
      if |s| > 2 { assert IsDigit(s[1]); }
    }
  }

  /** The decimal numeral of n reads back as n. */
  lemma ParseShowNat(n: nat)
    ensures StringToNumber(ShowNat(n)) == Finite(n as real)
  {
    ParseDigits(ShowNat(n));
    ShowNatRoundTrip(n);
  }

  /** The characters a numeric literal can be written with. */
  predicate NumericChar(c: char)
  {
    IsDigit(c) || c == '.' || c == '+' || c == '-' || ('a' <= c <= 'f') || ('A' <= c <= 'F')
    || c == 'x' || c == 'X' || c == 'o' || c == 'O' || c == 'I' || c == 'n' || c == 'i' || c == 't' || c == 'y'
  }

  predicate AllNumericChars(s: string) { forall i :: 0 <= i < |s| ==> NumericChar(s[i]) }

  lemma DecimalChars(u: string)
    requires UnsignedDecimal(u) != NaN
    ensures AllNumericChars(u)
  {
    if u != "Infinity" {
      var k := IndexOfExponent(u);
      var m := u[..k];
      var d := IndexOf(m, '.');
      forall i | 0 <= i < |u| ensures NumericChar(u[i]) {
        if i < k {
          assert u[i] == m[i];
          if d < |m| {
            if i < d { assert m[i] == m[..d][i]; }
            else if i > d { assert m[i] == m[d + 1..][i - d - 1]; }
          }
        } else if i > k {
          var x := u[k + 1..];
          assert u[i] == x[i - k - 1];
          if x[0] == '+' || x[0] == '-' {
            if i - k - 1 > 0 { assert x[i - k - 1] == x[1..][i - k - 2]; }
          }
        }
      }
    }
  }

  lemma RadixChars(d: string, radix: nat)
    requires RadixLiteral(d, radix) != NaN
    ensures AllNumericChars(d)
  {
    forall i | 0 <= i < |d| ensures NumericChar(d[i]) {
      assert RadixDigit(d[i], radix).Some?;
    }
  }

  /** Whatever unary `+` does not turn into NaN is written only with numeric-literal
      characters after trimming; so an entry holding any other character (a comma,
      an inner space, a letter such as `g` or `z`) reads as NaN. */
  lemma NonNaNIsNumericText(s: string)
    requires StringToNumber(s) != NaN
    ensures AllNumericChars(Trim(s))
  {
    var t := Trim(s);
    if t != [] {
      if HasRadixPrefix(t) {
        RadixChars(t[2..], PrefixRadix(t[1]));
        forall i | 2 <= i < |t| ensures NumericChar(t[i]) { assert t[i] == t[2..][i - 2]; }
      } else if t[0] == '-' || t[0] == '+' {
        DecimalChars(t[1..]);
        forall i | 1 <= i < |t| ensures NumericChar(t[i]) { assert t[i] == t[1..][i - 1]; }
      } else {
        DecimalChars(t);
      }
    }
  }

  /** A scalar read from a parsed JSON reply body; arrays are not modelled. */
  datatype Json = JNull | JBool(b: bool) | JNumber(n: real) | JString(s: string) | JObject

  /** Truthiness of a property read from a reply body (`None` is `undefined`). */
  predicate Truthy(v: Option<Json>)
  {
    match v
    case None => false
    case Some(JNull) => false
    case Some(JBool(b)) => b
    case Some(JNumber(n)) => n != 0.0
    case Some(JString(s)) => s != []
    case Some(JObject) => true
  }

  /** `Number(v)` of a property read from a reply body. */
  function JsonToNumber(v: Option<Json>): Number
  {
    match v
    case None => NaN
    case Some(JNull) => Finite(0.0)
    case Some(JBool(b)) => Finite(if b then 1.0 else 0.0)
    case Some(JNumber(n)) => Finite(n)
    case Some(JString(s)) => StringToNumber(s)
    case Some(JObject) => NaN
  }
}
