/** JavaScript's conversions from text to integers: `parseInt(s)` and `Number(s)`, for
    decimal and hexadecimal text. `None` stands for NaN. */
module Numbers {
  import opened Js
  import opened Text

  predicate IsDigit(c: char) { '0' <= c <= '9' }

  /** The longest prefix of decimal digits. */
  function DigitPrefix(s: string): (r: string)
    ensures |r| <= |s| && r == s[..|r|]
    ensures forall i :: 0 <= i < |r| ==> IsDigit(r[i])
    ensures |r| < |s| ==> !IsDigit(s[|r|])
  {
    if s != [] && IsDigit(s[0]) then [s[0]] + DigitPrefix(s[1..]) else []
  }

  /** The value of a string of decimal digits. */
  function DecimalValue(digits: string): (n: nat)
    requires forall i :: 0 <= i < |digits| ==> IsDigit(digits[i])
  {
    if digits == [] then 0
    else
      var last := digits[|digits| - 1];
      assert IsDigit(last);
      10 * DecimalValue(digits[..|digits| - 1]) + (last - '0') as nat
  }

  predicate IsHexDigit(c: char) { IsDigit(c) || 'a' <= c <= 'f' || 'A' <= c <= 'F' }

  /** The longest prefix of hexadecimal digits. */
  function HexPrefix(s: string): (r: string)
    ensures |r| <= |s| && r == s[..|r|]
    ensures forall i :: 0 <= i < |r| ==> IsHexDigit(r[i])
    ensures |r| < |s| ==> !IsHexDigit(s[|r|])
  {
    if s != [] && IsHexDigit(s[0]) then [s[0]] + HexPrefix(s[1..]) else []
  }

  function HexDigitValue(c: char): (n: nat)
    requires IsHexDigit(c)
    ensures n < 16
  {
    if IsDigit(c) then (c - '0') as nat
    else if 'a' <= c <= 'f' then (c - 'a') as nat + 10
    else (c - 'A') as nat + 10
  }

  /** The value of a string of hexadecimal digits. */
  function HexValue(digits: string): nat
    requires forall i :: 0 <= i < |digits| ==> IsHexDigit(digits[i])
  {
    if digits == [] then 0
    else 16 * HexValue(digits[..|digits| - 1]) + HexDigitValue(digits[|digits| - 1])
  }

  /** The text starts with "0x" or "0X", which makes `parseInt` without a radix, and
      `Number`, read hexadecimal digits. */
  predicate HexMarked(u: string) {
    |u| >= 2 && u[0] == '0' && (u[1] == 'x' || u[1] == 'X')
  }

  /** The digits `parseInt` reads after the sign: hexadecimal ones after "0x"/"0X",
      decimal ones otherwise. */
  function IntDigits(u: string): string {
    if HexMarked(u) then HexPrefix(u[2..]) else DigitPrefix(u)
  }

  /** `parseInt(s)` without a radix: leading whitespace, an optional sign, then as many
      digits as there are, hexadecimal after "0x" or "0X" and decimal otherwise; `None`
      (NaN) when there are none. */
  function ParseInt(s: string): (r: Option<int>)
    ensures r.None? <==> IntDigits(Unsigned(TrimStart(s))) == []
    ensures !HexMarked(Unsigned(TrimStart(s))) && r.Some? ==>
      var digits := DigitPrefix(Unsigned(TrimStart(s)));
      r.value == if TrimStart(s)[0] == '-' then -(DecimalValue(digits) as int) else DecimalValue(digits)
    ensures HexMarked(Unsigned(TrimStart(s))) && r.Some? ==>
      var digits := HexPrefix(Unsigned(TrimStart(s))[2..]);
      r.value == if TrimStart(s)[0] == '-' then -(HexValue(digits) as int) else HexValue(digits)
  {
    var t := TrimStart(s);
    var u := Unsigned(t);
    if HexMarked(u) then
      var digits := HexPrefix(u[2..]);
      if digits == [] then None
      else
        var v: int := HexValue(digits);
        if t[0] == '-' then Some(-v) else Some(v)
    else
      var digits := DigitPrefix(u);
      if digits == [] then None
      else
        var v: int := DecimalValue(digits);
        if t[0] == '-' then Some(-v) else Some(v)
  }

  /** "0x" followed by hexadecimal digits parses to their value, and "0x" alone is NaN. */
  lemma ParseHex(digits: string)
    requires forall i :: 0 <= i < |digits| ==> IsHexDigit(digits[i])
    ensures digits != [] ==> ParseInt("0x" + digits) == Some(HexValue(digits))
    ensures digits == [] ==> ParseInt("0x" + digits) == None
  {
    var s := "0x" + digits;
    assert !IsSpace(s[0]);
    assert TrimStart(s) == s && Unsigned(s) == s;
    assert s[2..] == digits;
    HexPrefixAll(digits);
  }

  lemma {:induction false} HexPrefixAll(s: string)
    requires forall i :: 0 <= i < |s| ==> IsHexDigit(s[i])
    ensures HexPrefix(s) == s
  {
    if s != [] {
      HexPrefixAll(s[1..]);
    }
  }

  /** `t` without a leading sign. */
  function Unsigned(t: string): string {
    if t != [] && (t[0] == '-' || t[0] == '+') then t[1..] else t
  }

  /** A plain decimal numeral reads as its value. */
  lemma ParseNumeral(n: nat)
    ensures ParseInt(NatText(n)) == Some(n)
  {
    NatTextDigits(n);
    var s := NatText(n);
    assert !IsSpace(s[0]);
    assert TrimStart(s) == s;
    assert Unsigned(s) == s;
    assert !HexMarked(s) by {
      if |s| >= 2 {
        assert IsDigit(s[1]);
      }
    }
    DigitPrefixAll(s);
  }

  lemma {:induction false} NatTextDigits(n: nat)
    ensures forall i :: 0 <= i < |NatText(n)| ==> IsDigit(NatText(n)[i])
    ensures DecimalValue(NatText(n)) == n
    decreases n
  {
    var c := '0' + (n % 10) as char;
    assert (c - '0') as nat == n % 10;
    if n >= 10 {
      NatTextDigits(n / 10);
      assert NatText(n) == NatText(n / 10) + [c];
      assert NatText(n)[..|NatText(n)| - 1] == NatText(n / 10);
    } else {
      assert NatText(n) == [c];
      assert NatText(n)[..0] == [];
    }
  }

  lemma {:induction false} DigitPrefixAll(s: string)
    requires forall i :: 0 <= i < |s| ==> IsDigit(s[i])
    ensures DigitPrefix(s) == s
  {
    if s != [] {
      DigitPrefixAll(s[1..]);
    }
  }

  predicate AllDigits(s: string) {
    forall i :: 0 <= i < |s| ==> IsDigit(s[i])
  }

  predicate AllHexDigits(s: string) {
    forall i :: 0 <= i < |s| ==> IsHexDigit(s[i])
  }

  /** Trimmed text that `Number` reads as hexadecimal: "0x" or "0X", no sign, and at least
      one hexadecimal digit, nothing else. */
  predicate HexNumeral(t: string) {
    HexMarked(t) && |t| > 2 && AllHexDigits(t[2..])
  }

  /** Trimmed text that `Number` reads as a decimal integer: an optional sign and at least
      one digit, nothing else. */
  predicate DecimalNumeral(t: string) {
    Unsigned(t) != [] && AllDigits(Unsigned(t))
  }

  /** `Number(s)` for text that is a whole number once trimmed: blank text is 0, an
      unsigned hexadecimal numeral or an optionally signed decimal one is its value, and
      anything else is NaN. */
  function NumberOf(s: string): (r: Option<int>)
    ensures Trim(s) == [] ==> r == Some(0)
    ensures r.None? <==> Trim(s) != [] && !HexNumeral(Trim(s)) && !DecimalNumeral(Trim(s))
    ensures HexNumeral(Trim(s)) ==> r == Some(HexValue(Trim(s)[2..]))
    ensures DecimalNumeral(Trim(s)) ==>
      r == Some(if Trim(s)[0] == '-' then -(DecimalValue(Unsigned(Trim(s))) as int) else DecimalValue(Unsigned(Trim(s))))
  {
    var t := Trim(s);
    var u := Unsigned(t);
    if t == [] then Some(0)
    else if HexNumeral(t) then Some(HexValue(t[2..]))
    else if u != [] && AllDigits(u) then
      var v: int := DecimalValue(u);
      if t[0] == '-' then Some(-v) else Some(v)
    else None
  }

  /** A decimal numeral, surrounded by any white space, converts to its value. */
  lemma NumberOfNumeral(n: nat)
    ensures NumberOf(NatText(n)) == Some(n)
  {
    NatTextDigits(n);
    var s := NatText(n);
    DigitsHaveNoSpace(s);
    TrimNoSpace(s);
    assert Unsigned(s) == s;
  }

  lemma DigitsHaveNoSpace(s: string)
    requires AllDigits(s)
    ensures NoSpace(s)
  {
    forall i | 0 <= i < |s| ensures !IsSpace(s[i]) {
      assert IsDigit(s[i]);
    }
  }
}
