/** JavaScript's conversions from text to numbers, as the deployment script
    applies them to the recovery value `v` of a device signature:
    `Number(v)`, `parseInt(v, 16)` and the remainder operator `%`. */
module Numerals {
  import opened Text

  /** A JavaScript number, restricted to integers, or NaN. */
  datatype JsNum = Num(value: int) | NaN

  predicate IsDecimalDigit(c: char)
  {
    '0' <= c <= '9'
  }

  predicate IsHexDigit(c: char)
  {
    IsDecimalDigit(c) || 'a' <= c <= 'f' || 'A' <= c <= 'F'
  }

  function HexDigitValue(c: char): (d: nat)
    requires IsHexDigit(c)
    ensures d < 16
    ensures IsDecimalDigit(c) <==> d < 10
  {
    if IsDecimalDigit(c) then c as int - '0' as int
    else if 'a' <= c <= 'f' then c as int - 'a' as int + 10
    else c as int - 'A' as int + 10
  }

  /** Reading a printed digit gives the digit back. */
  lemma DigitCharValue(d: nat)
    requires d < 16
    ensures IsHexDigit(DigitChar(d)) && HexDigitValue(DigitChar(d)) == d
  {
  }

  predicate AllDecimal(s: string)
  {
    forall i :: 0 <= i < |s| ==> IsDecimalDigit(s[i])
  }

  predicate AllHex(s: string)
  {
    forall i :: 0 <= i < |s| ==> IsHexDigit(s[i])
  }

  /** The value of a string of decimal digits (the empty string reads as 0). */
  function DecimalValue(s: string): nat
    requires AllDecimal(s)
    decreases |s|
  {
    if s == "" then 0 else DecimalValue(s[..|s| - 1]) * 10 + HexDigitValue(s[|s| - 1])
  }

  /** The value of a string of hexadecimal digits of either case (the empty string reads as 0). */
  function HexValue(s: string): nat
    requires AllHex(s)
    decreases |s|
  {
    if s == "" then 0 else HexValue(s[..|s| - 1]) * 16 + HexDigitValue(s[|s| - 1])
  }

  /** Printing a natural number in decimal and reading it back gives the number. */
  lemma {:induction false} DecimalRoundTrip(n: nat)
    ensures AllDecimal(NatToString(n)) && DecimalValue(NatToString(n)) == n
  {
    var t := NatToString(n);
    if n < 10 {
      DigitCharValue(n);
      assert t[..|t| - 1] == "";
    } else {
      DecimalRoundTrip(n / 10);
      DigitCharValue(n % 10);
      assert t[..|t| - 1] == NatToString(n / 10);
    }
  }

  /** Printing a natural number in hexadecimal and reading it back gives the number. */
  lemma {:induction false} HexRoundTrip(n: nat)
    ensures AllHex(NatToHex(n)) && HexValue(NatToHex(n)) == n
  {
    var t := NatToHex(n);
    if n < 16 {
      DigitCharValue(n);
      assert t[..|t| - 1] == "";
    } else {
      HexRoundTrip(n / 16);
      DigitCharValue(n % 16);
      assert t[..|t| - 1] == NatToHex(n / 16);
    }
  }

  /** Leading zeros do not change the value of a hexadecimal numeral. */
  lemma {:induction false} HexLeadingZeros(k: nat, x: string)
    requires AllHex(x)
    ensures AllHex(Repeat('0', k) + x)
    ensures HexValue(Repeat('0', k) + x) == HexValue(x)
    decreases |x|
  {
    var z := Repeat('0', k) + x;
    if x == "" {
      assert z == Repeat('0', k);
      HexZeros(k);
    } else {
      var init := x[..|x| - 1];
      assert z[..|z| - 1] == Repeat('0', k) + init;
      HexLeadingZeros(k, init);
    }
  }

  /** A string of zeros reads as zero. */
  lemma {:induction false} HexZeros(k: nat)
    ensures AllHex(Repeat('0', k)) && HexValue(Repeat('0', k)) == 0
  {
    if k > 0 {
      assert Repeat('0', k)[..k - 1] == Repeat('0', k - 1);
      HexZeros(k - 1);
    }
  }

  /** `s` begins with the hexadecimal prefix "0x" or "0X". */
  predicate HasHexPrefix(s: string)
  {
    |s| >= 2 && s[0] == '0' && (s[1] == 'x' || s[1] == 'X')
  }

  /** `Number(s)` for a string: the empty string is 0, a "0x"/"0X" prefix
      followed by hexadecimal digits is read in base 16, a string of decimal
      digits in base 10, and anything else is NaN. */
  function NumberOfString(s: string): (r: JsNum)
    ensures r.Num? ==> r.value >= 0
    ensures s == "" ==> r == Num(0)
    ensures HasHexPrefix(s) && |s| == 2 ==> r.NaN?
  {
    if s == "" then Num(0)
    else if HasHexPrefix(s) && |s| > 2 && AllHex(s[2..]) then Num(HexValue(s[2..]))
    else if AllDecimal(s) then Num(DecimalValue(s))
    else NaN
  }

  /** `Number` reads back every decimal numeral `String(n)` prints. */
  lemma NumberReadsDecimal(n: nat)
    ensures NumberOfString(NatToString(n)) == Num(n)
  {
    DecimalRoundTrip(n);
    var t := NatToString(n);
    assert !HasHexPrefix(t) by {
      if |t| >= 2 { assert '0' <= t[1] <= '9'; }
    }
  }

  /** `Number` reads back every "0x"-prefixed hexadecimal numeral. */
  lemma NumberReadsHex(n: nat)
    ensures NumberOfString("0x" + NatToHex(n)) == Num(n)
  {
    HexRoundTrip(n);
    assert ("0x" + NatToHex(n))[2..] == NatToHex(n);
  }

  /** The length of the longest prefix of `s` made of hexadecimal digits. */
  function HexPrefixLength(s: string): (k: nat)
    ensures k <= |s| && AllHex(s[..k])
    ensures k < |s| ==> !IsHexDigit(s[k])
  {
    if s == "" || !IsHexDigit(s[0]) then 0
    else
      var k := 1 + HexPrefixLength(s[1..]);
      assert s[..k] == [s[0]] + s[1..][..k - 1];
      k
  }

  /** `parseInt(s, 16)`: an optional "0x"/"0X" prefix is skipped, then the
      longest run of hexadecimal digits is read; no digits at all is NaN. */
  function ParseIntHex(s: string): (r: JsNum)
    ensures r.Num? ==> r.value >= 0
    ensures s == "" ==> r.NaN?
    ensures HasHexPrefix(s) && |s| == 2 ==> r.NaN?
  {
    var body := if HasHexPrefix(s) then s[2..] else s;
    var k := HexPrefixLength(body);
    if k == 0 then NaN else Num(HexValue(body[..k]))
  }

  /** `parseInt(s, 16)` stops at the first character that is not a hexadecimal digit. */
  lemma ParseIntHexStopsAtNonDigit(digits: string, tail: string)
    requires digits != "" && AllHex(digits)
    requires tail == "" || !IsHexDigit(tail[0])
    ensures ParseIntHex("0x" + digits + tail) == Num(HexValue(digits))
  {
    var s := "0x" + digits + tail;
    var body := s[2..];
    assert body == digits + tail;
    HexPrefixExact(digits, tail);
    assert body[..|digits|] == digits;
  }

  /** The hexadecimal prefix of `digits + tail` is `digits` when `tail` starts with a non-digit. */
  lemma {:induction false} HexPrefixExact(digits: string, tail: string)
    requires AllHex(digits)
    requires tail == "" || !IsHexDigit(tail[0])
    ensures HexPrefixLength(digits + tail) == |digits|
    decreases |digits|
  {
    if digits != "" {
      assert (digits + tail)[1..] == digits[1..] + tail;
      HexPrefixExact(digits[1..], tail);
    }
  }

  /** On a well-formed "0x" numeral `parseInt(s, 16)` and `Number(s)` agree. */
  lemma ParseIntHexAgreesWithNumber(digits: string)
    requires digits != "" && AllHex(digits)
    ensures ParseIntHex("0x" + digits) == NumberOfString("0x" + digits) == Num(HexValue(digits))
  {
    ParseIntHexStopsAtNonDigit(digits, "");
    assert "0x" + digits + "" == "0x" + digits;
    assert ("0x" + digits)[2..] == digits;
  }

  /** JavaScript's `x % 2`: the remainder of a division truncated toward
      zero, so it takes the sign of `x`; NaN stays NaN. */
  function RemainderByTwo(x: JsNum): (r: JsNum)
    ensures r.NaN? <==> x.NaN?
    ensures r.Num? ==> (x.value - r.value) % 2 == 0
    ensures r.Num? && x.value >= 0 ==> r.value == 0 || r.value == 1
    ensures r.Num? && x.value < 0 ==> r.value == 0 || r.value == -1
  {
    match x
    case NaN => NaN
    case Num(n) => if n >= 0 then Num(n % 2) else Num(-((-n) % 2))
  }
}
