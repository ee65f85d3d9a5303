/** The quantity typed into a line item's number field becomes
    `parseInt(this.value) || 1` (js/script.js:235), and the field shows the
    quantity as `value="${item.quantity}"` (js/script.js:197). This module
    models JavaScript's `parseInt` with no radix argument (ECMA-262, 2023
    edition, section 19.2.5), the `|| 1` fallback, and the decimal rendering. */
module QuantityInput {

  import opened Optional

  /** The code points that `parseInt` trims from the front: ECMAScript's
      WhiteSpace (tab, vertical tab, form feed, byte order mark and every
      space separator) and LineTerminator. */
  predicate IsWhiteSpace(c: char)
  {
    || c == '\t' || c == '\U{000B}' || c == '\U{000C}' || c == '\U{FEFF}'
    || c == ' ' || c == '\U{00A0}' || c == '\U{1680}' || ('\U{2000}' <= c <= '\U{200A}')
    || c == '\U{202F}' || c == '\U{205F}' || c == '\U{3000}'
    || c == '\n' || c == '\r' || c == '\U{2028}' || c == '\U{2029}'
  }

  /** A digit of radix 16 when `hex` holds, of radix 10 otherwise. */
  predicate IsRadixDigit(c: char, hex: bool)
  {
    ('0' <= c <= '9') || (hex && (('a' <= c <= 'f') || ('A' <= c <= 'F')))
  }

  /** The value of a digit character of any radix up to 16. */
  function DigitValue(c: char): (d: nat)
    ensures IsRadixDigit(c, false) ==> d < 10
    ensures IsRadixDigit(c, true) ==> d < 16
  {
    if '0' <= c <= '9' then c as int - '0' as int
    else if 'a' <= c <= 'f' then c as int - 'a' as int + 10
    else if 'A' <= c <= 'F' then c as int - 'A' as int + 10
    else 0
  }

  /** The string with its leading white space removed. */
  function TrimStart(s: string): (r: string)
    ensures |r| <= |s| && r == s[|s| - |r|..]
    ensures r == [] || !IsWhiteSpace(r[0])
    ensures forall k :: 0 <= k < |s| - |r| ==> IsWhiteSpace(s[k])
    decreases |s|
  {
    if |s| > 0 && IsWhiteSpace(s[0]) then TrimStart(s[1..]) else s
  }

  /** The longest prefix of `s` made of digits of the radix. */
  function DigitPrefix(s: string, hex: bool): (d: string)
    ensures |d| <= |s| && d == s[..|d|]
    ensures forall k :: 0 <= k < |d| ==> IsRadixDigit(d[k], hex)
    ensures |d| == |s| || !IsRadixDigit(s[|d|], hex)
    decreases |s|
  {
    if |s| > 0 && IsRadixDigit(s[0], hex) then [s[0]] + DigitPrefix(s[1..], hex) else []
  }

  /** The number that a digit string denotes in the given base. */
  function ValueOf(digits: string, base: nat): nat
    decreases |digits|
  {
    if |digits| == 0 then 0
    else ValueOf(digits[..|digits| - 1], base) * base + DigitValue(digits[|digits| - 1])
  }

  /** The text after one leading `-` or `+`, if there is one. */
  function DropSign(t: string): string
  {
    if |t| > 0 && (t[0] == '-' || t[0] == '+') then t[1..] else t
  }

  /** The text starts with `0x` or `0X`. */
  predicate HasHexPrefix(u: string)
  {
    |u| >= 2 && u[0] == '0' && (u[1] == 'x' || u[1] == 'X')
  }

  /** The signed value of the digit run at the front of `body`, or None when
      there is none. */
  function ReadDigits(body: string, hex: bool, negative: bool): Option<int>
  {
    var digits := DigitPrefix(body, hex);
    if |digits| == 0 then None
    else
      var magnitude: int := if hex then ValueOf(digits, 16) else ValueOf(digits, 10);
      Some(if negative then -magnitude else magnitude)
  }

  /** `parseInt(s)`: None stands for NaN. Leading white space is skipped, one
      sign is accepted, a `0x` or `0X` prefix switches to radix 16, and the
      longest run of digits that follows is read; nothing after it matters.
      A result of `Some(0)` stands for both +0 and -0. */
  function ParseInt(s: string): (r: Option<int>)
    ensures r.Some? ==> |TrimStart(s)| > 0
    ensures r.Some? && r.value < 0 ==> |TrimStart(s)| > 0 && TrimStart(s)[0] == '-'
  {
    var t := TrimStart(s);
    var u := DropSign(t);
    var hex := HasHexPrefix(u);
    ReadDigits(if hex then u[2..] else u, hex, |t| > 0 && t[0] == '-')
  }

  /** `parseInt(text) || 1`: NaN and zero are falsy and give 1; every other
      result is kept, so a negative number passes through. */
  function InputQuantity(text: string): (q: int)
    ensures q != 0
    ensures q < 0 <==> ParseInt(text).Some? && ParseInt(text).value < 0
    ensures q != 1 ==> ParseInt(text) == Some(q)
    ensures q == 1 <==> ParseInt(text).None? || ParseInt(text).value == 0 || ParseInt(text).value == 1
  {
    var p := ParseInt(text);
    if p.None? || p.value == 0 then 1 else p.value
  }

  /** The decimal digit for `d`. */
  function DecimalDigit(d: nat): (c: char)
    requires d < 10
    ensures IsRadixDigit(c, false) && DigitValue(c) == d
  {
    (d + '0' as int) as char
  }

  /** `${n}` for a non-negative integer: its decimal digits, without leading zeros. */
  function ToDecimal(n: nat): (s: string)
    ensures |s| >= 1
    ensures forall k :: 0 <= k < |s| ==> IsRadixDigit(s[k], false)
    decreases n
  {
    if n < 10 then [DecimalDigit(n)]
    else ToDecimal(n / 10) + [DecimalDigit(n % 10)]
  }

  /** Reading back the decimal rendering of `n` digit by digit gives `n`. */
  lemma {:induction false} ValueOfToDecimal(n: nat)
    ensures ValueOf(ToDecimal(n), 10) == n
    decreases n
  {
    if n >= 10 {
      var s := ToDecimal(n);
      var front := ToDecimal(n / 10);
      assert s[..|s| - 1] == front;
      ValueOfToDecimal(n / 10);
    }
  }

  /** `parseInt` reads back the decimal rendering of every non-negative integer. */
  lemma ParseIntToDecimal(n: nat)
    ensures ParseInt(ToDecimal(n)) == Some(n)
  {
    ParseIntOfDecimalDigits(ToDecimal(n));
    ValueOfToDecimal(n);
  }

  /** A non-empty run of decimal digits is read whole, in radix 10. */
  lemma ParseIntOfDecimalDigits(s: string)
    requires |s| >= 1
    requires forall k :: 0 <= k < |s| ==> IsRadixDigit(s[k], false)
    ensures ParseInt(s) == Some(ValueOf(s, 10))
  {
    TrimStartAtNonSpace(s);
    NoHexPrefixAtDigits(s);
    ReadDecimalDigits(s, false);
  }

  /** The digit prefix of a string made only of digits is the whole string. */
  lemma {:induction false} DigitPrefixOfDigits(s: string)
    requires forall k :: 0 <= k < |s| ==> IsRadixDigit(s[k], false)
    ensures DigitPrefix(s, false) == s
    decreases |s|
  {
    if |s| > 0 {
      DigitPrefixOfDigits(s[1..]);
    }
  }

  /** Submitting the quantity the field shows gives back that quantity. */
  lemma InputQuantityToDecimal(q: int)
    requires q >= 1
    ensures InputQuantity(ToDecimal(q)) == q
  {
    ParseIntToDecimal(q);
  }

  /** Leading white space does not change what `parseInt` reads. */
  lemma ParseIntSkipsWhiteSpace(c: char, s: string)
    requires IsWhiteSpace(c)
    ensures ParseInt([c] + s) == ParseInt(s)
  {
    assert ([c] + s)[1..] == s;
  }

  /** A minus sign in front of a run of decimal digits negates its value. */
  lemma ParseIntNegative(s: string)
    requires |s| >= 1
    requires forall k :: 0 <= k < |s| ==> IsRadixDigit(s[k], false)
    ensures ParseInt("-" + s) == Some(-(ValueOf(s, 10) as int))
  {
    var t := "-" + s;
    TrimStartAtNonSpace(t);
    assert t[1..] == s;
    NoHexPrefixAtDigits(s);
    ReadDecimalDigits(s, true);
  }

  /** Reading stops at the first character that is not a digit: a decimal
      point or an exponent cuts the number. */
  lemma ParseIntStopsAtNonDigit(d: string, rest: string)
    requires |d| >= 1
    requires forall k :: 0 <= k < |d| ==> IsRadixDigit(d[k], false)
    requires |rest| >= 1 && !IsRadixDigit(rest[0], false) && rest[0] != 'x' && rest[0] != 'X'
    ensures ParseInt(d + rest) == Some(ValueOf(d, 10))
  {
    var s := d + rest;
    assert s[0] == d[0];
    TrimStartAtNonSpace(s);
    assert !HasHexPrefix(s) by {
      if |d| >= 2 { assert s[1] == d[1]; } else { assert s[1] == rest[0]; }
    }
    DigitPrefixStops(d, rest);
    ReadDigitsOfPrefix(s, d, false);
  }

  /** Text that starts with anything but white space is not trimmed. */
  lemma TrimStartAtNonSpace(s: string)
    requires |s| > 0 && !IsWhiteSpace(s[0])
    ensures TrimStart(s) == s
  {
  }

  /** Decimal digits never start with `0x`. */
  lemma NoHexPrefixAtDigits(s: string)
    requires forall k :: 0 <= k < |s| ==> IsRadixDigit(s[k], false)
    ensures !HasHexPrefix(s)
  {
    if |s| >= 2 { assert IsRadixDigit(s[1], false); }
  }

  /** A non-empty run of decimal digits is read whole. */
  lemma ReadDecimalDigits(s: string, negative: bool)
    requires |s| >= 1
    requires forall k :: 0 <= k < |s| ==> IsRadixDigit(s[k], false)
    ensures ReadDigits(s, false, negative) == Some(if negative then -(ValueOf(s, 10) as int) else ValueOf(s, 10))
  {
    DigitPrefixOfDigits(s);
    ReadDigitsOfPrefix(s, s, negative);
  }

  /** Whatever follows the digit prefix is ignored. */
  lemma ReadDigitsOfPrefix(body: string, d: string, negative: bool)
    requires |d| >= 1
    requires DigitPrefix(body, false) == d
    ensures ReadDigits(body, false, negative) == Some(if negative then -(ValueOf(d, 10) as int) else ValueOf(d, 10))
  {
  }

  /** The digit prefix of digits followed by a non-digit is those digits. */
  lemma {:induction false} DigitPrefixStops(d: string, rest: string)
    requires forall k :: 0 <= k < |d| ==> IsRadixDigit(d[k], false)
    requires |rest| >= 1 && !IsRadixDigit(rest[0], false)
    ensures DigitPrefix(d + rest, false) == d
    decreases |d|
  {
    if |d| > 0 {
      assert (d + rest)[1..] == d[1..] + rest;
      DigitPrefixStops(d[1..], rest);
    }
  }

  /** Text with no digits where the number should start is NaN and the
      fallback gives 1. */
  lemma InputQuantityNoDigits(s: string)
    requires DigitPrefix(DropSign(TrimStart(s)), false) == []
    ensures ParseInt(s).None?
    ensures InputQuantity(s) == 1
  {
  }

  /** Empty text is NaN, so the fallback gives 1. */
  lemma InputQuantityOfEmpty()
    ensures InputQuantity("") == 1
  {
    assert ParseInt("") == None;
  }

  /** Zero, of either sign, is falsy, so the fallback gives 1. */
  lemma InputQuantityOfZero()
    ensures InputQuantity("0") == 1
    ensures InputQuantity("-0") == 1
  {
    assert ValueOf("0", 10) == 0 by {
      assert "0"[..0] == [];
    }
    ParseIntOfDecimalDigits("0");
    ParseIntNegative("0");
  }
}
