/**
  The integer/text conversions of the Python runtime that the service relies on:
  `hex(n)` (the request's `maxCount`), `int(s, 16)` (block numbers) and `str(n)`
  (block numbers and counts inside the prompt text and the summary message).
*/
module Numerals {
  import opened Wrappers

  predicate ValidBase(base: nat) {
    2 <= base <= 16
  }

  /** The lowercase character Python prints for digit `d`. */
  function DigitChar(d: nat): (c: char)
    requires d < 16
  {
    if d < 10 then ('0' as int + d) as char else ('a' as int + d - 10) as char
  }

  /** The value of a digit character in either case, as `int(_, 16)` reads it; None for any other character. */
  function CharValue(c: char): Option<nat> {
    if '0' <= c <= '9' then Some(c as int - '0' as int)
    else if 'a' <= c <= 'f' then Some(c as int - 'a' as int + 10)
    else if 'A' <= c <= 'F' then Some(c as int - 'A' as int + 10)
    else None
  }

  predicate IsDigit(c: char, base: nat) {
    CharValue(c).Some? && CharValue(c).value < base
  }

  /** A digit as Python prints it: a decimal digit or a lowercase letter. */
  predicate IsLowerDigit(c: char, base: nat) {
    IsDigit(c, base) && !('A' <= c <= 'F')
  }

  lemma DigitCharIsDigit(d: nat, base: nat)
    requires d < base <= 16
    ensures CharValue(DigitChar(d)) == Some(d)
    ensures IsLowerDigit(DigitChar(d), base)
    ensures DigitChar(d) == '0' <==> d == 0
  {
  }

  lemma DivideByBase(n: nat, base: nat)
    requires ValidBase(base) && n >= base
    ensures 0 < n / base < n && n % base < base
    ensures n == n / base * base + n % base
  {
  }

  /** The digits of `n` in `base`, most significant first, without leading zeros. */
  function Digits(n: nat, base: nat): (s: string)
    requires ValidBase(base)
    ensures |s| >= 1
    ensures forall i :: 0 <= i < |s| ==> IsLowerDigit(s[i], base)
    ensures n > 0 <==> s[0] != '0'
    decreases n
  {
    if n < base then
      DigitCharIsDigit(n, base);
      [DigitChar(n)]
    else
      DivideByBase(n, base);
      DigitCharIsDigit(n % base, base);
      Digits(n / base, base) + [DigitChar(n % base)]
  }

  predicate DigitsOrSeparators(s: string, base: nat) {
    forall i :: 0 <= i < |s| ==> s[i] == '_' || IsDigit(s[i], base)
  }

  /** The value of a run of digits, most significant first; `_` separators contribute nothing. */
  function ValueOf(s: string, base: nat): nat
    requires ValidBase(base)
    requires DigitsOrSeparators(s, base)
  {
    if s == [] then 0
    else
      var last := s[|s| - 1];
      if last == '_' then ValueOf(s[..|s| - 1], base)
      else assert IsDigit(last, base); ValueOf(s[..|s| - 1], base) * base + CharValue(last).value
  }

  lemma {:induction false} DigitsRoundTrip(n: nat, base: nat)
    requires ValidBase(base)
    ensures ValueOf(Digits(n, base), base) == n
    decreases n
  {
    var s := Digits(n, base);
    if n < base {
      DigitCharIsDigit(n, base);
      assert s[..|s| - 1] == [];
    } else {
      DivideByBase(n, base);
      var q, r := n / base, n % base;
      DigitsRoundTrip(q, base);
      DigitCharIsDigit(r, base);
      assert s[..|s| - 1] == Digits(q, base);
      assert s[|s| - 1] == DigitChar(r);
      assert n == q * base + r;
    }
  }

  /** `str(n)` for a Python int. */
  function Decimal(n: int): string {
    if n < 0 then "-" + Digits(-n, 10) else Digits(n, 10)
  }

  /** `hex(n)` for a Python int: a sign for negatives, the `0x` prefix, lowercase digits. */
  function Hex(n: int): string {
    if n < 0 then "-0x" + Digits(-n, 16) else "0x" + Digits(n, 16)
  }

  /** What `hex(n)` prints for `n >= 0`: `0x`, then lowercase digits with no leading zero. */
  lemma HexShape(n: nat)
    ensures var r := Hex(n);
      && |r| >= 3 && r[..2] == "0x"
      && (forall i :: 2 <= i < |r| ==> IsLowerDigit(r[i], 16))
      && (n > 0 <==> r[2] != '0')
  {
    var d := Digits(n, 16);
    assert Hex(n) == "0x" + d;
    assert forall i :: 2 <= i < |Hex(n)| ==> Hex(n)[i] == d[i - 2];
  }

  /** `str(n)` is an optional minus sign and decimal digits, and reading the digits back gives `n`. */
  lemma {:induction false} DecimalShape(n: int)
    ensures var r := Decimal(n);
      && |r| >= 1
      && (forall i :: 0 <= i < |r| ==> IsLowerDigit(r[i], 10) || (i == 0 && r[i] == '-'))
      && (r[0] == '-' <==> n < 0)
      && (n >= 0 ==> ValueOf(r, 10) == n)
  {
    var m: nat := if n < 0 then -n else n;
    var d := Digits(m, 10);
    DigitsRoundTrip(m, 10);
    if n < 0 {
      assert Decimal(n) == "-" + d;
      assert forall i :: 1 <= i < |Decimal(n)| ==> Decimal(n)[i] == d[i - 1];
    } else {
      assert IsLowerDigit(d[0], 10);
    }
  }

  /** The ASCII whitespace that `int()` strips from both ends of its argument. */
  predicate IsSpace(c: char) {
    c == ' ' || c == '\t' || c == '\n' || c == '\r' || c as int == 11 || c as int == 12
  }

  function TrimStart(s: string): (r: string)
    ensures r == [] || !IsSpace(r[0])
  {
    if s != [] && IsSpace(s[0]) then TrimStart(s[1..]) else s
  }

  function TrimEnd(s: string): (r: string)
    ensures r == [] || !IsSpace(r[|r| - 1])
  {
    if s != [] && IsSpace(s[|s| - 1]) then TrimEnd(s[..|s| - 1]) else s
  }

  function StripSpace(s: string): string {
    TrimEnd(TrimStart(s))
  }

  /** Digits in `base` with single `_` separators between digits, none leading or trailing. */
  predicate WellFormedDigits(s: string, base: nat) {
    && |s| > 0
    && IsDigit(s[0], base)
    && IsDigit(s[|s| - 1], base)
    && DigitsOrSeparators(s, base)
    && forall i :: 0 < i < |s| ==> !(s[i - 1] == '_' && s[i] == '_')
  }

  /** Removes a `0x`/`0X` prefix and the one `_` that may follow it. */
  function DropHexPrefix(u: string): string {
    if |u| >= 2 && u[0] == '0' && (u[1] == 'x' || u[1] == 'X') then
      if |u| >= 3 && u[2] == '_' then u[3..] else u[2..]
    else u
  }

  /** Digits after an optional `0x` prefix; None when they are malformed. */
  function UnsignedFromHex(u: string): Option<nat> {
    var body := DropHexPrefix(u);
    if WellFormedDigits(body, 16) then Some(ValueOf(body, 16)) else None
  }

  /** An optional sign, then an unsigned hexadecimal number. */
  function SignedFromHex(t: string): Option<int> {
    if |t| > 0 && t[0] == '-' then
      match UnsignedFromHex(t[1..])
      case Some(v) => Some(-(v as int))
      case None => None
    else if |t| > 0 && t[0] == '+' then
      match UnsignedFromHex(t[1..])
      case Some(v) => Some(v as int)
      case None => None
    else
      match UnsignedFromHex(t)
      case Some(v) => Some(v as int)
      case None => None
  }

  /**
    `int(s, 16)`: surrounding whitespace, an optional sign, an optional `0x` prefix,
    then hexadecimal digits in either case; None stands for the ValueError raised
    on anything else.
  */
  function IntFromHex(s: string): Option<int> {
    SignedFromHex(StripSpace(s))
  }

  /** A string whose ends are not whitespace is left alone by the strip. */
  lemma StripSpaceKeeps(s: string)
    requires |s| > 0 && !IsSpace(s[0]) && !IsSpace(s[|s| - 1])
    ensures StripSpace(s) == s
  {
    assert TrimStart(s) == s;
  }

  lemma {:induction false} PrefixedDigitsRoundTrip(m: nat)
    ensures UnsignedFromHex("0x" + Digits(m, 16)) == Some(m)
  {
    var d := Digits(m, 16);
    var u := "0x" + d;
    assert u[2] == d[0];
    assert DropHexPrefix(u) == d;
    DigitsRoundTrip(m, 16);
  }

  lemma {:induction false} HexIsStripped(n: int)
    ensures StripSpace(Hex(n)) == Hex(n)
  {
    var h := Hex(n);
    var d := Digits(if n < 0 then -n else n, 16);
    assert h[|h| - 1] == d[|d| - 1];
    StripSpaceKeeps(h);
  }

  /** Decoding `hex(n)` with `int(_, 16)` gives back `n`, for every integer `n`. */
  lemma {:induction false} HexRoundTrip(n: int)
    ensures IntFromHex(Hex(n)) == Some(n)
  {
    var m: nat := if n < 0 then -n else n;
    var h := Hex(n);
    var u := "0x" + Digits(m, 16);
    HexIsStripped(n);
    assert IntFromHex(h) == SignedFromHex(h);
    PrefixedDigitsRoundTrip(m);
    if n < 0 {
      assert h == "-" + u;
      assert h[0] == '-' && h[1..] == u;
      assert SignedFromHex(h) == Some(-(m as int));
    } else {
      assert h == u;
      assert h[0] == '0';
      assert SignedFromHex(h) == Some(m as int);
    }
  }

  lemma DigitsHaveNoPrefix(d: string)
    requires forall i :: 0 <= i < |d| ==> IsLowerDigit(d[i], 16)
    ensures DropHexPrefix(d) == d
  {
    if |d| >= 2 {
      assert IsLowerDigit(d[1], 16);
    }
  }

  lemma {:induction false} UnprefixedDigitsRoundTrip(n: nat)
    ensures UnsignedFromHex(Digits(n, 16)) == Some(n)
  {
    var d := Digits(n, 16);
    DigitsHaveNoPrefix(d);
    assert WellFormedDigits(d, 16);
    DigitsRoundTrip(n, 16);
  }

  /** The prefix is optional: the bare digits `hex(n)` prints after `0x` decode to `n` as well. */
  lemma {:induction false} BareDigitsRoundTrip(n: nat)
    ensures IntFromHex(Digits(n, 16)) == Some(n)
  {
    var d := Digits(n, 16);
    UnprefixedDigitsRoundTrip(n);
    assert IsDigit(d[0], 16) && IsDigit(d[|d| - 1], 16);
    assert SignedFromHex(d) == Some(n);
    StripSpaceKeeps(d);
  }

  /** The empty string, a bare prefix and a doubled separator are errors, not zero. */
  lemma IntFromHexRejects()
    ensures IntFromHex("") == None
    ensures IntFromHex("0x") == None
    ensures IntFromHex("1__0") == None
    ensures IntFromHex("0x_ff") == Some(255)
  {
    assert StripSpace("0x_ff") == "0x_ff" by { StripSpaceKeeps("0x_ff"); }
    assert DropHexPrefix("0x_ff") == "ff";
    assert StripSpace("1__0") == "1__0" by { StripSpaceKeeps("1__0"); }
    assert !WellFormedDigits("1__0", 16) by { assert "1__0"[1] == '_' && "1__0"[2] == '_'; }
    assert ValueOf("ff", 16) == 255 by { assert "ff"[..1] == "f"; }
  }
}
