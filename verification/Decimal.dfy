// Decimal printing and parsing as strconv does it for base 10: Itoa / FormatInt on one side,
// ParseUint(_, 10, 16) and ParseInt(_, 10, 64) on the other.
module Decimal {
  import opened Common

  function DigitChar(d: nat): (c: char)
    requires d < 10
    ensures IsDigit(c) && DigitValue(c) == d
  {
    ('0' as int + d) as char
  }

  predicate IsDigit(c: char) {
    '0' <= c <= '9'
  }

  function DigitValue(c: char): nat
    requires IsDigit(c)
  {
    c as int - '0' as int
  }

  predicate IsNumeral(s: string) {
    s != [] && forall i :: 0 <= i < |s| ==> IsDigit(s[i])
  }

  function FormatNat(n: nat): string {
    if n < 10 then [DigitChar(n)] else FormatNat(n / 10) + [DigitChar(n % 10)]
  }

  function ReadNat(s: string): nat
    requires forall i :: 0 <= i < |s| ==> IsDigit(s[i])
  {
    if s == [] then 0 else ReadNat(s[..|s| - 1]) * 10 + DigitValue(s[|s| - 1])
  }

  function FormatInt(i: int): string {
    if i < 0 then ['-'] + FormatNat(-i) else FormatNat(i)
  }

  // strconv.ParseUint(s, 10, bits) with limit == 2^bits: digits only, no sign, leading zeros allowed.
  function ParseUint(s: string, limit: nat): Option<nat> {
    if IsNumeral(s) && ReadNat(s) < limit then Some(ReadNat(s)) else None
  }

  // strconv.ParseInt(s, 10, bits) with half == 2^(bits - 1): one optional sign, then digits.
  function ParseInt(s: string, half: nat): Option<int> {
    if s != [] && s[0] == '-' then
      if IsNumeral(s[1..]) && ReadNat(s[1..]) <= half then Some(-(ReadNat(s[1..]) as int)) else None
    else
      var digits := if s != [] && s[0] == '+' then s[1..] else s;
      if IsNumeral(digits) && ReadNat(digits) < half then Some(ReadNat(digits)) else None
  }

  lemma {:induction false} FormatThenRead(n: nat)
    ensures IsNumeral(FormatNat(n)) && ReadNat(FormatNat(n)) == n
  {
    if n >= 10 {
      FormatThenRead(n / 10);
      assert FormatNat(n)[..|FormatNat(n)| - 1] == FormatNat(n / 10);
    }
  }

  // A printed integer is accepted by the unsigned parser exactly when it fits, and comes back unchanged.
  lemma {:induction false} ParseUintOfFormat(i: int, limit: nat)
    ensures ParseUint(FormatInt(i), limit) == if 0 <= i < limit then Some(i) else None
  {
    if i < 0 {
      assert FormatInt(i)[0] == '-';
    } else {
      FormatThenRead(i);
    }
  }

  lemma {:induction false} ParseIntOfFormat(i: int, half: nat)
    ensures ParseInt(FormatInt(i), half) == if -(half as int) <= i < half then Some(i) else None
  {
    if i < 0 {
      FormatThenRead(-i);
      assert FormatInt(i)[1..] == FormatNat(-i);
    } else {
      FormatThenRead(i);
      assert IsDigit(FormatInt(i)[0]);
    }
  }

  lemma {:induction false} FormatIntInjective(i: int, j: int)
    requires FormatInt(i) == FormatInt(j)
    ensures i == j
  {
    var half := (if i < 0 then -i else i) + (if j < 0 then -j else j) + 1;
    ParseIntOfFormat(i, half);
    ParseIntOfFormat(j, half);
  }
}
