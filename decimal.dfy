/**
 * Decimal rendering of integers, as Kotlin's Int.toString and string
 * templates such as "₹${price}" produce it: an optional '-' and then the
 * digits, without separators or leading zeros. ParseInt reads such a
 * string back.
 */
module Decimal {
  import opened Wrappers

  /** The rupee sign the renderer puts before every amount. */
  const Rupee: char := '\U{20B9}'

  predicate IsDigit(c: char) {
    '0' <= c <= '9'
  }

  function DigitChar(d: nat): (c: char)
    requires d < 10
    ensures IsDigit(c) && (c as int) - ('0' as int) == d
  {
    ('0' as int + d) as char
  }

  /** Digits of a natural number, most significant first. */
  function NatToString(n: nat): (s: string)
    ensures |s| > 0 && forall k :: 0 <= k < |s| ==> IsDigit(s[k])
    ensures s[0] == '0' <==> n == 0
    decreases n
  {
    if n < 10 then [DigitChar(n)] else NatToString(n / 10) + [DigitChar(n % 10)]
  }

  /** Kotlin's Int.toString: a '-' exactly for negative numbers, then
      digits with no leading zero (a lone "0" for zero). */
  function IntToString(n: int): (s: string)
    ensures var sign := if n < 0 then 1 else 0;
            && |s| > sign
            && (s[0] == '-' <==> n < 0)
            && (forall k :: sign <= k < |s| ==> IsDigit(s[k]))
            && (s[sign] == '0' <==> n == 0)
  {
    if n < 0 then "-" + NatToString(-n) else NatToString(n)
  }

  /** An amount as the invoice prints it: the rupee sign, then the number. */
  function Currency(amount: int): (s: string)
    ensures |s| > 1 && s[0] == Rupee
    ensures ParseInt(s[1..]) == Some(amount)
  {
    ParseIntToString(amount);
    var s := [Rupee] + IntToString(amount);
    assert s[1..] == IntToString(amount);
    s
  }

  /** Reads a non-empty string of decimal digits. */
  function ParseNat(s: string): (r: Option<nat>)
    decreases |s|
  {
    if |s| == 0 || !IsDigit(s[|s| - 1]) then None
    else
      var d := (s[|s| - 1] as int) - ('0' as int);
      if |s| == 1 then Some(d)
      else match ParseNat(s[..|s| - 1])
        case None => None
        case Some(m) => Some(10 * m + d)
  }

  /** Reads an optional '-' followed by decimal digits. */
  function ParseInt(s: string): (r: Option<int>)
  {
    if |s| > 0 && s[0] == '-' then
      match ParseNat(s[1..])
      case None => None
      case Some(m) => Some(-(m as int))
    else
      match ParseNat(s)
      case None => None
      case Some(m) => Some(m)
  }

  /** Reading the digits back gives the number. */
  lemma {:induction false} ParseNatToString(n: nat)
    ensures ParseNat(NatToString(n)) == Some(n)
    decreases n
  {
    var s := NatToString(n);
    if n >= 10 {
      ParseNatToString(n / 10);
      assert s[..|s| - 1] == NatToString(n / 10);
      assert s[|s| - 1] == DigitChar(n % 10);
    }
  }

  /** Round trip: every integer the renderer prints can be read back. */
  lemma {:induction false} ParseIntToString(n: int)
    ensures ParseInt(IntToString(n)) == Some(n)
  {
    if n < 0 {
      ParseNatToString(-n);
      assert IntToString(n)[1..] == NatToString(-n);
    } else {
      ParseNatToString(n);
    }
  }

  /** Two different amounts never print the same text. */
  lemma {:induction false} CurrencyInjective(a: int, b: int)
    ensures Currency(a) == Currency(b) <==> a == b
  {
    if Currency(a) == Currency(b) {
      assert Currency(a)[1..] == Currency(b)[1..];
    }
  }
}
