/** Decimal rendering of integers, as Java's `Integer.toString`, `Long.toString`
    and string concatenation with an `int` or `long` write them: an optional
    minus sign, then the digits without leading zeros. */
module Decimal {

  function DigitChar(d: int): (c: char)
    requires 0 <= d < 10
    ensures '0' <= c <= '9'
  {
    "0123456789"[d]
  }

  function NatToString(n: nat): (s: string)
    ensures |s| >= 1
    ensures forall i :: 0 <= i < |s| ==> '0' <= s[i] <= '9'
    decreases n
  {
    if n < 10 then [DigitChar(n)] else NatToString(n / 10) + [DigitChar(n % 10)]
  }

  function IntToString(n: int): (s: string)
    ensures |s| >= 1
  {
    if n < 0 then "-" + NatToString(-n) else NatToString(n)
  }

  /** Reading a string of decimal digits back (the partner of NatToString). */
  function ParseDigits(s: string): (n: nat)
    requires forall i :: 0 <= i < |s| ==> '0' <= s[i] <= '9'
  {
    if s == [] then 0
    else ParseDigits(s[..|s| - 1]) * 10 + (s[|s| - 1] as int - '0' as int)
  }

  function ParseInt(s: string): int
    requires |s| >= 1
    requires s[0] == '-' ==> forall i :: 1 <= i < |s| ==> '0' <= s[i] <= '9'
    requires s[0] != '-' ==> forall i :: 0 <= i < |s| ==> '0' <= s[i] <= '9'
  {
    if s[0] == '-' then 0 - ParseDigits(s[1..]) else ParseDigits(s)
  }

  /** Rendering is read back exactly, and has no leading zero. */
  lemma DigitCharValue(d: int)
    requires 0 <= d < 10
    ensures DigitChar(d) as int - '0' as int == d
  {
  }

  lemma {:induction false} ParseNatToString(n: nat)
    ensures ParseDigits(NatToString(n)) == n
    ensures NatToString(n)[0] == '0' ==> n == 0
    decreases n
  {
    if n < 10 {
      DigitCharValue(n);
      assert NatToString(n)[..0] == [];
    } else {
      var q, r := n / 10, n % 10;
      ParseNatToString(q);
      DigitCharValue(r);
      var s := NatToString(n);
      assert s == NatToString(q) + [DigitChar(r)];
      assert s[..|s| - 1] == NatToString(q);
      assert s[|s| - 1] == DigitChar(r);
      assert ParseDigits(s) == ParseDigits(NatToString(q)) * 10 + r;
      assert q * 10 + r == n;
    }
  }

  /** Integer rendering is read back exactly, hence is injective. */
  lemma ParseIntToString(n: int)
    ensures ParseInt(IntToString(n)) == n
  {
    if n < 0 {
      var digits := NatToString(-n);
      ParseNatToString(-n);
      var s := IntToString(n);
      assert s == "-" + digits;
      assert s[0] == '-' && s[1..] == digits;
      assert ParseInt(s) == 0 - ParseDigits(digits);
    } else {
      ParseNatToString(n);
      assert IntToString(n)[0] != '-';
    }
  }

  lemma IntToStringInjective(a: int, b: int)
    requires IntToString(a) == IntToString(b)
    ensures a == b
  {
    ParseIntToString(a);
    ParseIntToString(b);
  }

  /** Two short renderings used by the MIDI tools' identifiers. */
  lemma SmallValues()
    ensures IntToString(1) == "1" && IntToString(3) == "3"
    ensures IntToString(12) == "12" && IntToString(23) == "23"
    ensures IntToString(4) == "4" && IntToString(-1) == "-1"
  {
    assert NatToString(12) == NatToString(1) + [DigitChar(2)];
    assert NatToString(23) == NatToString(2) + [DigitChar(3)];
  }
}
