/** The decimal rendering JavaScript applies to an integer id inside a template
    string (`${id}`), and the fact that distinct ids give distinct texts. */
module Text {
  import opened Results

  predicate IsDigit(c: char) {
    '0' <= c <= '9'
  }

  predicate AllDigits(s: string) {
    forall i :: 0 <= i < |s| ==> IsDigit(s[i])
  }

  function DigitChar(d: nat): (c: char)
    requires d < 10
    ensures IsDigit(c)
  {
    ('0' as int + d) as char
  }

  function DigitValue(c: char): (d: nat)
    requires IsDigit(c)
    ensures d < 10
  {
    c as int - '0' as int
  }

  /** Decimal digits of `n`, most significant first, without leading zeros. */
  function NatText(n: nat): (s: string)
    ensures |s| > 0 && AllDigits(s)
  {
    if n < 10 then [DigitChar(n)] else NatText(n / 10) + [DigitChar(n % 10)]
  }

  /** Reads a string of decimal digits back as a number. */
  function ParseNat(s: string): nat
    requires AllDigits(s)
  {
    if s == [] then 0 else ParseNat(s[..|s| - 1]) * 10 + DigitValue(s[|s| - 1])
  }

  lemma {:induction false} ParseNatText(n: nat)
    ensures ParseNat(NatText(n)) == n
  {
    if n >= 10 {
      var s := NatText(n / 10);
      var t := s + [DigitChar(n % 10)];
      assert t[..|t| - 1] == s;
      ParseNatText(n / 10);
    }
  }

  /** `String(n)` for an integer-valued JavaScript number: a minus sign
      exactly for a negative number, then the decimal digits of its magnitude. */
  function IntText(n: int): (s: string)
    ensures |s| > 0 && (s[0] == '-' <==> n < 0)
    ensures n < 0 ==> AllDigits(s[1..]) && ParseNat(s[1..]) == -n
    ensures 0 <= n ==> AllDigits(s) && ParseNat(s) == n
  {
    var magnitude := if n < 0 then -n else n;
    ParseNatText(magnitude);
    if n < 0 then
      var s := "-" + NatText(magnitude);
      assert s[1..] == NatText(magnitude);
      s
    else NatText(magnitude)
  }

  /** `${id}` for a nullable id: a null id renders as "null", which no
      number renders as. */
  function IdText(id: Option<int>): (s: string)
    ensures |s| > 0
    ensures s == "null" <==> id.None?
  {
    match id
    case Some(n) => IntText(n)
    case None => "null"
  }

  /** Distinct integers render as distinct texts: the sign and the digits
      read back give the number. */
  lemma IntTextInjective(a: int, b: int)
    ensures IntText(a) == IntText(b) ==> a == b
  {
  }

  /** Distinct ids (null included) render as distinct texts. */
  lemma IdTextInjective(a: Option<int>, b: Option<int>)
    ensures IdText(a) == IdText(b) ==> a == b
  {
    if a.Some? && b.Some? {
      IntTextInjective(a.value, b.value);
    }
  }
}
