/** The default container name a requirer chooses on relation-joined when none was
    configured: `relation-<id>`, with the relation id written as Python's `str(int)`. */
module ContainerNaming {

  ghost predicate AllDigits(s: string)
  {
    forall i :: 0 <= i < |s| ==> '0' <= s[i] <= '9'
  }

  function DigitChar(d: nat): (c: char)
    requires d < 10
    ensures '0' <= c <= '9'
  {
    (d + '0' as int) as char
  }

  function DigitValue(c: char): nat
    requires '0' <= c <= '9'
  {
    c as int - '0' as int
  }

  /** Decimal notation of a natural number, without leading zeros. */
  function Decimal(n: nat): (s: string)
    ensures |s| >= 1 && AllDigits(s)
    ensures s[0] != '-'
    decreases n
  {
    if n < 10 then [DigitChar(n)] else Decimal(n / 10) + [DigitChar(n % 10)]
  }

  /** The value of a string of decimal digits: the inverse of Decimal. */
  function ParseDecimal(s: string): nat
    requires AllDigits(s)
    decreases |s|
  {
    if s == [] then 0 else ParseDecimal(s[..|s| - 1]) * 10 + DigitValue(s[|s| - 1])
  }

  lemma {:induction false} ParseDecimalOfDecimal(n: nat)
    ensures ParseDecimal(Decimal(n)) == n
    decreases n
  {
    if n >= 10 {
      var s := Decimal(n);
      assert s[..|s| - 1] == Decimal(n / 10);
      ParseDecimalOfDecimal(n / 10);
    }
  }

  /** Python's `str(n)` for an integer. */
  function IntToString(n: int): (s: string)
    ensures |s| >= 1
  {
    if n < 0 then "-" + Decimal(-n) else Decimal(n)
  }

  /** Equal decimal strings denote equal numbers. */
  lemma DecimalInjective(m: nat, n: nat)
    requires Decimal(m) == Decimal(n)
    ensures m == n
  {
    ParseDecimalOfDecimal(m);
    ParseDecimalOfDecimal(n);
  }

  /** Distinct integers have distinct decimal strings. */
  lemma IntToStringInjective(a: int, b: int)
    requires IntToString(a) == IntToString(b)
    ensures a == b
  {
    if a < 0 && b < 0 {
      var da, db := Decimal(-a), Decimal(-b);
      assert da == IntToString(a)[1..];
      assert db == IntToString(b)[1..];
      DecimalInjective(-a, -b);
    } else if a >= 0 && b >= 0 {
      DecimalInjective(a, b);
    }
  }

  const ContainerPrefix: string := "relation-"

  /** The container name generated for relation `relationId`. */
  function DefaultContainerName(relationId: int): (name: string)
    ensures |name| > |ContainerPrefix| && name[..|ContainerPrefix|] == ContainerPrefix
    ensures name[|ContainerPrefix|..] == IntToString(relationId)
  {
    ContainerPrefix + IntToString(relationId)
  }

  /** Relations with different ids get different default container names. */
  lemma DefaultContainerNameInjective(a: int, b: int)
    ensures DefaultContainerName(a) == DefaultContainerName(b) ==> a == b
  {
    if DefaultContainerName(a) == DefaultContainerName(b) {
      assert IntToString(a) == DefaultContainerName(a)[|ContainerPrefix|..];
      IntToStringInjective(a, b);
    }
  }
}
