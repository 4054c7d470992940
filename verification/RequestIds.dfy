/** The rendered identity of an interface preference request: `preferences-` and a decimal u64. */
module RequestIds {

  const MAX_SEQUENCE: nat := 0xFFFF_FFFF_FFFF_FFFF
  const ID_LIMIT: nat := 32

  function Digit(n: nat): (c: char)
    requires n < 10
    ensures '0' <= c <= '9' && (c as int) - ('0' as int) == n
  {
    (n + '0' as int) as char
  }

  function Decimal(n: nat): (digits: string)
    ensures |digits| > 0
  {
    if n < 10 then [Digit(n)] else Decimal(n / 10) + [Digit(n % 10)]
  }

  function RequestId(n: nat): (id: string)
    ensures |id| > |"preferences-"|
  {
    "preferences-" + Decimal(n)
  }

  function PowerOfTen(k: nat): (p: nat)
    ensures p > 0
  {
    if k == 0 then 1 else 10 * PowerOfTen(k - 1)
  }

  lemma {:induction false} DecimalInjective(m: nat, n: nat)
    requires Decimal(m) == Decimal(n)
    ensures m == n
  {
    var a, b := Decimal(m), Decimal(n);
    if m < 10 && n < 10 {
      assert a[0] == b[0];
    } else if m >= 10 && n >= 10 {
      assert a[..|a| - 1] == Decimal(m / 10) && b[..|b| - 1] == Decimal(n / 10);
      assert a[|a| - 1] == Digit(m % 10) && b[|b| - 1] == Digit(n % 10);
      DecimalInjective(m / 10, n / 10);
    }
  }

  lemma {:induction false} DecimalLength(n: nat, k: nat)
    requires k > 0 && n < PowerOfTen(k)
    ensures |Decimal(n)| <= k
  {
    if n >= 10 {
      DecimalLength(n / 10, k - 1);
    }
  }

  // Identities are never reused: distinct sequence numbers render to distinct identities.
  lemma RequestIdInjective(m: nat, n: nat)
    requires RequestId(m) == RequestId(n)
    ensures m == n
  {
    var prefix := "preferences-";
    assert RequestId(m)[|prefix|..] == Decimal(m) && RequestId(n)[|prefix|..] == Decimal(n);
    DecimalInjective(m, n);
  }

  // The acknowledgement command's length guard admits every identity that can be minted.
  lemma RequestIdFits(n: nat)
    requires n <= MAX_SEQUENCE
    ensures 0 < |RequestId(n)| <= ID_LIMIT
  {
    assert PowerOfTen(4) == 10000;
    assert PowerOfTen(8) == 10000 * 10000;
    assert PowerOfTen(12) == 10000 * 10000 * 10000;
    assert PowerOfTen(16) == 10000 * 10000 * 10000 * 10000;
    assert PowerOfTen(20) == 10000 * 10000 * 10000 * 10000 * 10000;
    DecimalLength(n, 20);
  }
}
