/** The text that identifies a point: the document hash, a colon and the chunk index. The uuid made of
    it is a one-to-one function of this name, so the name stands for the id. */
module PointNames {

  const DIGITS := "0123456789"

  function Decimal(n: nat): (s: string)
    ensures |s| > 0 && forall i :: 0 <= i < |s| ==> s[i] != ':'
  {
    if n < 10 then [DIGITS[n]] else Decimal(n / 10) + [DIGITS[n % 10]]
  }

  function Name(hash: string, index: nat): string { hash + ":" + Decimal(index) }

  lemma {:induction false} DecimalInjective(m: nat, n: nat)
    requires Decimal(m) == Decimal(n)
    ensures m == n
  {
    var s, t := Decimal(m), Decimal(n);
    assert s[|s| - 1] == DIGITS[m % 10] && t[|t| - 1] == DIGITS[n % 10];
    if m >= 10 && n >= 10 {
      assert s[..|s| - 1] == Decimal(m / 10) && t[..|t| - 1] == Decimal(n / 10);
      DecimalInjective(m / 10, n / 10);
    }
  }

  /** Whatever the hashes contain, even colons and digits, two points share an id only when they are
      the same chunk of the same document. */
  lemma NameInjective(g: string, i: nat, h: string, j: nat)
    requires Name(g, i) == Name(h, j)
    ensures g == h && i == j
  {
    var s, a, b := Name(g, i), Decimal(i), Decimal(j);
    assert s[|g|] == ':' && s[|h|] == ':';
    assert forall k :: |g| < k < |s| ==> s[k] == a[k - |g| - 1];
    assert forall k :: |h| < k < |s| ==> s[k] == b[k - |h| - 1];
    assert |g| == |h|;
    assert g == s[..|g|] == h;
    assert a == s[|g| + 1..] == b;
    DecimalInjective(i, j);
  }
}
