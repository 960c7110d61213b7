/** Decimal rendering of numbers, as Python's `str(int)` and zero-padded `strftime` fields produce it. */
module Text {

  predicate IsDigit(c: char) {
    '0' <= c <= '9'
  }

  predicate IsDigits(s: string) {
    forall i | 0 <= i < |s| :: IsDigit(s[i])
  }

  function DigitValue(c: char): nat
    requires IsDigit(c)
  {
    (c as int) - ('0' as int)
  }

  function DigitChar(d: nat): (c: char)
    requires d < 10
    ensures IsDigit(c) && DigitValue(c) == d
  {
    (('0' as int) + d) as char
  }

  function Pow10(k: nat): (p: nat)
    ensures p >= 1
  {
    if k == 0 then 1 else 10 * Pow10(k - 1)
  }

  /** The shortest decimal spelling of `n`, as `str(n)` gives it. */
  function ShowNat(n: nat): (s: string)
    ensures 1 <= |s| && IsDigits(s)
    ensures s[0] == '0' ==> n == 0
    decreases n
  {
    if n < 10 then [DigitChar(n)] else ShowNat(n / 10) + [DigitChar(n % 10)]
  }

  /** `str(n)` for any integer: a minus sign in front of the magnitude when negative. */
  function ShowInt(n: int): (s: string)
    ensures 1 <= |s|
    ensures n >= 0 ==> IsDigits(s)
    ensures n < 0 ==> s[0] == '-' && IsDigits(s[1..])
  {
    if n < 0 then "-" + ShowNat(-n) else ShowNat(n)
  }

  /** The value of a string of decimal digits; leading zeros are allowed. */
  function ReadNat(s: string): nat
    requires IsDigits(s)
  {
    if s == [] then 0 else 10 * ReadNat(s[..|s| - 1]) + DigitValue(s[|s| - 1])
  }

  /** Reading back what `ShowNat` wrote gives the number again. */
  lemma {:induction false} ReadShowNat(n: nat)
    ensures ReadNat(ShowNat(n)) == n
  {
    if n >= 10 {
      var s := ShowNat(n);
      assert s[..|s| - 1] == ShowNat(n / 10);
      ReadShowNat(n / 10);
    }
  }

  /** `ShowNat` never writes the same digits for two different numbers. */
  lemma ShowNatInjective(m: nat, n: nat)
    requires ShowNat(m) == ShowNat(n)
    ensures m == n
  {
    ReadShowNat(m);
    ReadShowNat(n);
  }

  lemma DigitsConcat(a: string, b: string)
    requires IsDigits(a) && IsDigits(b)
    ensures IsDigits(a + b)
  {
    forall i | 0 <= i < |a + b|
      ensures IsDigit((a + b)[i])
    {
      if i < |a| { assert (a + b)[i] == a[i]; } else { assert (a + b)[i] == b[i - |a|]; }
    }
  }

  /**
   * The last `width` decimal digits of `n`, zero-filled on the left: what
   * `%02d`-style fields of `strftime` write for a value that fits.
   */
  function FixedDigits(n: nat, width: nat): (s: string)
    ensures |s| == width
  {
    if width == 0 then [] else FixedDigits(n / 10, width - 1) + [DigitChar(n % 10)]
  }

  lemma {:induction false} FixedDigitsAreDigits(n: nat, width: nat)
    ensures IsDigits(FixedDigits(n, width))
  {
    if width > 0 {
      FixedDigitsAreDigits(n / 10, width - 1);
      DigitsConcat(FixedDigits(n / 10, width - 1), [DigitChar(n % 10)]);
    }
  }

  /** A value that fits in `width` digits reads back from its fixed-width spelling. */
  lemma {:induction false} ReadFixedDigits(n: nat, width: nat)
    requires n < Pow10(width)
    ensures IsDigits(FixedDigits(n, width)) && ReadNat(FixedDigits(n, width)) == n
  {
    FixedDigitsAreDigits(n, width);
    if width > 0 {
      var s := FixedDigits(n, width);
      assert s[..|s| - 1] == FixedDigits(n / 10, width - 1);
      FixedDigitsAreDigits(n / 10, width - 1);
      ReadFixedDigits(n / 10, width - 1);
    }
  }

  /** With no leading zero to add, the fixed-width spelling is `str(n)`. */
  lemma {:induction false} FixedDigitsOfFullWidth(n: nat, width: nat)
    requires 1 <= width && Pow10(width - 1) <= n < Pow10(width)
    ensures FixedDigits(n, width) == ShowNat(n)
  {
    if width > 1 {
      assert n >= 10;
      assert Pow10(width - 2) <= n / 10 < Pow10(width - 1);
      FixedDigitsOfFullWidth(n / 10, width - 1);
    } else {
      assert n < 10;
      assert FixedDigits(n / 10, 0) == [];
    }
  }

  /** The pieces of a template, joined in order. */
  function Concat(parts: seq<string>): (s: string)
    ensures |parts| == 0 ==> s == []
  {
    if |parts| == 0 then [] else parts[0] + Concat(parts[1..])
  }

  /** `t` occurs in `s` starting at index `k`. */
  predicate OccursAt(s: string, t: string, k: int) {
    0 <= k <= |s| - |t| && s[k..k + |t|] == t
  }

  /** `t in s` for strings: `t` occurs somewhere inside `s`. */
  predicate Contains(s: string, t: string) {
    exists k | 0 <= k <= |s| :: OccursAt(s, t, k)
  }

  /** Every piece of a template occurs in the joined text. */
  lemma {:induction false} ConcatContains(parts: seq<string>, i: nat)
    requires i < |parts|
    ensures Contains(Concat(parts), parts[i])
  {
    var s := Concat(parts);
    assert s == parts[0] + Concat(parts[1..]);
    if i == 0 {
      assert OccursAt(s, parts[0], 0);
    } else {
      ConcatContains(parts[1..], i - 1);
      assert parts[1..][i - 1] == parts[i];
      var rest := Concat(parts[1..]);
      var k :| 0 <= k <= |rest| && OccursAt(rest, parts[i], k);
      assert k + |parts[i]| <= |rest| && rest[k..k + |parts[i]|] == parts[i];
      var j := |parts[0]| + k;
      assert s[j..j + |parts[i]|] == rest[k..k + |parts[i]|];
      assert OccursAt(s, parts[i], j);
    }
  }
}
