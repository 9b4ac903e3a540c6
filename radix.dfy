/**
 * Rendering of non-negative integers in base 10 and base 16, the way
 * JavaScript's `Number.prototype.toString(radix)` does it: lower-case digits,
 * no sign, no padding and no leading zero.  A strict parser inverts it.
 */
module Radix {
  import opened Wrappers

  /** The two radixes the system renders numbers in. */
  predicate IsBase(base: nat) {
    base == 10 || base == 16
  }

  /** The lower-case digit for a value below 16. */
  function DigitChar(d: nat): (c: char)
    requires d < 16
    ensures '0' <= c <= '9' || 'a' <= c <= 'f'
  {
    if d < 10 then ('0' as int + d) as char else ('a' as int + d - 10) as char
  }

  /** The value of a lower-case digit, or None for any other character. */
  function DigitValue(c: char): (v: Option<nat>)
    ensures v.Some? <==> '0' <= c <= '9' || 'a' <= c <= 'f'
    ensures v.Some? ==> v.value < 16 && DigitChar(v.value) == c
  {
    if '0' <= c <= '9' then Some(c as int - '0' as int)
    else if 'a' <= c <= 'f' then Some(c as int - 'a' as int + 10)
    else None
  }

  lemma DigitRoundTrip(d: nat)
    requires d < 16
    ensures DigitValue(DigitChar(d)) == Some(d)
  {
  }

  predicate IsDigit(c: char, base: nat) {
    DigitValue(c).Some? && DigitValue(c).value < base
  }

  predicate AllDigits(s: string, base: nat) {
    forall i :: 0 <= i < |s| ==> IsDigit(s[i], base)
  }

  /** What `toString(radix)` can produce: at least one digit, and no leading zero unless the value is zero. */
  predicate IsCanonical(s: string, base: nat) {
    |s| >= 1 && AllDigits(s, base) && (|s| > 1 ==> s[0] != '0')
  }

  /** `n.toString(base)`. */
  function ToBase(n: nat, base: nat): (s: string)
    requires IsBase(base)
    ensures IsCanonical(s, base)
    ensures s[0] == '0' <==> n == 0
    decreases n
  {
    if n < base then
      DigitRoundTrip(n);
      [DigitChar(n)]
    else
      DigitRoundTrip(n % base);
      ToBase(n / base, base) + [DigitChar(n % base)]
  }

  /** `n.toString(16)`. */
  function Hex(n: nat): string {
    ToBase(n, 16)
  }

  /** `n.toString(10)`, as a template literal renders a number. */
  function Decimal(n: nat): string {
    ToBase(n, 10)
  }

  /** The value of a string of digits, most significant first (zero for the empty string). */
  function FromBase(s: string, base: nat): nat
    requires IsBase(base) && AllDigits(s, base)
    decreases |s|
  {
    if s == [] then 0
    else FromBase(s[..|s| - 1], base) * base + DigitValue(s[|s| - 1]).value
  }

  /** Reads back exactly the strings `ToBase` produces. */
  function Parse(s: string, base: nat): (r: Option<nat>)
    requires IsBase(base)
    ensures r.Some? <==> IsCanonical(s, base)
  {
    if IsCanonical(s, base) then Some(FromBase(s, base)) else None
  }

  /** Parsing a rendered number gives the number back. */
  lemma {:induction false} ParseToBase(n: nat, base: nat)
    requires IsBase(base)
    ensures FromBase(ToBase(n, base), base) == n
    ensures Parse(ToBase(n, base), base) == Some(n)
    decreases n
  {
    var s := ToBase(n, base);
    if n < base {
      assert s[..|s| - 1] == [];
    } else {
      var p := ToBase(n / base, base);
      assert s[..|s| - 1] == p;
      ParseToBase(n / base, base);
      DigitRoundTrip(n % base);
    }
  }

  /** A digit string with a non-zero leading digit has a positive value. */
  lemma {:induction false} FromBasePositive(s: string, base: nat)
    requires IsBase(base) && AllDigits(s, base)
    requires |s| >= 1 && s[0] != '0'
    ensures FromBase(s, base) >= 1
    decreases |s|
  {
    if |s| > 1 {
      FromBasePositive(s[..|s| - 1], base);
    }
  }

  /** Rendering the value of a canonical string gives the string back. */
  lemma {:induction false} ToBaseFromBase(s: string, base: nat)
    requires IsBase(base) && IsCanonical(s, base)
    ensures ToBase(FromBase(s, base), base) == s
    decreases |s|
  {
    var d := DigitValue(s[|s| - 1]).value;
    if |s| == 1 {
      assert s[..0] == [];
      assert s == [DigitChar(d)];
    } else {
      var p := s[..|s| - 1];
      assert p[0] == s[0];
      FromBasePositive(p, base);
      ToBaseFromBase(p, base);
      var q := FromBase(p, base);
      var n := q * base + d;
      assert n / base == q && n % base == d;
      assert s == p + [DigitChar(d)];
    }
  }

  /** Canonical strings and natural numbers are in one-to-one correspondence. */
  lemma ParseIsInverse(s: string, n: nat, base: nat)
    requires IsBase(base)
    ensures Parse(s, base) == Some(n) <==> ToBase(n, base) == s
  {
    ParseToBase(n, base);
    if Parse(s, base) == Some(n) {
      ToBaseFromBase(s, base);
    }
  }

  /** Rendering is injective. */
  lemma ToBaseInjective(m: nat, n: nat, base: nat)
    requires IsBase(base)
    ensures ToBase(m, base) == ToBase(n, base) ==> m == n
  {
    ParseToBase(m, base);
    ParseToBase(n, base);
  }

  function Pow16(k: nat): (p: nat)
    ensures p >= 1
  {
    if k == 0 then 1 else 16 * Pow16(k - 1)
  }

  /** 16^8 = 2^32 bounds a 32-bit hash; 16^24 = 2^96 bounds an ObjectId. */
  lemma Pow16Values()
    ensures Pow16(8) == 0x1_0000_0000
    ensures Pow16(24) == 0x1_0000_0000_0000_0000_0000_0000
  {
    assert Pow16(8) == 0x1_0000_0000;
    assert Pow16(12) == 0x1_0000_0000_0000;
    assert Pow16(16) == 0x1_0000_0000_0000_0000;
    assert Pow16(20) == 0x1_0000_0000_0000_0000_0000;
  }

  /** A hexadecimal rendering has at most k digits exactly when the value is below 16^k. */
  lemma {:induction false} HexLength(n: nat, k: nat)
    requires k >= 1
    ensures |Hex(n)| <= k <==> n < Pow16(k)
    decreases n
  {
    if n < 16 {
      assert |Hex(n)| == 1;
      assert Pow16(k) == 16 * Pow16(k - 1);
    } else {
      assert |Hex(n)| == |Hex(n / 16)| + 1;
      if k == 1 {
        assert Pow16(1) == 16;
      } else {
        HexLength(n / 16, k - 1);
        assert Pow16(k) == 16 * Pow16(k - 1);
      }
    }
  }

  /** A string of k zero digits. */
  function Zeros(k: nat): (z: string)
    ensures |z| == k
    ensures forall i :: 0 <= i < k ==> z[i] == '0'
  {
    if k == 0 then "" else Zeros(k - 1) + "0"
  }

  /** `s.padStart(width, '0')`. */
  function PadStart(s: string, width: nat): (r: string)
    ensures |r| == if |s| >= width then |s| else width
  {
    if |s| >= width then s else Zeros(width - |s|) + s
  }

  /** Leading zeros do not change the value of a digit string. */
  lemma {:induction false} FromBaseZeros(k: nat, s: string, base: nat)
    requires IsBase(base) && AllDigits(s, base)
    ensures AllDigits(Zeros(k) + s, base)
    ensures FromBase(Zeros(k) + s, base) == FromBase(s, base)
    decreases |s| + k
  {
    var t := Zeros(k) + s;
    assert AllDigits(t, base) by {
      forall i | 0 <= i < |t| ensures IsDigit(t[i], base) {
        if i < k { assert t[i] == '0'; } else { assert t[i] == s[i - k]; }
      }
    }
    if s == [] {
      assert t == Zeros(k);
      if k > 0 {
        assert t[..|t| - 1] == Zeros(k - 1) + [];
        FromBaseZeros(k - 1, [], base);
      }
    } else {
      assert t[..|t| - 1] == Zeros(k) + s[..|s| - 1];
      FromBaseZeros(k, s[..|s| - 1], base);
    }
  }

  /** The value of a digit string of length k is below base^k (stated for hexadecimal). */
  lemma {:induction false} FromHexBound(s: string)
    requires AllDigits(s, 16)
    ensures FromBase(s, 16) < Pow16(|s|)
    decreases |s|
  {
    if s != [] {
      FromHexBound(s[..|s| - 1]);
    }
  }
}
