/** Small helpers shared by the three modelled source files: an optional value,
    the decimal text that printf's %d produces, and rounding a size up to a
    power-of-two multiple the way `(x + m - 1) & ~(m - 1)` does. */
module Common {

  datatype Option<+T> = None | Some(value: T)

  /** A non-empty string of decimal digit characters. */
  predicate IsDigitString(s: string)
  {
    |s| >= 1 && forall i :: 0 <= i < |s| ==> '0' <= s[i] <= '9'
  }

  /** The value of one digit character (0 for anything else). */
  function DigitValue(c: char): nat
  {
    if '0' <= c <= '9' then c as int - 48 else 0
  }

  /** The number a string of digits denotes, most significant digit first:
      how `%d` output is read back. */
  function DigitsValue(s: string): nat
    decreases |s|
  {
    if |s| == 0 then 0 else DigitsValue(s[..|s| - 1]) * 10 + DigitValue(s[|s| - 1])
  }

  /** s is how `%d` writes v: digits that read back as v, with no leading
      zero unless s is "0" itself. */
  predicate Canonical(s: string, v: nat)
  {
    IsDigitString(s) && DigitsValue(s) == v && (s[0] == '0' ==> s == "0")
  }

  /** Decimal digits of a natural number, without leading zeros. */
  function Digits(n: nat): (s: string)
    ensures |s| >= 1
    ensures forall i :: 0 <= i < |s| ==> '0' <= s[i] <= '9'
    decreases n
  {
    var d := [(48 + n % 10) as char];
    if n < 10 then d else Digits(n / 10) + d
  }

  /** The digits of n read back as n, and only 0 is written with a leading '0'. */
  lemma {:induction false} DigitsReadBack(n: nat)
    ensures Canonical(Digits(n), n)
    decreases n
  {
    if n >= 10 {
      var front := Digits(n / 10);
      DigitsReadBack(n / 10);
      assert Digits(n) == front + [(48 + n % 10) as char];
      assert Digits(n)[..|Digits(n)| - 1] == front;
      assert Digits(n)[0] == front[0];
    }
  }

  /** A digit string whose first digit is not '0' denotes a positive number. */
  lemma {:induction false} LeadingDigitPositive(s: string)
    requires IsDigitString(s) && s[0] != '0'
    ensures DigitsValue(s) > 0
    decreases |s|
  {
    if |s| > 1 {
      var front := s[..|s| - 1];
      assert front[0] == s[0];
      LeadingDigitPositive(front);
    }
  }

  /** Digits is the only way to write n without leading zeros: any digit
      string that reads back as n, with no leading '0' unless it is "0", is
      Digits(n). */
  lemma {:induction false} DigitsUnique(s: string, n: nat)
    requires Canonical(s, n)
    ensures s == Digits(n)
    decreases |s|
  {
    var last := s[|s| - 1];
    var front := s[..|s| - 1];
    if |s| == 1 {
      assert DigitsValue(s) == DigitValue(last) by {
        assert DigitsValue(front) == 0;
      }
    } else {
      assert front[0] == s[0];
      assert IsDigitString(front);
      LeadingDigitPositive(front);
      var q, d := DigitsValue(front), DigitValue(last);
      assert n == q * 10 + d && d < 10;
      assert n / 10 == q && n % 10 == d;
      DigitsUnique(front, q);
      assert (48 + d) as char == last;
      assert Digits(n) == Digits(q) + [last];
      assert s == front + [last];
    }
  }

  /** The text printf writes for `%d` (and `%i`) of the integer n. */
  function Decimal(n: int): (s: string)
    ensures |s| >= 1
    ensures n >= 0 ==> s == Digits(n)
    ensures n < 0 ==> s == "-" + Digits(-n)
  {
    if n < 0 then "-" + Digits(-n) else Digits(n)
  }

  /** How `%d` text reads: a minus sign exactly when n is negative, then the
      digits of |n| without leading zeros, which read back as |n|. */
  lemma DecimalReadsBack(n: int)
    ensures Decimal(n)[0] == '-' <==> n < 0
    ensures n >= 0 ==> Canonical(Decimal(n), n)
    ensures n < 0 ==> Canonical(Decimal(n)[1..], -n)
  {
    if n < 0 {
      DigitsReadBack(-n);
      assert Decimal(n)[1..] == Digits(-n);
    } else {
      DigitsReadBack(n);
    }
  }

  /** x rounded up to the next multiple of 16: the value of `(x + 15) & ~15`
      when no 32-bit overflow occurs (ClearLowBits16 gives the mask identity). */
  function AlignUp16(x: nat): (r: nat)
    ensures r % 16 == 0
    ensures x <= r < x + 16
  {
    (x + 15) - (x + 15) % 16
  }

  /** x rounded up to the next multiple of 256: the value of `(x + 0xff) & ~0xff`
      when no 32-bit overflow occurs (ClearLowBits256 gives the mask identity). */
  function AlignUp256(x: nat): (r: nat)
    ensures r % 256 == 0
    ensures x <= r < x + 256
  {
    (x + 0xff) - (x + 0xff) % 0x100
  }

  /** A multiple of 16 bytes is a whole number of four-byte lanes. */
  lemma WholeLanes(r: nat)
    requires r % 16 == 0
    ensures (r / 4) * 4 == r
  {
    var q := r / 16;
    assert r == 16 * q;
    assert r / 4 == 4 * q;
  }

  /** `y & ~15` clears the low four bits: it is y rounded down to a multiple of 16. */
  lemma ClearLowBits16(y: bv32)
    ensures y & !15 == y - y % 16
  {
  }

  /** `y & ~0xff` clears the low byte: it is y rounded down to a multiple of 256. */
  lemma ClearLowBits256(y: bv32)
    ensures y & !0xff == y - y % 0x100
  {
  }

  /** Concatenation is associative; stated once so that a proof can cite it
      instead of leaving the solver to rediscover it element by element. */
  lemma AppendAssoc<T>(a: seq<T>, b: seq<T>, c: seq<T>)
    ensures (a + b) + c == a + (b + c)
  {
  }
}
