/** Python's integer arithmetic and integer-to-text conversions, as the ledger uses them. */
module Numbers {

  /** Python's `a // b`: the quotient rounded toward negative infinity
      (Dafny's own `/` is Euclidean and differs when `b < 0`). */
  function FloorDiv(a: int, b: int): (q: int)
    requires b != 0
    ensures b > 0 ==> q * b <= a < q * b + b
    ensures b < 0 ==> q * b + b < a <= q * b
  {
    if b > 0 then a / b else (-a) / (-b)
  }

  /** The character of a decimal digit; it reads back as that digit. */
  function DigitChar(d: nat): (c: char)
    requires d < 10
    ensures IsDigit(c) && DigitValue(c) == d
  {
    ('0' as int + d) as char
  }

  function DigitValue(c: char): int
  {
    c as int - '0' as int
  }

  predicate IsDigit(c: char)
  {
    '0' <= c <= '9'
  }

  /** `str(n)` for a non-negative integer: its decimal digits, most significant first. */
  function NatStr(n: nat): (s: string)
    ensures 1 <= |s|
    ensures forall i :: 0 <= i < |s| ==> IsDigit(s[i])
    ensures s[0] == '0' ==> n == 0 && s == "0"
    ensures n < 10 <==> |s| == 1
    decreases n
  {
    if n < 10 then [DigitChar(n)] else NatStr(n / 10) + [DigitChar(n % 10)]
  }

  /** Reads a run of decimal digits back as a number. */
  function ParseNat(s: string): int
  {
    if s == [] then 0 else ParseNat(s[..|s| - 1]) * 10 + DigitValue(s[|s| - 1])
  }

  lemma {:induction false} ParseNatStr(n: nat)
    ensures ParseNat(NatStr(n)) == n
    decreases n
  {
    var s := NatStr(n);
    if n >= 10 {
      ParseNatStr(n / 10);
      assert s[..|s| - 1] == NatStr(n / 10);
    }
  }

  /** `str(n)` for any integer: a minus sign in front of the digits of a negative number. */
  function IntStr(n: int): (s: string)
    ensures 1 <= |s|
    ensures s[0] == '-' <==> n < 0
  {
    if n < 0 then "-" + NatStr(-n) else NatStr(n)
  }

  function ParseInt(s: string): int
  {
    if |s| > 0 && s[0] == '-' then -ParseNat(s[1..]) else ParseNat(s)
  }

  /** `str` is injective on integers: the text reads back as the number it came from. */
  lemma {:induction false} IntStrRoundTrip(n: int)
    ensures ParseInt(IntStr(n)) == n
  {
    if n < 0 {
      ParseNatStr(-n);
      assert IntStr(n)[1..] == NatStr(-n);
    } else {
      ParseNatStr(n);
    }
  }

  /** `"{:.2f}".format(n / 1.0)` for an integer `n`: its digits followed by `.00`. */
  function Fixed2(n: int): string
  {
    IntStr(n) + ".00"
  }

  /** A two-decimal amount ends in `.00`, and what precedes that reads back as the amount. */
  lemma {:induction false} Fixed2RoundTrip(n: int)
    ensures |Fixed2(n)| == |IntStr(n)| + 3
    ensures Fixed2(n)[|Fixed2(n)| - 3..] == ".00"
    ensures ParseInt(Fixed2(n)[..|Fixed2(n)| - 3]) == n
  {
    assert Fixed2(n)[..|Fixed2(n)| - 3] == IntStr(n);
    IntStrRoundTrip(n);
  }
}
