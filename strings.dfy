/** Python's string repetition, `sep.join` and `str.split('\n')`, on `seq<char>`. */
module Strings {

  /** `s * n`: `n` copies of `s`, and the empty string when `n` is zero or negative. */
  function Repeat(s: string, n: int): (r: string)
    ensures n <= 0 ==> r == []
    ensures n > 0 ==> |r| == |s| * n
    ensures forall i :: 0 <= i < |r| ==> r[i] in s
    decreases n
  {
    if n <= 0 then [] else Repeat(s, n - 1) + s
  }

  /** The copies follow one another: position `i` of `s * n` holds `s[i % len(s)]`. */
  lemma {:induction false} RepeatCycles(s: string, n: int)
    requires n > 0
    ensures var r := Repeat(s, n);
      forall i :: 0 <= i < |r| ==> r[i] == s[i % |s|]
    decreases n
  {
    var r, init := Repeat(s, n), Repeat(s, n - 1);
    assert r == init + s;
    if n > 1 {
      RepeatCycles(s, n - 1);
    }
    forall i | 0 <= i < |r|
      ensures r[i] == s[i % |s|]
    {
      if i < |init| {
        assert r[i] == init[i];
      } else {
        LastCopy(s, n, i);
      }
    }
  }

  /** Past the first `n - 1` copies, position `i` of `s * n` lies in the last copy. */
  lemma LastCopy(s: string, n: int, i: int)
    requires n > 0 && |Repeat(s, n - 1)| <= i < |Repeat(s, n)|
    ensures Repeat(s, n)[i] == s[i % |s|]
  {
    var init := Repeat(s, n - 1);
    assert |init| == (n - 1) * |s|;
    RemainderPastMultiple(i, n - 1, |s|);
  }

  /** A number `k * m + d` with `0 <= d < m` leaves remainder `d` on division by `m`. */
  lemma RemainderPastMultiple(i: int, k: nat, m: nat)
    requires m > 0 && k * m <= i < k * m + m
    ensures i % m == i - k * m
  {
    var q, r := i / m, i % m;
    assert q * m + r == i;
    assert (q - k) * m == q * m - k * m;
    if q > k {
      assert (q - k) * m >= m by { MultiplyAtLeast(q - k, m); }
    } else if q < k {
      assert (k - q) * m >= m by { MultiplyAtLeast(k - q, m); }
    }
  }

  lemma MultiplyAtLeast(a: int, m: nat)
    requires a >= 1
    ensures a * m >= m
  {
    assert a * m == (a - 1) * m + m;
  }

  /** `sep.join(xs)`. */
  function Join(xs: seq<string>, sep: string): string
  {
    if |xs| == 0 then ""
    else if |xs| == 1 then xs[0]
    else Join(xs[..|xs| - 1], sep) + sep + xs[|xs| - 1]
  }

  /** `s.split('\n')`: the pieces between newlines; never empty. */
  function Split(s: string): (r: seq<string>)
    ensures |r| >= 1
  {
    if s == [] then [[]]
    else
      var rest := Split(s[1..]);
      if s[0] == '\n' then [[]] + rest
      else [[s[0]] + rest[0]] + rest[1..]
  }

  lemma {:induction false} SplitWithoutNewline(s: string)
    requires '\n' !in s
    ensures Split(s) == [s]
  {
    if s != [] {
      SplitWithoutNewline(s[1..]);
      assert [s[0]] + s[1..] == s;
    }
  }

  /** A leading newline splits off an empty first piece. */
  lemma {:induction false} SplitLeadingNewline(b: string)
    ensures Split("\n" + b) == [[]] + Split(b)
  {
    assert ("\n" + b)[1..] == b;
  }

  /** Splitting at a newline splits the two sides independently. */
  lemma {:induction false} SplitAtNewline(a: string, b: string)
    ensures Split(a + "\n" + b) == Split(a) + Split(b)
    decreases |a|
  {
    if a == [] {
      assert a + "\n" + b == "\n" + b;
      assert ("\n" + b)[1..] == b;
    } else {
      var s := a + "\n" + b;
      assert s[0] == a[0];
      assert s[1..] == a[1..] + "\n" + b;
      SplitAtNewline(a[1..], b);
    }
  }

  /** Lines joined with newlines split back into the same lines. */
  lemma {:induction false} SplitJoin(xs: seq<string>)
    requires |xs| >= 1
    requires forall i :: 0 <= i < |xs| ==> '\n' !in xs[i]
    ensures Split(Join(xs, "\n")) == xs
    decreases |xs|
  {
    var last := xs[|xs| - 1];
    SplitWithoutNewline(last);
    if |xs| > 1 {
      var init := xs[..|xs| - 1];
      SplitJoin(init);
      SplitAtNewline(Join(init, "\n"), last);
      assert init + [last] == xs;
    }
  }
}
