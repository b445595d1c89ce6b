/**
  Byte-wise string order and decimal numerals. Go compares strings byte by byte
  (`strings.Compare`, `sort.Strings`, `<=` on strings); every string ordered in
  this project is ASCII, so the order on `char` is the same order.
 */
module Text {

  function Sign(x: int): (s: int)
    ensures s == 0 <==> x == 0
  {
    if x < 0 then -1 else if x > 0 then 1 else 0
  }

  /** `strings.Compare`: -1, 0 or 1. */
  function Compare(a: string, b: string): (order: int)
    ensures order == -1 || order == 0 || order == 1
  {
    if a == [] then (if b == [] then 0 else -1)
    else if b == [] then 1
    else if a[0] != b[0] then (if a[0] < b[0] then -1 else 1)
    else Compare(a[1..], b[1..])
  }

  predicate Less(a: string, b: string) {
    Compare(a, b) < 0
  }

  lemma {:induction false} CompareFlips(a: string, b: string)
    ensures Compare(b, a) == -Compare(a, b)
    ensures Compare(a, b) == 0 <==> a == b
  {
    if a != [] && b != [] && a[0] == b[0] {
      CompareFlips(a[1..], b[1..]);
      assert a == [a[0]] + a[1..] && b == [b[0]] + b[1..];
    }
  }

  lemma {:induction false} CompareTransitive(a: string, b: string, c: string)
    requires Compare(a, b) <= 0 && Compare(b, c) <= 0
    ensures Compare(a, c) <= 0
    ensures Compare(a, c) == 0 ==> Compare(a, b) == 0 && Compare(b, c) == 0
  {
    if a != [] && b != [] && c != [] && a[0] == b[0] == c[0] {
      CompareTransitive(a[1..], b[1..], c[1..]);
    }
  }

  /** Appending one character to two strings of equal length. */
  lemma {:induction false} CompareSnoc(a: string, b: string, c: char, d: char)
    requires |a| == |b|
    ensures Compare(a + [c], b + [d]) ==
            if Compare(a, b) != 0 then Compare(a, b) else if c < d then -1 else if c > d then 1 else 0
  {
    if a != [] {
      assert (a + [c])[1..] == a[1..] + [c] && (b + [d])[1..] == b[1..] + [d];
      CompareSnoc(a[1..], b[1..], c, d);
    }
  }

  predicate Lacks(s: string, c: char) {
    forall i :: 0 <= i < |s| ==> s[i] != c
  }

  /** Two texts separated by `c` agree only part by part. */
  lemma SplitAt(c: char, a: string, b: string, x: string, y: string)
    requires Lacks(a, c) && Lacks(x, c) && a + [c] + b == x + [c] + y
    ensures a == x && b == y
  {
    var s, t := a + [c] + b, x + [c] + y;
    assert s[|a|] == c && t[|x|] == c;
    assert forall i :: 0 <= i < |a| ==> s[i] == a[i];
    assert forall i :: 0 <= i < |x| ==> t[i] == x[i];
    assert |a| == |x|;
    assert s[..|a|] == a && t[..|x|] == x && s[|a| + 1..] == b && t[|x| + 1..] == y;
  }

  // ---------------------------------------------------------------- numerals

  predicate IsDigit(c: char) {
    '0' <= c <= '9'
  }

  predicate Digits(s: string) {
    forall i :: 0 <= i < |s| ==> IsDigit(s[i])
  }

  function Digit(c: char): nat
    requires IsDigit(c)
  {
    c as int - '0' as int
  }

  /** The number a digit string denotes. */
  function Value(s: string): nat
    requires Digits(s)
  {
    if s == [] then 0 else Value(s[..|s| - 1]) * 10 + Digit(s[|s| - 1])
  }

  function DigitChar(d: nat): (c: char)
    requires d < 10
    ensures IsDigit(c) && Digit(c) == d
  {
    '0' + d as char
  }

  function Power10(width: nat): nat {
    if width == 0 then 1 else 10 * Power10(width - 1)
  }

  const MAX_UINT64: nat := 0xFFFF_FFFF_FFFF_FFFF

  lemma FitsTwentyDigits(n: nat)
    requires n <= MAX_UINT64
    ensures n < Power10(20)
  {
    assert Power10(5) == 100000;
    assert Power10(10) == 100000 * 100000;
    assert Power10(15) == 100000 * 100000 * 100000;
    assert Power10(20) == 100000 * 100000 * 100000 * 100000;
  }

  /** The decimal numeral of a number, without leading zeros. */
  function Decimal(n: nat): (s: string)
    ensures Digits(s) && s != [] && Value(s) == n
    ensures n != 0 ==> s[0] != '0'
  {
    if n < 10 then [DigitChar(n)] else
      var front := Decimal(n / 10);
      var s := front + [DigitChar(n % 10)];
      assert s[..|s| - 1] == front;
      s
  }

  /** On numerals of one length the string order is the numeric order. */
  lemma {:induction false} EqualLengthOrder(p: string, q: string)
    requires Digits(p) && Digits(q) && |p| == |q|
    ensures Compare(p, q) == Sign(Value(p) - Value(q))
  {
    if p != [] {
      var n := |p| - 1;
      assert p == p[..n] + [p[n]] && q == q[..n] + [q[n]];
      EqualLengthOrder(p[..n], q[..n]);
      CompareSnoc(p[..n], q[..n], p[n], q[n]);
    }
  }

  lemma {:induction false} NonzeroHead(q: string)
    requires Digits(q) && q != [] && q[0] != '0'
    ensures Value(q) > 0
  {
    if |q| > 1 { NonzeroHead(q[..|q| - 1]); }
  }

  /** A longer numeral without a leading zero denotes a larger number. */
  lemma {:induction false} LongerIsLarger(p: string, q: string)
    requires Digits(p) && Digits(q) && |p| < |q| && q[0] != '0'
    ensures Value(p) < Value(q)
  {
    if p == [] {
      NonzeroHead(q);
    } else {
      LongerIsLarger(p[..|p| - 1], q[..|q| - 1]);
    }
  }
}
