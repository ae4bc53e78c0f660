/**
 * Small building blocks shared by the whole model: an Option type, real
 * clamps, the two sorted-search primitives that numpy's `searchsorted`
 * provides, and decimal text for integers (Python's `str(int)` and `int(str)`).
 */
module Common {

  datatype Option<T> = None | Some(value: T)

  /** An (r, g, b) triple as the source passes colours around. */
  datatype Rgb = Rgb(r: int, g: int, b: int)

  function Abs(x: real): (r: real)
    ensures r >= 0.0
    ensures r == x || r == -x
  {
    if x < 0.0 then -x else x
  }

  function Min(a: real, b: real): (r: real)
    ensures r <= a && r <= b
    ensures r == a || r == b
  {
    if a <= b then a else b
  }

  function Max(a: real, b: real): (r: real)
    ensures r >= a && r >= b
    ensures r == a || r == b
  {
    if a >= b then a else b
  }

  /** numpy's `clip(x, lo, hi)`, that is `min(max(x, lo), hi)`. */
  function Clip(x: real, lo: real, hi: real): (r: real)
    requires lo <= hi
    ensures lo <= r <= hi
    ensures lo <= x <= hi ==> r == x
    ensures x < lo ==> r == lo
    ensures x > hi ==> r == hi
  {
    if x < lo then lo else if x > hi then hi else x
  }

  /** Python's `int(x)` on a float: truncation toward zero. */
  function Trunc(x: real): (r: int)
    ensures x >= 0.0 ==> r as real <= x < r as real + 1.0
    ensures x < 0.0 ==> r as real - 1.0 < x <= r as real
  {
    if x >= 0.0 then x.Floor else -((-x).Floor)
  }

  ghost predicate Sorted(s: seq<real>)
  {
    forall i, j :: 0 <= i < j < |s| ==> s[i] <= s[j]
  }

  /**
   * `searchsorted(s, x, side='left')`: the length of the longest prefix
   * whose entries are all below x.  On a sorted sequence that is the number
   * of entries below x, and the first index whose entry is >= x.
   */
  function SearchLeft(s: seq<real>, x: real): (k: nat)
    ensures k <= |s|
    ensures Sorted(s) ==> (forall i :: 0 <= i < k ==> s[i] < x) && (forall i :: k <= i < |s| ==> s[i] >= x)
  {
    if s == [] then 0
    else if s[0] < x then 1 + SearchLeft(s[1..], x)
    else
      assert Sorted(s) ==> forall i :: 0 <= i < |s| ==> s[i] >= x by {
        if Sorted(s) { forall i | 0 <= i < |s| ensures s[i] >= x { assert s[0] <= s[i]; } }
      }
      0
  }

  /**
   * `searchsorted(s, x, side='right')`: the length of the longest prefix
   * whose entries are all at or below x.  On a sorted sequence that is the
   * number of entries at or below x, and the first index whose entry is > x.
   */
  function SearchRight(s: seq<real>, x: real): (k: nat)
    ensures k <= |s|
    ensures Sorted(s) ==> (forall i :: 0 <= i < k ==> s[i] <= x) && (forall i :: k <= i < |s| ==> s[i] > x)
  {
    if s == [] then 0
    else if s[0] <= x then 1 + SearchRight(s[1..], x)
    else
      assert Sorted(s) ==> forall i :: 0 <= i < |s| ==> s[i] > x by {
        if Sorted(s) { forall i | 0 <= i < |s| ensures s[i] > x { assert s[0] <= s[i]; } }
      }
      0
  }

  /**
   * The binary search numpy performs for `searchsorted(s, x, side='right')`,
   * proved to agree with the specification above on sorted input.
   */
  method BisectRight(s: seq<real>, x: real) returns (k: nat)
    requires Sorted(s)
    ensures k == SearchRight(s, x)
    ensures forall i :: 0 <= i < k ==> s[i] <= x
    ensures forall i :: k <= i < |s| ==> s[i] > x
  {
    var lo, hi := 0, |s|;
    while lo < hi
      invariant 0 <= lo <= hi <= |s|
      invariant forall i :: 0 <= i < lo ==> s[i] <= x
      invariant forall i :: hi <= i < |s| ==> s[i] > x
    {
      var mid := (lo + hi) / 2;
      if s[mid] <= x {
        lo := mid + 1;
      } else {
        hi := mid;
      }
    }
    k := lo;
    SearchRightUnique(s, x, k);
  }

  /** Any split point of a sorted sequence around x is the one SearchRight finds. */
  lemma SearchRightUnique(s: seq<real>, x: real, k: nat)
    requires Sorted(s) && k <= |s|
    requires forall i :: 0 <= i < k ==> s[i] <= x
    requires forall i :: k <= i < |s| ==> s[i] > x
    ensures k == SearchRight(s, x)
  {
    var m := SearchRight(s, x);
    if k < |s| { assert s[k] > x; }
    if m < |s| { assert s[m] > x; }
  }

  // ---------------------------------------------------------------------
  // Row-major flat layout (entry j * n + c holds row j, column c)
  // ---------------------------------------------------------------------

  lemma {:induction false} MulAtLeast(a: nat, n: nat)
    requires a >= 1
    ensures a * n >= n
    decreases a
  {
    if a > 1 {
      MulAtLeast(a - 1, n);
      assert a * n == (a - 1) * n + n;
    }
  }

  /** Quotient and remainder are unique. */
  lemma DivModUnique(q1: int, r1: int, q2: int, r2: int, n: nat)
    requires 0 <= r1 < n && 0 <= r2 < n && q1 * n + r1 == q2 * n + r2
    ensures q1 == q2 && r1 == r2
  {
    if q1 > q2 {
      MulAtLeast(q1 - q2, n);
    } else if q2 > q1 {
      MulAtLeast(q2 - q1, n);
    }
  }

  lemma FlatIndex(j: nat, c: nat, n: nat)
    requires c < n
    ensures (j * n + c) / n == j && (j * n + c) % n == c
  {
    var k := j * n + c;
    DivModUnique(k / n, k % n, j, c, n);
  }

  lemma FlatBounds(k: int, rows: nat, n: nat)
    requires 0 <= k < rows * n
    ensures n > 0 && 0 <= k / n < rows && 0 <= k % n < n
    ensures k == (k / n) * n + k % n
  {
  }

  // ---------------------------------------------------------------------
  // Decimal text
  // ---------------------------------------------------------------------

  function DigitChar(d: int): (c: char)
    requires 0 <= d < 10
    ensures '0' <= c <= '9'
  {
    ('0' as int + d) as char
  }

  predicate IsDigit(c: char) { '0' <= c <= '9' }

  predicate AllDigits(s: string) { forall i :: 0 <= i < |s| ==> IsDigit(s[i]) }

  /** Python's `str(n)` for a natural number. */
  function NatToString(n: nat): (s: string)
    ensures |s| >= 1 && AllDigits(s)
    decreases n
  {
    if n < 10 then [DigitChar(n)] else NatToString(n / 10) + [DigitChar(n % 10)]
  }

  /** Python's `str(i)` for any integer. */
  function IntToString(i: int): (s: string)
    ensures |s| >= 1
  {
    if i < 0 then "-" + NatToString(-i) else NatToString(i)
  }

  function DigitsValue(s: string): (n: nat)
    requires AllDigits(s)
  {
    if s == [] then 0 else 10 * DigitsValue(s[..|s| - 1]) + (s[|s| - 1] as int - '0' as int)
  }

  /**
   * Python's `int(s)` restricted to ASCII: an optional sign followed by one
   * or more digits; anything else raises ValueError (None here).  Python
   * also accepts surrounding whitespace, `_` between digits and non-ASCII
   * digits; those are rejected here.
   */
  function ParseInt(s: string): (r: Option<int>)
    ensures r.Some? ==> |s| >= 1
    ensures r.Some? && AllDigits(s) ==> r.value >= 0
  {
    if |s| >= 2 && s[0] == '-' && AllDigits(s[1..]) then Some(-(DigitsValue(s[1..]) as int))
    else if |s| >= 2 && s[0] == '+' && AllDigits(s[1..]) then Some(DigitsValue(s[1..]))
    else if |s| >= 1 && AllDigits(s) then Some(DigitsValue(s))
    else None
  }

  lemma {:induction false} DigitsRoundTrip(n: nat)
    ensures DigitsValue(NatToString(n)) == n
    decreases n
  {
    var s := NatToString(n);
    if n < 10 {
      assert s[..|s| - 1] == [];
    } else {
      DigitsRoundTrip(n / 10);
      assert s[..|s| - 1] == NatToString(n / 10);
    }
  }

  /** `int(str(i)) == i` for every integer. */
  lemma IntStringRoundTrip(i: int)
    ensures ParseInt(IntToString(i)) == Some(i)
  {
    if i < 0 {
      DigitsRoundTrip(-i);
      assert IntToString(i)[1..] == NatToString(-i);
    } else {
      DigitsRoundTrip(i);
    }
  }

  // ---------------------------------------------------------------------
  // Bytes and bits
  // ---------------------------------------------------------------------

  /** One element of Python's `bytes` / `bytearray`. */
  newtype byte = x: int | 0 <= x < 256

  function Pow2(k: nat): (p: nat)
    ensures p >= 1
  {
    if k == 0 then 1 else 2 * Pow2(k - 1)
  }

  /** Python's `a | b` on non-negative integers, bit by bit. */
  function BitOr(a: nat, b: nat): (r: nat)
    ensures r >= a && r >= b
    decreases a + b
  {
    if a == 0 then b
    else if b == 0 then a
    else 2 * BitOr(a / 2, b / 2) + (if a % 2 == 1 || b % 2 == 1 then 1 else 0)
  }

  /** OR-ing a value below 2^k into a multiple of 2^k is addition. */
  lemma {:induction false} BitOrShifted(h: nat, l: nat, k: nat)
    requires l < Pow2(k)
    ensures BitOr(Pow2(k) * h, l) == Pow2(k) * h + l
    decreases k
  {
    if k > 0 && h != 0 && l != 0 {
      var a := Pow2(k) * h;
      assert a == 2 * (Pow2(k - 1) * h);
      assert a / 2 == Pow2(k - 1) * h && a % 2 == 0;
      BitOrShifted(h, l / 2, k - 1);
    }
  }

  /** An OR fits in k bits exactly when both operands do. */
  lemma {:induction false} BitOrBelow(a: nat, b: nat, k: nat)
    ensures BitOr(a, b) < Pow2(k) <==> a < Pow2(k) && b < Pow2(k)
    decreases k
  {
    if k > 0 && a != 0 && b != 0 {
      BitOrBelow(a / 2, b / 2, k - 1);
    } else if k == 0 && a != 0 && b != 0 {
      assert BitOr(a, b) >= a >= 1;
    }
  }
}
