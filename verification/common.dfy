/** Shared vocabulary for the dashboard model: optional values, error results,
    substring search, order-preserving filtering, and the small pieces of
    numeric behaviour (JavaScript's Math.round, clamping, sums and extrema)
    that several source files rely on. */
module Common {

  datatype Option<T> = None | Some(value: T)

  /** A value or the message of the exception the source raises instead. */
  datatype Result<T> = Ok(value: T) | Err(msg: string)

  // ---------------------------------------------------------------- strings

  /** `sub` occurs in `s` at position `i`. */
  predicate OccursAt(s: string, sub: string, i: nat)
  {
    i + |sub| <= |s| && s[i..i + |sub|] == sub
  }

  /** JavaScript's `s.includes(sub)` and Python's `sub in s`: a search from
      the left for a position where `sub` occurs. */
  predicate Contains(s: string, sub: string)
    decreases |s|
  {
    if |sub| > |s| then false
    else s[..|sub|] == sub || (s != [] && Contains(s[1..], sub))
  }

  /** An occurrence is found by the search. */
  lemma {:induction false} OccurrenceContained(s: string, sub: string, i: nat)
    requires OccursAt(s, sub, i)
    ensures Contains(s, sub)
  {
    if i > 0 {
      assert s[1..][i - 1..i - 1 + |sub|] == s[i..i + |sub|];
      OccurrenceContained(s[1..], sub, i - 1);
    }
  }

  /** The search succeeds only where `sub` occurs. */
  lemma {:induction false} ContainedOccurs(s: string, sub: string) returns (i: nat)
    requires Contains(s, sub)
    ensures OccursAt(s, sub, i)
  {
    if s[..|sub|] == sub {
      i := 0;
    } else {
      var j := ContainedOccurs(s[1..], sub);
      assert s[1..][j..j + |sub|] == s[j + 1..j + 1 + |sub|];
      i := j + 1;
    }
  }

  /** If some character of `sub` never occurs in `s`, then `sub` does not occur in `s`. */
  lemma {:induction false} MissingCharNotContained(s: string, sub: string, k: nat)
    requires k < |sub|
    requires forall j :: 0 <= j < |s| ==> s[j] != sub[k]
    ensures !Contains(s, sub)
  {
    if |sub| <= |s| {
      assert s[..|sub|][k] == s[k];
      if s != [] {
        MissingCharNotContained(s[1..], sub, k);
      }
    }
  }

  /** If every character of `s` is drawn from `letters` and some character of
      `sub` is not, then `sub` does not occur in `s`. */
  lemma LetterOutsideNotContained(s: string, letters: set<char>, sub: string, k: nat)
    requires forall j :: 0 <= j < |s| ==> s[j] in letters
    requires k < |sub| && sub[k] !in letters
    ensures !Contains(s, sub)
  {
    MissingCharNotContained(s, sub, k);
  }

  /** If two adjacent characters of `sub` never occur side by side in `s`,
      then `sub` does not occur in `s`. */
  lemma {:induction false} MissingPairNotContained(s: string, sub: string, k: nat)
    requires k + 1 < |sub|
    requires forall j :: 0 <= j < |s| - 1 ==> !(s[j] == sub[k] && s[j + 1] == sub[k + 1])
    ensures !Contains(s, sub)
  {
    if |sub| <= |s| {
      assert s[..|sub|][k] == s[k] && s[..|sub|][k + 1] == s[k + 1];
      if s != [] {
        MissingPairNotContained(s[1..], sub, k);
      }
    }
  }

  // ------------------------------------------------------------ sequences

  /** The middle part of a concatenation is found back by slicing. */
  lemma MiddleOfConcat<T>(x: seq<T>, y: seq<T>, z: seq<T>)
    ensures (x + y + z)[|x|..|x| + |y|] == y
    ensures (x + y + z)[|x| + |y|..] == z
  {
    assert (x + y + z)[|x|..] == y + z;
  }

  /** JavaScript's `Array.prototype.filter` and a Python list comprehension with a guard. */
  function Filter<T(==)>(s: seq<T>, keep: T -> bool): (r: seq<T>)
    ensures |r| <= |s|
    ensures forall i :: 0 <= i < |r| ==> r[i] in s && keep(r[i])
    ensures forall i :: 0 <= i < |s| && keep(s[i]) ==> s[i] in r
  {
    if s == [] then []
    else (if keep(s[0]) then [s[0]] else []) + Filter(s[1..], keep)
  }

  lemma {:induction false} FilterAppend<T>(a: seq<T>, b: seq<T>, keep: T -> bool)
    ensures Filter(a + b, keep) == Filter(a, keep) + Filter(b, keep)
  {
    if a == [] {
      assert a + b == b;
    } else {
      assert (a + b)[1..] == a[1..] + b;
      FilterAppend(a[1..], b, keep);
    }
  }

  /** `sub` is obtained from `s` by deleting elements, without reordering. */
  predicate IsSubsequence<T(==)>(sub: seq<T>, s: seq<T>)
    decreases |s|
  {
    if sub == [] then true
    else if s == [] then false
    else if sub[0] == s[0] then IsSubsequence(sub[1..], s[1..])
    else IsSubsequence(sub, s[1..])
  }

  lemma {:induction false} FilterIsSubsequence<T>(s: seq<T>, keep: T -> bool)
    ensures IsSubsequence(Filter(s, keep), s)
  {
    if s != [] {
      FilterIsSubsequence(s[1..], keep);
      if keep(s[0]) {
        assert Filter(s, keep)[0] == s[0] && Filter(s, keep)[1..] == Filter(s[1..], keep);
      } else {
        assert Filter(s, keep) == Filter(s[1..], keep);
        SubsequenceOfTail(Filter(s[1..], keep), s);
      }
    }
  }

  lemma {:induction false} SubsequenceOfTail<T>(sub: seq<T>, s: seq<T>)
    requires s != [] && IsSubsequence(sub, s[1..])
    ensures IsSubsequence(sub, s)
    decreases |s|, 0
  {
    if sub != [] && sub[0] == s[0] {
      // the head of `sub` may also be matched at the head of `s`
      SubsequenceDropHead(sub, s[1..]);
    }
  }

  lemma {:induction false} SubsequenceDropHead<T>(sub: seq<T>, s: seq<T>)
    requires sub != [] && IsSubsequence(sub, s)
    ensures IsSubsequence(sub[1..], s)
    decreases |s|, 1
  {
    if s == [] {
    } else if sub[0] == s[0] {
      SubsequenceOfTail(sub[1..], s);
    } else {
      SubsequenceDropHead(sub, s[1..]);
      SubsequenceOfTail(sub[1..], s);
    }
  }

  /** Python's and JavaScript's prefix slice `s[:n]` / `s.slice(0, n)`: a
      negative `n` counts from the end. */
  function SlicePrefix<T>(s: seq<T>, n: int): (r: seq<T>)
    ensures r <= s
    ensures 0 <= n ==> |r| == if n < |s| then n else |s|
    ensures n < 0 ==> |r| == if |s| + n > 0 then |s| + n else 0
  {
    if n >= 0 then (if n < |s| then s[..n] else s)
    else if |s| + n > 0 then s[..|s| + n] else []
  }

  // -------------------------------------------------------------- numbers

  function Min(a: real, b: real): real { if a <= b then a else b }
  function Max(a: real, b: real): real { if a >= b then a else b }

  /** `Math.max(lo, Math.min(hi, x))` and Python's `max(lo, min(hi, x))`. */
  function Clamp(lo: real, hi: real, x: real): (r: real)
    requires lo <= hi
    ensures lo <= r <= hi
    ensures lo <= x <= hi ==> r == x
  {
    Max(lo, Min(hi, x))
  }

  function Abs(x: real): real { if x < 0.0 then -x else x }

  /** JavaScript's `Math.round`: the nearest integer, halves rounded up. */
  function Round(x: real): (r: real)
    ensures r.Floor as real == r
    ensures x - 0.5 < r <= x + 0.5
  {
    (x + 0.5).Floor as real
  }

  lemma RoundMonotone(x: real, y: real)
    requires x <= y
    ensures Round(x) <= Round(y)
  {
    var a, b := (x + 0.5).Floor, (y + 0.5).Floor;
    assert a as real <= x + 0.5 && y + 0.5 < b as real + 1.0;
    assert a < b + 1;
  }

  /** Rounding keeps a value inside any interval with integer end points. */
  lemma RoundWithin(x: real, lo: int, hi: int)
    ensures lo as real <= x <= hi as real ==> lo as real <= Round(x) <= hi as real
  {
    var a := (x + 0.5).Floor;
    if lo as real <= x <= hi as real {
      assert a as real <= x + 0.5 < a as real + 1.0;
      assert (lo - 1) as real < a as real;
      assert a as real < (hi + 1) as real;
      assert lo - 1 < a < hi + 1;
    }
  }

  /** Python's `round(x)` on a number: the nearest integer, halves to the even one. */
  function RoundHalfEven(x: real): (r: int)
    ensures x - 0.5 <= r as real <= x + 0.5
    ensures x.Floor as real == x ==> r == x.Floor
    ensures x - x.Floor as real == 0.5 ==> r % 2 == 0
  {
    var f := x.Floor;
    var d := x - f as real;
    if d < 0.5 then f
    else if d > 0.5 then f + 1
    else if f % 2 == 0 then f else f + 1
  }

  lemma RoundHalfEvenMonotone(x: real, y: real)
    requires x <= y
    ensures RoundHalfEven(x) <= RoundHalfEven(y)
  {
    var fx, fy := x.Floor, y.Floor;
    if fx == fy {
      assert x - fx as real <= y - fy as real;
    } else {
      assert fx < fy;
    }
  }

  function Pow10(n: nat): (p: nat)
    ensures p >= 1
  {
    if n == 0 then 1 else 10 * Pow10(n - 1)
  }

  /** Dividing by a positive number keeps order. */
  lemma DivideKeepsOrder(a: real, b: real, p: real)
    requires 0.0 < p && a <= b
    ensures a / p <= b / p
  {
    assert (b / p - a / p) * p == b - a;
  }

  /** `x` times 10^n. */
  function Scale(x: real, n: nat): real
  {
    x * Pow10(n) as real
  }

  lemma ScaleKeepsOrder(x: real, y: real, n: nat)
    requires x <= y
    ensures Scale(x, n) <= Scale(y, n)
  {
    assert Scale(y, n) - Scale(x, n) == (y - x) * Pow10(n) as real;
  }

  /** Python's `round(x, n)`: the nearest multiple of 10^-n, halves to even. */
  function RoundDecimals(x: real, n: nat): (r: real)
    ensures x - 0.5 / Pow10(n) as real <= r <= x + 0.5 / Pow10(n) as real
  {
    RoundDecimalsWithin(x, n);
    RoundHalfEven(Scale(x, n)) as real / Pow10(n) as real
  }

  lemma RoundDecimalsWithin(x: real, n: nat)
    ensures x - 0.5 / Pow10(n) as real <= RoundHalfEven(Scale(x, n)) as real / Pow10(n) as real <= x + 0.5 / Pow10(n) as real
  {
    var p := Pow10(n) as real;
    var s := Scale(x, n);
    assert s == x * p;
    WithinAfterDivide(x, p, RoundHalfEven(s) as real);
  }

  lemma WithinAfterDivide(x: real, p: real, k: real)
    requires 0.0 < p && x * p - 0.5 <= k <= x * p + 0.5
    ensures x - 0.5 / p <= k / p <= x + 0.5 / p
  {
    DivideKeepsOrder(x * p - 0.5, k, p);
    DivideKeepsOrder(k, x * p + 0.5, p);
    assert (x * p - 0.5) / p == x - 0.5 / p;
    assert (x * p + 0.5) / p == x + 0.5 / p;
  }

  /** Rounding to `n` decimals keeps the order of its arguments. */
  lemma RoundDecimalsMonotone(x: real, y: real, n: nat)
    requires x <= y
    ensures RoundDecimals(x, n) <= RoundDecimals(y, n)
  {
    ScaleKeepsOrder(x, y, n);
    RoundHalfEvenMonotone(Scale(x, n), Scale(y, n));
    DivideKeepsOrder(RoundHalfEven(Scale(x, n)) as real, RoundHalfEven(Scale(y, n)) as real, Pow10(n) as real);
  }

  /** A whole number is unchanged by rounding to any number of decimals. */
  lemma RoundDecimalsOfWhole(x: real, n: nat)
    requires x.Floor as real == x
    ensures RoundDecimals(x, n) == x
  {
    var p := Pow10(n);
    var w := x.Floor * p;
    ProductAsReal(x.Floor, p);
    assert Scale(x, n) == w as real;
    assert RoundHalfEven(Scale(x, n)) == w;
    assert w as real / p as real == x;
  }

  /** Converting a product of integers to a real. */
  lemma ProductAsReal(x: int, y: int)
    ensures (x * y) as real == x as real * y as real
  {
  }

  /** Python's `int(x)` on a number: truncation toward zero. */
  function Trunc(x: real): (r: int)
    ensures 0.0 <= x ==> r as real <= x < r as real + 1.0
    ensures x <= 0.0 ==> r as real - 1.0 < x <= r as real
  {
    if x >= 0.0 then x.Floor else -((-x).Floor)
  }

  /** The fractional part `x % 1` of a non-negative JavaScript number. */
  function Frac(x: real): (r: real)
    requires x >= 0.0
    ensures 0.0 <= r < 1.0
    ensures (x - r).Floor as real == x - r
  {
    x - x.Floor as real
  }

  function Sum(s: seq<real>): real
  {
    if s == [] then 0.0 else s[0] + Sum(s[1..])
  }

  /** `max(s)`: the largest element. */
  function MaxOf(s: seq<real>): (r: real)
    requires s != []
    ensures r in s
    ensures forall x :: x in s ==> x <= r
  {
    assert forall x :: x in s ==> x == s[0] || x in s[1..];
    if |s| == 1 then s[0] else Max(s[0], MaxOf(s[1..]))
  }

  /** `min(s)`: the smallest element. */
  function MinOf(s: seq<real>): (r: real)
    requires s != []
    ensures r in s
    ensures forall x :: x in s ==> r <= x
  {
    assert forall x :: x in s ==> x == s[0] || x in s[1..];
    if |s| == 1 then s[0] else Min(s[0], MinOf(s[1..]))
  }

  /** The arithmetic mean `sum(s) / len(s)`. */
  function Mean(s: seq<real>): real
    requires s != []
  {
    Sum(s) / |s| as real
  }

  lemma {:induction false} SumBounds(s: seq<real>, lo: real, hi: real)
    requires forall x :: x in s ==> lo <= x <= hi
    ensures |s| as real * lo <= Sum(s) <= |s| as real * hi
  {
    if s != [] {
      assert forall x :: x in s[1..] ==> x in s;
      assert s[0] in s;
      SumBounds(s[1..], lo, hi);
      var m := |s[1..]| as real;
      assert |s| as real * lo == m * lo + lo;
      assert |s| as real * hi == m * hi + hi;
    }
  }

  /** The mean lies between the smallest and the largest element. */
  lemma MeanBetweenMinAndMax(s: seq<real>)
    requires s != []
    ensures MinOf(s) <= Mean(s) <= MaxOf(s)
  {
    SumBounds(s, MinOf(s), MaxOf(s));
    var n := |s| as real;
    DivideBounds(Sum(s), n, MinOf(s), MaxOf(s));
  }

  lemma DivideBounds(a: real, n: real, lo: real, hi: real)
    requires n > 0.0 && n * lo <= a <= n * hi
    ensures lo <= a / n <= hi
  {
    var q := a / n;
    assert a == n * q;
    assert n * (q - lo) >= 0.0 && n * (hi - q) >= 0.0;
  }
}
