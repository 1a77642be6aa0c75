/**
 Amounts as exact integers: money in fils (0.001 KWD), quantities in thousandths, products of the two in
 thousandths of a fil. Raw payload values are finite decimals, written as fractions.
 */
module Money {
  import opened Basics

  /** A payload value: absent, empty text, something that is no number, or a number (as JSON number or as text). */
  datatype Raw = Null | Blank | Junk(truthy: bool) | Number(num: int, den: int, text: bool)

  predicate WellFormed(v: Raw) { v.Number? ==> v.den > 0 }

  /** Truth of the value in a chain of `or`. */
  predicate Truthy(v: Raw)
  {
    match v
    case Null => false
    case Blank => false
    case Junk(t) => t
    case Number(n, _, text) => text || n != 0
  }

  function Or(a: Raw, b: Raw): Raw { if Truthy(a) then a else b }

  /** n/d rounded to the nearest integer, ties to the even one. */
  function HalfEven(n: int, d: int): (q: int)
    requires d != 0
    ensures d > 0 ==> Nearest(n, d, q)
  {
    if d < 0 then HalfEvenDown(-n, -d) else HalfEvenDown(n, d)
  }

  function HalfEvenDown(n: int, d: int): (q: int)
    requires d > 0
    ensures Nearest(n, d, q)
  {
    var q, r := n / d, n % d;
    assert n == q * d + r;
    assert (q + 1) * d == q * d + d;
    if 2 * r < d || (2 * r == d && q % 2 == 0) then q else q + 1
  }

  predicate Nearest(n: int, d: int, q: int)
  {
    2 * Abs(q * d - n) <= d && (2 * Abs(q * d - n) == d ==> q % 2 == 0)
  }

  lemma Multiple(k: int, d: int)
    requires d > 0
    ensures k >= 1 ==> k * d >= d
    ensures k >= 2 ==> k * d >= 2 * d
  {
    if k >= 2 { assert (k - 2) * d >= 0; }
  }

  lemma NearestOrdered(n: int, d: int, p: int, q: int)
    requires d > 0 && Nearest(n, d, p) && Nearest(n, d, q)
    ensures p <= q
  {
    var a, b := p * d - n, q * d - n;
    assert a - b == (p - q) * d;
    Multiple(p - q, d);
    assert p == q + 1 ==> (p - q) * d == d;
  }

  /** Rounding to nearest, ties to even, has one result only. */
  lemma HalfEvenUnique(n: int, d: int, q: int)
    requires d > 0 && Nearest(n, d, q)
    ensures HalfEven(n, d) == q
  {
    NearestOrdered(n, d, HalfEven(n, d), q);
    NearestOrdered(n, d, q, HalfEven(n, d));
  }

  lemma HalfEvenExact(q: int, d: int)
    requires d > 0
    ensures HalfEven(q * d, d) == q
  {
    HalfEvenUnique(q * d, d, q);
  }

  lemma HalfEvenNonNegative(n: int, d: int)
    requires n >= 0 && d > 0
    ensures HalfEven(n, d) >= 0
  {
    Multiple(-HalfEven(n, d), d);
  }

  /** Coercion to three decimals, with a default (in thousandths) for whatever is no number. */
  function Quantise(v: Raw, default_: int): int
    requires WellFormed(v)
  {
    match v
    case Number(n, d, _) => HalfEven(1000 * n, d)
    case _ => default_
  }

  function Fils(v: Raw): int
    requires WellFormed(v)
  {
    Quantise(v, 0)
  }

  /**
   A field with what stands in for it: a number counts unless it is the JSON number zero; nothing, empty text and
   other values that count as false give way to the other; anything else reads as zero.
   */
  function Read(v: Raw, otherwise: int): int
    requires WellFormed(v)
  {
    match v
    case Number(n, d, text) => if text || n != 0 then HalfEven(1000 * n, d) else otherwise
    case Null => otherwise
    case Blank => otherwise
    case Junk(truthy) => if truthy then 0 else otherwise
  }

  lemma OrReads(a: Raw, b: Raw)
    requires WellFormed(a) && WellFormed(b)
    ensures Fils(Or(a, b)) == Read(a, Fils(b)) && Fils(b) == Read(b, 0)
  {
    HalfEvenExact(0, if b.Number? then b.den else 1);
  }

  // ---- sums ----

  /** Sum of the first n elements. */
  function SumTo(s: seq<int>, n: nat): int
    requires n <= |s|
  {
    if n == 0 then 0 else SumTo(s, n - 1) + s[n - 1]
  }

  function Sum(s: seq<int>): int { SumTo(s, |s|) }

  lemma {:induction false} SumToPrefix(s: seq<int>, t: seq<int>, n: nat)
    requires n <= |s| && n <= |t| && forall i :: 0 <= i < n ==> s[i] == t[i]
    ensures SumTo(s, n) == SumTo(t, n)
  {
    if n > 0 { SumToPrefix(s, t, n - 1); }
  }

  lemma {:induction false} SumToAppend(s: seq<int>, t: seq<int>, n: nat)
    requires n <= |t|
    ensures SumTo(s + t, |s| + n) == Sum(s) + SumTo(t, n)
  {
    if n == 0 {
      SumToPrefix(s + t, s, |s|);
    } else {
      SumToAppend(s, t, n - 1);
    }
  }

  lemma SumAppend(s: seq<int>, t: seq<int>)
    ensures Sum(s + t) == Sum(s) + Sum(t)
  {
    SumToAppend(s, t, |t|);
  }

  lemma {:induction false} SumToUpdate(s: seq<int>, i: nat, x: int, n: nat)
    requires i < |s| && n <= |s|
    ensures SumTo(s[i := x], n) == SumTo(s, n) + (if i < n then x - s[i] else 0)
  {
    if n > 0 { SumToUpdate(s, i, x, n - 1); }
  }

  lemma SumUpdate(s: seq<int>, i: nat, x: int)
    requires i < |s|
    ensures Sum(s[i := x]) == Sum(s) + x - s[i]
  {
    SumToUpdate(s, i, x, |s|);
  }
}
