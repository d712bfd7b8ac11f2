/**
 Circular sequence numbers: the values 0..max arranged on a circle of max + 1 points.
 Everything holds for every max, not only for the 32-bit circle the sockets use.
 */
module SequenceNumbers {

  /** The widest forward step that still counts as "ahead". */
  function Middle(max: nat): nat {
    max / 2
  }

  function Next(max: nat, n: nat): (r: nat)
    requires n <= max
    ensures r <= max
  {
    if n < max then n + 1 else 0
  }

  predicate Less(max: nat, a: nat, b: nat) {
    || (b > a && b - a <= Middle(max))
    || (b < a && a - b > Middle(max))
  }

  function Distance(max: nat, a: nat, b: nat): int
    requires a <= max && b <= max
  {
    if b > a then
      var diff := b - a;
      if diff > Middle(max) then -(max - diff + 1) else diff
    else
      var diff := a - b;
      if diff > Middle(max) then
        var v := max - diff + 1;
        if v > Middle(max) then -v else v
      else -diff
  }

  datatype Constructed = Valid(n: nat) | InvalidValue

  /** Construction from a raw integer, which throws for a value off the circle. */
  function Construct(max: nat, n: nat): (r: Constructed)
    ensures r.Valid? <==> n <= max
    ensures r.Valid? ==> r.n == n
  {
    if n > max then InvalidValue else Valid(n)
  }

  /** A sequence number variable, with the two increment operators. */
  class SequenceNumber {
    const max: nat
    var n: nat

    ghost predicate Valid()
      reads this
    {
      n <= max
    }

    constructor (max: nat, n: nat)
      requires n <= max
      ensures Valid() && this.max == max && this.n == n
    {
      this.max, this.n := max, n;
    }

    method PreIncrement() returns (now: nat)
      requires Valid()
      modifies this
      ensures Valid() && n == now == Next(max, old(n))
    {
      if n < max { n := n + 1; } else { n := 0; }
      now := n;
    }

    method PostIncrement() returns (before: nat)
      requires Valid()
      modifies this
      ensures Valid() && before == old(n) && n == Next(max, old(n))
    {
      before := n;
      if n < max { n := n + 1; } else { n := 0; }
    }
  }

  /** The point reached from base after going off steps around the circle. */
  function Around(max: nat, base: int, off: int): (r: nat)
    ensures r <= max
  {
    (base + off) % (max + 1)
  }

  function Increments(max: nat, n: nat, k: nat): (r: nat)
    requires n <= max
    ensures r <= max
  {
    if k == 0 then n else Next(max, Increments(max, n, k - 1))
  }

  /** The remainder of a number less than one turn away from the circle. */
  lemma RemainderNearby(x: int, m: nat)
    requires m > 0 && 0 <= x + m && x < 2 * m
    ensures x % m == if x < 0 then x + m else if x < m then x else x - m
  {
    var q := if x < 0 then -1 else if x < m then 0 else 1;
    RemainderUnique(x, m, q, x - q * m);
  }

  lemma RemainderShift(x: int, m: nat, q: int)
    requires m > 0
    ensures (x + q * m) % m == x % m
  {
    var d, r := x / m, x % m;
    assert x == d * m + r;
    RemainderUnique(x + q * m, m, d + q, r) by {
      assert (d + q) * m == d * m + q * m;
    }
  }

  lemma SmallMultipleIsZero(k: int, m: nat)
    ensures k == 0 || k * m >= m || k * m + m <= 0
  {
    if k >= 1 {
      assert k * m == m + (k - 1) * m;
    } else if k <= -1 {
      assert k * m == -1 * m + (k + 1) * m;
    }
  }

  lemma RemainderUnique(x: int, m: nat, q: int, r: int)
    requires m > 0 && 0 <= r < m && x == q * m + r
    ensures x % m == r
  {
    var d, s := x / m, x % m;
    assert x == d * m + s;
    SmallMultipleIsZero(d - q, m);
    assert (d - q) * m == d * m - q * m;
  }

  lemma AroundComposes(max: nat, base: int, i: int, j: int)
    ensures Around(max, Around(max, base, i), j) == Around(max, base, i + j)
  {
    var m := max + 1;
    var q := (base + i) / m;
    assert base + i + j == Around(max, base, i) + j + q * m;
    RemainderShift(Around(max, base, i) + j, m, q);
  }

  lemma {:induction false} IncrementsGoAround(max: nat, n: nat, k: nat)
    requires n <= max
    ensures Increments(max, n, k) == Around(max, n, k)
  {
    if k == 0 {
      RemainderNearby(n, max + 1);
    } else {
      IncrementsGoAround(max, n, k - 1);
      var p := Increments(max, n, k - 1);
      AroundComposes(max, n, k - 1, 1);
      RemainderNearby(p + 1, max + 1);
    }
  }

  /** Two forward offsets less than one turn apart name different points. */
  lemma AroundInjective(max: nat, base: int, i: int, j: int)
    requires Around(max, base, i) == Around(max, base, j)
    requires -(max + 1) < i - j < max + 1
    ensures i == j
  {
    var m := max + 1;
    var p, q := (base + i) / m, (base + j) / m;
    assert base + i == p * m + (base + i) % m;
    assert base + j == q * m + (base + j) % m;
    SmallMultipleIsZero(p - q, m);
    assert (p - q) * m == p * m - q * m;
  }

  /** Adding the distance to a goes exactly to b, and the distance lies in the half-circle range. */
  lemma DistanceReaches(max: nat, a: nat, b: nat)
    requires a <= max && b <= max
    ensures Around(max, a, Distance(max, a, b)) == b
    ensures -(max - Middle(max)) <= Distance(max, a, b) <= Middle(max)
  {
    RemainderNearby(a + Distance(max, a, b), max + 1);
  }

  /** The distance is the only number in the half-circle range that leads from a to b. */
  lemma DistanceExact(max: nat, a: nat, b: nat, d: int)
    requires a <= max && b <= max
    requires -(max - Middle(max)) <= d <= Middle(max)
    ensures Around(max, a, d) == b <==> d == Distance(max, a, b)
  {
    DistanceReaches(max, a, b);
    if Around(max, a, d) == b {
      AroundInjective(max, a, d, Distance(max, a, b));
    }
  }

  /** The distance fits the signed type of the same width, whose range is -half .. half - 1. */
  lemma DistanceFitsSigned(max: nat, a: nat, b: nat, half: nat)
    requires a <= max && b <= max
    requires max <= 2 * half - 1
    ensures 0 <= Distance(max, a, b) + half && Distance(max, a, b) < half
  {
    DistanceReaches(max, a, b);
  }

  /** Swapping the arguments flips the sign, except for exactly opposite points. */
  lemma DistanceAntisymmetric(max: nat, a: nat, b: nat)
    requires a <= max && b <= max
    ensures Distance(max, b, a) == -Distance(max, a, b) <==> !Opposite(max, a, b)
    ensures Opposite(max, a, b) ==> Distance(max, b, a) == Distance(max, a, b) == -(Middle(max) + 1)
    ensures Opposite(max, a, b) ==> max % 2 == 1
  {
  }

  /** Points half a circle apart; they exist only on a circle with an even number of points. */
  predicate Opposite(max: nat, a: nat, b: nat) {
    2 * (a - b) == max + 1 || 2 * (b - a) == max + 1
  }

  lemma DistanceAfterIncrements(max: nat, a: nat, k: nat)
    requires a <= max && k <= Middle(max)
    ensures Distance(max, a, Increments(max, a, k)) == k
  {
    IncrementsGoAround(max, a, k);
    DistanceExact(max, a, Increments(max, a, k), k);
  }

  /** Exactly one of before, equal and after holds, on the whole circle. */
  lemma Trichotomy(max: nat, a: nat, b: nat)
    requires a <= max && b <= max
    ensures a == b ==> !Less(max, a, b) && !Less(max, b, a)
    ensures a != b ==> (Less(max, a, b) <==> !Less(max, b, a))
  {
  }

  /** Before means a positive distance; of two opposite points the larger one comes first. */
  lemma LessIsPositiveDistance(max: nat, a: nat, b: nat)
    requires a <= max && b <= max
    ensures Less(max, a, b) <==> if Opposite(max, a, b) then a > b else Distance(max, a, b) > 0
  {
  }

  /** The point off steps ahead of base, for less than a full turn. */
  function Ahead(max: nat, base: nat, off: nat): (r: nat)
    requires base <= max && off <= max
    ensures r <= max
  {
    if off <= max - base then base + off else off - (max - base) - 1
  }

  lemma AheadIsAround(max: nat, base: nat, off: nat)
    requires base <= max && off <= max
    ensures Ahead(max, base, off) == Around(max, base, off) == Increments(max, base, off)
  {
    IncrementsGoAround(max, base, off);
    RemainderNearby(base + off, max + 1);
  }

  /** Inside a window of Middle(max) + 1 consecutive points, each one increment on, the order is that of the offsets. */
  lemma WindowOrder(max: nat, base: nat, i: nat, j: nat)
    requires base <= max && i <= Middle(max) && j <= Middle(max)
    ensures Ahead(max, base, i) == Increments(max, base, i) && Ahead(max, base, j) == Increments(max, base, j)
    ensures Less(max, Ahead(max, base, i), Ahead(max, base, j)) <==> i < j
    ensures Ahead(max, base, i) == Ahead(max, base, j) <==> i == j
    ensures Distance(max, Ahead(max, base, i), Ahead(max, base, j)) == j - i
  {
    AheadIsAround(max, base, i);
    AheadIsAround(max, base, j);
  }

  predicate TransitiveOnTheCircle(max: nat) {
    forall a, b, c :: 0 <= a <= max && 0 <= b <= max && 0 <= c <= max && Less(max, a, b) && Less(max, b, c) ==>
      Less(max, a, c)
  }

  /** Outside such a window the order breaks: on every circle of three points or more some three chase each other. */
  lemma NotTransitiveOnTheCircle(max: nat)
    ensures TransitiveOnTheCircle(max) <==> max < 2
  {
    if max >= 2 {
      var half := Middle(max);
      assert Less(max, 0, half) && Less(max, half, 2 * half) && Less(max, 2 * half, 0);
    }
  }
}
