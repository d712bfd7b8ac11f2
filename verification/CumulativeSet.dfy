/**
 The acceptance history: a set of sequence numbers ordered around the circle, which forgets
 everything but its last element as soon as its elements are contiguous.
 */
module CumulativeSets {
  import opened SequenceNumbers
  import opened Wrappers

  predicate OnCircle(max: nat, s: seq<nat>) {
    forall i :: 0 <= i < |s| ==> s[i] <= max
  }

  /** The keys are pairwise in order, which is what an ordered set asks of its comparison. */
  predicate Sorted(max: nat, s: seq<nat>) {
    forall i, j :: 0 <= i < j < |s| ==> Less(max, s[i], s[j])
  }

  /** Insertion into the ordered set; a key equivalent to a present one is not inserted. */
  function Inserted(max: nat, s: seq<nat>, x: nat): (r: seq<nat>)
    ensures OnCircle(max, s) && x <= max ==> OnCircle(max, r)
    ensures |r| > 0
  {
    if s == [] || Less(max, x, s[0]) then [x] + s
    else if Less(max, s[0], x) then [s[0]] + Inserted(max, s[1..], x)
    else s
  }

  predicate Contiguous(max: nat, s: seq<nat>)
    requires OnCircle(max, s)
  {
    forall i :: 0 <= i < |s| - 1 ==> Distance(max, s[i], s[i + 1]) <= 1
  }

  function Pruned(max: nat, s: seq<nat>): (r: seq<nat>)
    requires OnCircle(max, s)
    ensures OnCircle(max, r)
    ensures s != [] ==> r != []
  {
    if s != [] && Contiguous(max, s) then [s[|s| - 1]] else s
  }

  function Accept(max: nat, s: seq<nat>, x: nat): (r: seq<nat>)
    requires OnCircle(max, s) && x <= max
    ensures OnCircle(max, r) && r != []
  {
    Pruned(max, Inserted(max, s, x))
  }

  function Front(s: seq<nat>): Option<nat> {
    if s == [] then None else Some(s[0])
  }

  class CumulativeSet {
    const max: nat
    var container: seq<nat>

    ghost predicate Valid()
      reads this
    {
      OnCircle(max, container) && Sorted(max, container)
    }

    constructor (max: nat)
      ensures Valid() && this.max == max && container == []
    {
      this.max, container := max, [];
    }

    method Empty() returns (r: bool)
      ensures r <==> Front(container).None?
    {
      r := container == [];
    }

    method FrontElement() returns (r: Option<nat>)
      ensures r == Front(container)
    {
      if container == [] {
        return None;
      }
      r := Some(container[0]);
    }

    /** The ordered set demands that its keys, the new one included, are pairwise in order. */
    method Insert(item: nat)
      requires Valid() && item <= max && Sorted(max, Inserted(max, container, item))
      modifies this
      ensures Valid() && container == Accept(max, old(container), item)
    {
      container := Inserted(max, container, item);
      Prune();
    }

    method Prune()
      requires Valid()
      modifies this
      ensures Valid() && container == Pruned(max, old(container))
    {
      if container != [] {
        var current, next := 0, 1;
        while next < |container|
          invariant next == current + 1 <= |container|
          invariant container == old(container)
          invariant forall i :: 0 <= i < current ==> Distance(max, container[i], container[i + 1]) <= 1
        {
          if Distance(max, container[current], container[next]) > 1 {
            return;
          }
          next, current := next + 1, current + 1;
        }
        container := container[current..];
      }
    }
  }

  /** The successor of the front can always be inserted: it keeps the keys in order. */
  lemma SuccessorKeepsOrder(max: nat, s: seq<nat>)
    requires OnCircle(max, s) && Sorted(max, s) && s != [] && max >= 2
    ensures Sorted(max, Inserted(max, s, Next(max, s[0])))
  {
    var y := Next(max, s[0]);
    var rest := s[1..];
    assert Inserted(max, s, y) == [s[0]] + Inserted(max, rest, y);
    forall j | 0 <= j < |rest|
      ensures rest[j] == y || Less(max, y, rest[j])
    {
      assert rest[j] == s[j + 1] && Less(max, s[0], s[j + 1]);
    }
    if rest != [] && rest[0] == y {
      assert Inserted(max, s, y) == s;
    } else {
      assert Inserted(max, rest, y) == [y] + rest;
      forall j | 0 <= j < |rest|
        ensures Less(max, y, rest[j])
      {
        assert j > 0 ==> Less(max, s[1], s[j + 1]);
      }
    }
  }

  /** A history that holds one number and meets its successor holds just the successor. */
  lemma SuccessorReplaces(max: nat, x: nat)
    requires x <= max && max >= 2
    ensures Accept(max, [x], Next(max, x)) == [Next(max, x)]
  {
    var y := Next(max, x);
    assert Inserted(max, [x], y) == [x, y];
    assert Distance(max, x, y) == 1;
  }

  // Insertion order does not matter: the history seen through offsets from its base value.

  /** The points of the circle at the given offsets from base. */
  function Placed(max: nat, base: nat, offs: seq<nat>): (r: seq<nat>)
    requires base <= max && Within(offs, max)
    ensures |r| == |offs| && OnCircle(max, r)
    ensures forall i :: 0 <= i < |r| ==> r[i] == Ahead(max, base, offs[i])
  {
    seq(|offs|, i requires 0 <= i < |offs| => Ahead(max, base, offs[i]))
  }

  /** The history after starting at base and inserting the numbers at the given offsets. */
  function History(max: nat, base: nat, order: seq<nat>): (r: seq<nat>)
    requires base <= max && Within(order, max)
    ensures OnCircle(max, r) && r != []
  {
    if order == [] then [Ahead(max, base, 0)]
    else Accept(max, History(max, base, order[..|order| - 1]), Ahead(max, base, order[|order| - 1]))
  }

  predicate Increasing(s: seq<nat>) {
    forall i, j :: 0 <= i < j < |s| ==> s[i] < s[j]
  }

  predicate Distinct(s: seq<nat>) {
    forall i, j :: 0 <= i < j < |s| ==> s[i] != s[j]
  }

  function InsertedOffset(offs: seq<nat>, x: nat): (r: seq<nat>)
    requires Increasing(offs)
    ensures Increasing(r)
    ensures forall y :: y in r <==> y == x || y in offs
    ensures offs != [] && x > offs[0] ==> r != [] && r[0] == offs[0]
  {
    if offs == [] then [x]
    else if x < offs[0] then [x] + offs
    else if offs[0] < x then
      var rest := InsertedOffset(offs[1..], x);
      assert offs == [offs[0]] + offs[1..];
      [offs[0]] + rest
    else offs
  }

  predicate Within(offs: seq<nat>, m: nat) {
    forall i :: 0 <= i < |offs| ==> offs[i] <= m
  }

  lemma {:induction false} InsertedWithin(offs: seq<nat>, x: nat, m: nat)
    requires Increasing(offs) && Within(offs, m) && x <= m
    ensures Within(InsertedOffset(offs, x), m)
  {
    if offs != [] && offs[0] < x {
      InsertedWithin(offs[1..], x, m);
    }
  }

  lemma PlacedCons(max: nat, base: nat, x: nat, offs: seq<nat>)
    requires base <= max && x <= max && Within(offs, max)
    ensures Within([x] + offs, max)
    ensures Placed(max, base, [x] + offs) == [Ahead(max, base, x)] + Placed(max, base, offs)
  {
  }

  /** Within half a circle the circular insertion is insertion by offset. */
  lemma {:induction false} InsertionByOffset(max: nat, base: nat, offs: seq<nat>, x: nat)
    requires base <= max && Increasing(offs) && Within(offs, Middle(max)) && x <= Middle(max)
    ensures Within(InsertedOffset(offs, x), Middle(max))
    ensures Inserted(max, Placed(max, base, offs), Ahead(max, base, x))
         == Placed(max, base, InsertedOffset(offs, x))
    decreases |offs|, 1
  {
    InsertedWithin(offs, x, Middle(max));
    var s, p := Placed(max, base, offs), Ahead(max, base, x);
    if offs == [] {
      assert s == [];
      PlacedCons(max, base, x, []);
    } else {
      WindowOrder(max, base, x, offs[0]);
      WindowOrder(max, base, offs[0], x);
      if x < offs[0] {
        PlacedCons(max, base, x, offs);
      } else if offs[0] < x {
        InsertionBehindFirst(max, base, offs, x);
      }
    }
  }

  lemma {:induction false} InsertionBehindFirst(max: nat, base: nat, offs: seq<nat>, x: nat)
    requires base <= max && Increasing(offs) && Within(offs, Middle(max)) && x <= Middle(max)
    requires offs != [] && offs[0] < x
    ensures Within(InsertedOffset(offs, x), Middle(max))
    ensures Inserted(max, Placed(max, base, offs), Ahead(max, base, x))
         == Placed(max, base, InsertedOffset(offs, x))
    decreases |offs|, 0
  {
    var first, rest := offs[0], offs[1..];
    InsertedWithin(rest, x, Middle(max));
    PlacedCons(max, base, first, rest);
    assert offs == [first] + rest;
    WindowOrder(max, base, x, first);
    WindowOrder(max, base, first, x);
    InsertionByOffset(max, base, rest, x);
    PlacedCons(max, base, first, InsertedOffset(rest, x));
  }

  predicate NoGap(offs: seq<nat>) {
    forall i :: 0 <= i < |offs| - 1 ==> offs[i + 1] <= offs[i] + 1
  }

  lemma ContiguousByOffset(max: nat, base: nat, offs: seq<nat>)
    requires base <= max && Within(offs, Middle(max))
    ensures Contiguous(max, Placed(max, base, offs)) <==> NoGap(offs)
  {
    var s := Placed(max, base, offs);
    forall i | 0 <= i < |offs| - 1
      ensures offs[i] + Distance(max, s[i], s[i + 1]) == offs[i + 1]
    {
      WindowOrder(max, base, offs[i], offs[i + 1]);
    }
  }

  function PrunedOffsets(offs: seq<nat>): seq<nat> {
    if offs != [] && NoGap(offs) then [offs[|offs| - 1]] else offs
  }

  /** Insertion followed by pruning, seen through offsets. */
  lemma AcceptByOffset(max: nat, base: nat, prior: seq<nat>, x: nat, m: nat)
    requires base <= max && m <= Middle(max)
    requires Increasing(prior) && Within(prior, m) && x <= m
    ensures Within(InsertedOffset(prior, x), m)
    ensures Accept(max, Placed(max, base, prior), Ahead(max, base, x))
         == Placed(max, base, PrunedOffsets(InsertedOffset(prior, x)))
  {
    var grown := InsertedOffset(prior, x);
    InsertedWithin(prior, x, m);
    InsertionByOffset(max, base, prior, x);
    ContiguousByOffset(max, base, grown);
  }

  /** What the history remembers: its front, and everything inserted beyond it. */
  ghost predicate Remembers(offs: seq<nat>, order: seq<nat>) {
    && offs != []
    && Increasing(offs)
    && (forall y :: y in offs <==> y == offs[0] || (y in order && y > offs[0]))
    && (forall y :: 0 < y <= offs[0] ==> y in order)
    && (NoGap(offs) ==> |offs| == 1)
  }

  lemma {:induction false} NoGapMeansAllPresent(offs: seq<nat>, y: nat)
    requires offs != [] && Increasing(offs) && NoGap(offs)
    requires offs[0] <= y <= offs[|offs| - 1]
    ensures y in offs
  {
    if y != offs[0] {
      NoGapMeansAllPresent(offs[1..], y);
    }
  }

  lemma LastIsLargest(offs: seq<nat>, y: nat)
    requires Increasing(offs) && y in offs
    ensures offs[0] <= y <= offs[|offs| - 1]
  {
  }

  /** When the grown history has no gap, everything up to its last offset was inserted. */
  lemma RemembersAfterPruning(grown: seq<nat>, after: seq<nat>)
    requires grown != [] && Increasing(grown) && NoGap(grown)
    requires forall y :: y in grown <==> y == grown[0] || (y in after && y > grown[0])
    requires forall y :: 0 < y <= grown[0] ==> y in after
    ensures Remembers([grown[|grown| - 1]], after)
  {
    var last := grown[|grown| - 1];
    assert last in grown;
    LastIsLargest(grown, last);
    forall y | 0 < y <= last
      ensures y in after
    {
      if y > grown[0] {
        NoGapMeansAllPresent(grown, y);
      }
    }
    forall y | y in after && y > grown[0]
      ensures y <= last
    {
      LastIsLargest(grown, y);
    }
  }

  /** Inserting a new offset and pruning keeps what the history remembers. */
  lemma RemembersStep(prior: seq<nat>, before: seq<nat>, x: nat)
    requires Remembers(prior, before) && x !in before && x != 0
    ensures Remembers(PrunedOffsets(InsertedOffset(prior, x)), before + [x])
  {
    var grown, after := InsertedOffset(prior, x), before + [x];
    assert x > prior[0] && grown[0] == prior[0];
    assert forall y :: y in after <==> y == x || y in before;
    assert forall y :: y in grown <==> y == grown[0] || (y in after && y > grown[0]);
    assert forall y :: 0 < y <= grown[0] ==> y in after;
    if NoGap(grown) {
      RemembersAfterPruning(grown, after);
    }
  }

  /** Every intermediate history, whatever the order of insertion. */
  lemma {:induction false} HistoryShape(max: nat, base: nat, order: seq<nat>, m: nat) returns (offs: seq<nat>)
    requires base <= max && m <= Middle(max) && Distinct(order)
    requires Within(order, m) && 0 !in order
    ensures Remembers(offs, order) && Within(offs, m)
    ensures History(max, base, order) == Placed(max, base, offs)
  {
    if order == [] {
      offs := [0];
    } else {
      var x, before := order[|order| - 1], order[..|order| - 1];
      assert order == before + [x];
      var prior := HistoryShape(max, base, before, m);
      offs := PrunedOffsets(InsertedOffset(prior, x));
      RemembersStep(prior, before, x);
      AcceptByOffset(max, base, prior, x, m);
    }
  }

  /** At every point all numbers from the base to the front have been inserted. */
  lemma FrontIsCumulative(max: nat, base: nat, order: seq<nat>, m: nat) returns (front: nat)
    requires base <= max && m <= Middle(max) && Distinct(order)
    requires Within(order, m) && 0 !in order
    ensures front <= m && Front(History(max, base, order)) == Some(Ahead(max, base, front))
    ensures forall y :: 1 <= y <= front ==> y in order
  {
    var offs := HistoryShape(max, base, order, m);
    front := offs[0];
  }

  /** After each of the next m numbers was inserted once, in any order, only base + m is left. */
  lemma CollapsesInAnyOrder(max: nat, base: nat, order: seq<nat>)
    requires base <= max && |order| <= Middle(max) && Distinct(order)
    requires Within(order, |order|) && 0 !in order
    ensures History(max, base, order) == [Ahead(max, base, |order|)]
  {
    var m := |order|;
    var offs := HistoryShape(max, base, order, m);
    forall y | 1 <= y <= m ensures y in order { Pigeonhole(order, m, y); }
    assert forall y :: y in offs <==> offs[0] <= y <= m by {
      forall i | 0 <= i < |offs| ensures offs[0] <= offs[i] <= m {}
    }
    ConsecutiveHasNoGap(offs, m);
    assert m in offs && offs == [m];
  }

  lemma ConsecutiveHasNoGap(offs: seq<nat>, m: nat)
    requires Increasing(offs) && offs != []
    requires forall y :: y in offs <==> offs[0] <= y <= m
    ensures NoGap(offs)
  {
    forall i | 0 <= i < |offs| - 1
      ensures offs[i + 1] <= offs[i] + 1
    {
      assert offs[i + 1] in offs;
      if offs[i] < offs[i + 1] - 1 {
        var y := offs[i + 1] - 1;
        assert y in offs;
        var k :| 0 <= k < |offs| && offs[k] == y;
      }
    }
  }

  /** m distinct values out of 1..m are all of them. */
  lemma Pigeonhole(s: seq<nat>, m: nat, y: nat)
    requires Distinct(s) && |s| == m && 1 <= y <= m
    requires Within(s, m) && 0 !in s
    ensures y in s
  {
    var mine, all := Elements(s), UpTo(m);
    ElementsWithin(s, m);
    SubsetOfSameSize(mine, all, y);
  }

  lemma ElementsWithin(s: seq<nat>, m: nat)
    requires Within(s, m) && 0 !in s
    ensures Elements(s) <= UpTo(m)
  {
  }

  lemma SubsetOfSameSize(a: set<nat>, b: set<nat>, y: nat)
    requires a <= b && |a| == |b| && y in b
    ensures y in a
  {
    if y !in a {
      SubsetSize(a, b - {y});
    }
  }

  function UpTo(m: nat): (r: set<nat>)
    ensures |r| == m
    ensures forall x :: x in r <==> 1 <= x <= m
  {
    if m == 0 then {} else UpTo(m - 1) + {m}
  }

  function Elements(s: seq<nat>): (r: set<nat>)
    ensures forall x :: x in r <==> x in s
    ensures Distinct(s) ==> |r| == |s|
  {
    if s == [] then {}
    else
      assert s == [s[0]] + s[1..];
      {s[0]} + Elements(s[1..])
  }

  lemma {:induction false} SubsetSize(a: set<nat>, b: set<nat>)
    requires a <= b
    ensures |a| <= |b|
  {
    if a != {} {
      var x :| x in a;
      SubsetSize(a - {x}, b - {x});
    }
  }
}
