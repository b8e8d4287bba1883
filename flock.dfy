/**
  The flock: the list of boids with its counter and simulation flag, the per-tick
  snapshot and all-pairs aggregation (Flock.ProcessData), and the bookkeeping
  operations that add and remove boids.
 */
module Flocks {
  import opened UnityMath
  import opened Settings
  import opened Boids

  /** The per-boid record of one tick: the snapshot and what the aggregation adds to it. */
  datatype BoidData = BoidData(
    position: Vec3,
    direction: Vec3,
    flockHeading: Vec3,
    flockCentre: Vec3,
    avoidanceHeading: Vec3,
    numFlockmates: int)

  /** A fresh BoidData holding only a position and a direction (the struct's other fields are zero). */
  function Snapshot(position: Vec3, direction: Vec3): BoidData {
    BoidData(position, direction, Zero, Zero, Zero, 0)
  }

  predicate IsSnapshot(d: BoidData) {
    d == Snapshot(d.position, d.direction)
  }

  // ---------------------------------------------------------------------------
  // The neighbour relation

  /** The squared distance from an observer at `a` to a boid at `b` (the sqrMagnitude of b - a). */
  function SqrDist(a: Vec3, b: Vec3): real {
    SqrMag(Sub(b, a))
  }

  /** An observer at `a` perceives a boid at `b`. */
  predicate Perceives(s: BoidSettings, a: Vec3, b: Vec3) {
    SqrDist(a, b) < s.perceptionRadius * s.perceptionRadius
  }

  /** An observer at `a` avoids a boid at `b`: the avoidance test runs only after the perception test. */
  predicate Avoids(s: BoidSettings, a: Vec3, b: Vec3) {
    Perceives(s, a, b) && SqrDist(a, b) < s.avoidanceRadius * s.avoidanceRadius
  }

  /** Boid i counts boid j as a flockmate. */
  predicate Counts(s: BoidSettings, data: seq<BoidData>, i: int, j: int)
    requires 0 <= i < |data| && 0 <= j < |data|
  {
    j != i && Perceives(s, data[i].position, data[j].position)
  }

  /**
    The avoidance term divides by the squared distance, so two distinct boids that
    avoid each other must not share a position (the game would produce NaN).
   */
  predicate WellSeparated(s: BoidSettings, data: seq<BoidData>) {
    forall i, j :: 0 <= i < |data| && 0 <= j < |data| && i != j && Avoids(s, data[i].position, data[j].position) ==>
      SqrDist(data[i].position, data[j].position) != 0.0
  }

  // ---------------------------------------------------------------------------
  // ProcessData as functions

  /** One step of the inner loop of ProcessData: observer `d` looks at `other`; `self` when j == i. */
  function Visit(s: BoidSettings, d: BoidData, other: BoidData, self: bool): (r: BoidData)
    requires !self && Avoids(s, d.position, other.position) ==> SqrDist(d.position, other.position) != 0.0
    ensures r.position == d.position && r.direction == d.direction
    ensures r.numFlockmates == d.numFlockmates + (if !self && Perceives(s, d.position, other.position) then 1 else 0)
  {
    if self then d
    else
      var offset := Sub(other.position, d.position);
      var sqrDist := SqrMag(offset);
      if sqrDist < s.perceptionRadius * s.perceptionRadius then
        var counted := d.(numFlockmates := d.numFlockmates + 1,
                          flockHeading := Add(d.flockHeading, other.direction),
                          flockCentre := Add(d.flockCentre, d.position));
        if sqrDist < s.avoidanceRadius * s.avoidanceRadius then
          counted.(avoidanceHeading := Sub(counted.avoidanceHeading, DivBy(offset, sqrDist)))
        else counted
      else d
  }

  /** Row i of ProcessData after the inner loop has visited boids 0 .. j-1. */
  function Row(s: BoidSettings, data: seq<BoidData>, i: nat, j: nat): (r: BoidData)
    requires i < |data| && j <= |data| && WellSeparated(s, data)
    ensures r.position == data[i].position && r.direction == data[i].direction
    decreases j
  {
    if j == 0 then data[i]
    else Visit(s, Row(s, data, i, j - 1), data[j - 1], j - 1 == i)
  }

  /** The array after ProcessData: every row fully processed against the positions of the snapshot. */
  function Processed(s: BoidSettings, data: seq<BoidData>): (r: seq<BoidData>)
    requires WellSeparated(s, data)
    ensures |r| == |data|
    ensures forall i :: 0 <= i < |r| ==> r[i].position == data[i].position && r[i].direction == data[i].direction
  {
    seq(|data|, i requires 0 <= i < |data| => Row(s, data, i, |data|))
  }

  /** The centre of flockmates a boid ends its update with: the summed centre divided by the count, if any. */
  function Centre(row: BoidData): Vec3 {
    if row.numFlockmates != 0 then DivBy(row.flockCentre, row.numFlockmates as real) else row.flockCentre
  }

  // ---------------------------------------------------------------------------
  // Reference definitions of the aggregates, field by field

  /** How many of boids 0 .. j-1 boid i counts as flockmates. */
  function NeighbourCount(s: BoidSettings, data: seq<BoidData>, i: nat, j: nat): nat
    requires i < |data| && j <= |data|
  {
    if j == 0 then 0
    else NeighbourCount(s, data, i, j - 1) + (if Counts(s, data, i, j - 1) then 1 else 0)
  }

  /** The sum of the directions of the flockmates of boid i among boids 0 .. j-1. */
  function HeadingSum(s: BoidSettings, data: seq<BoidData>, i: nat, j: nat): Vec3
    requires i < |data| && j <= |data|
  {
    if j == 0 then Zero
    else
      var sum := HeadingSum(s, data, i, j - 1);
      if Counts(s, data, i, j - 1) then Add(sum, data[j - 1].direction) else sum
  }

  /** The sum of offset / sqrDist over the boids among 0 .. j-1 that boid i avoids. */
  function RepulsionSum(s: BoidSettings, data: seq<BoidData>, i: nat, j: nat): Vec3
    requires i < |data| && j <= |data| && WellSeparated(s, data)
  {
    if j == 0 then Zero
    else
      var sum := RepulsionSum(s, data, i, j - 1);
      var p := data[i].position;
      var q := data[j - 1].position;
      if j - 1 != i && Avoids(s, p, q) then Add(sum, DivBy(Sub(q, p), SqrDist(p, q))) else sum
  }

  lemma ScaleSucc(c: real, p: Vec3)
    ensures Add(Scale(c, p), p) == Scale(c + 1.0, p)
  {
    assert (c + 1.0) * p.x == c * p.x + p.x;
    assert (c + 1.0) * p.y == c * p.y + p.y;
    assert (c + 1.0) * p.z == c * p.z + p.z;
  }

  /**
    A processed row is the row it started from plus the reference aggregates: the
    count of flockmates, the sum of their directions, the observer's OWN position
    once per flockmate (ProcessData adds data[i].position, not data[j].position), and
    minus the sum of the repulsions.
   */
  lemma RowIsAggregate(s: BoidSettings, data: seq<BoidData>, i: nat, j: nat)
    requires i < |data| && j <= |data| && WellSeparated(s, data)
    ensures var r := Row(s, data, i, j);
      var n := NeighbourCount(s, data, i, j);
      && r.numFlockmates == data[i].numFlockmates + n
      && r.flockHeading == Add(data[i].flockHeading, HeadingSum(s, data, i, j))
      && r.flockCentre == Add(data[i].flockCentre, Scale(n as real, data[i].position))
      && r.avoidanceHeading == Sub(data[i].avoidanceHeading, RepulsionSum(s, data, i, j))
  {
    RowCount(s, data, i, j);
    RowHeading(s, data, i, j);
    RowCentre(s, data, i, j);
    RowAvoidance(s, data, i, j);
  }

  lemma {:induction false} RowCount(s: BoidSettings, data: seq<BoidData>, i: nat, j: nat)
    requires i < |data| && j <= |data| && WellSeparated(s, data)
    ensures Row(s, data, i, j).numFlockmates == data[i].numFlockmates + NeighbourCount(s, data, i, j)
  {
    if j != 0 {
      RowCount(s, data, i, j - 1);
      RowStep(s, data, i, j - 1);
    }
  }

  lemma {:induction false} RowHeading(s: BoidSettings, data: seq<BoidData>, i: nat, j: nat)
    requires i < |data| && j <= |data| && WellSeparated(s, data)
    ensures Row(s, data, i, j).flockHeading == Add(data[i].flockHeading, HeadingSum(s, data, i, j))
  {
    if j == 0 {
      assert HeadingSum(s, data, i, j) == Zero;
    } else {
      RowHeading(s, data, i, j - 1);
      RowStep(s, data, i, j - 1);
    }
  }

  lemma {:induction false} RowCentre(s: BoidSettings, data: seq<BoidData>, i: nat, j: nat)
    requires i < |data| && j <= |data| && WellSeparated(s, data)
    ensures Row(s, data, i, j).flockCentre == Add(data[i].flockCentre, Scale(NeighbourCount(s, data, i, j) as real, data[i].position))
  {
    if j == 0 {
      assert Scale(0.0, data[i].position) == Zero;
    } else {
      var k := j - 1;
      RowCentre(s, data, i, k);
      RowStep(s, data, i, k);
      var n := NeighbourCount(s, data, i, k);
      if Counts(s, data, i, k) {
        assert NeighbourCount(s, data, i, j) == n + 1;
        CentreStep(data[i].flockCentre, data[i].position, n);
      } else {
        assert NeighbourCount(s, data, i, j) == n;
      }
    }
  }

  lemma {:induction false} RowAvoidance(s: BoidSettings, data: seq<BoidData>, i: nat, j: nat)
    requires i < |data| && j <= |data| && WellSeparated(s, data)
    ensures Row(s, data, i, j).avoidanceHeading == Sub(data[i].avoidanceHeading, RepulsionSum(s, data, i, j))
  {
    if j == 0 {
      assert RepulsionSum(s, data, i, j) == Zero;
    } else {
      RowAvoidance(s, data, i, j - 1);
      RowStep(s, data, i, j - 1);
    }
  }

  lemma CentreStep(c: Vec3, p: Vec3, n: nat)
    ensures Add(Add(c, Scale(n as real, p)), p) == Add(c, Scale((n + 1) as real, p))
  {
    ScaleSucc(n as real, p);
  }

  /** One visit, field by field: a flockmate adds to the count and sums, an avoided one to the repulsion. */
  lemma RowStep(s: BoidSettings, data: seq<BoidData>, i: nat, k: nat)
    requires i < |data| && k < |data| && WellSeparated(s, data)
    ensures var r := Row(s, data, i, k);
      var r' := Row(s, data, i, k + 1);
      var p := data[i].position;
      var q := data[k].position;
      && r'.numFlockmates == r.numFlockmates + (if Counts(s, data, i, k) then 1 else 0)
      && r'.flockHeading == (if Counts(s, data, i, k) then Add(r.flockHeading, data[k].direction) else r.flockHeading)
      && r'.flockCentre == (if Counts(s, data, i, k) then Add(r.flockCentre, p) else r.flockCentre)
      && r'.avoidanceHeading ==
           (if k != i && Avoids(s, p, q) then Sub(r.avoidanceHeading, DivBy(Sub(q, p), SqrDist(p, q)))
            else r.avoidanceHeading)
  {
    var prev := Row(s, data, i, k);
    assert Row(s, data, i, k + 1) == Visit(s, prev, data[k], k == i);
    if k != i {
      VisitSteps(s, prev, data[k]);
    }
  }

  /** Boid i never counts itself: at most j flockmates among 0 .. j-1, one fewer once i is among them. */
  lemma {:induction false} NeighbourCountBound(s: BoidSettings, data: seq<BoidData>, i: nat, j: nat)
    requires i < |data| && j <= |data|
    ensures NeighbourCount(s, data, i, j) <= (if i < j then j - 1 else j)
  {
    if j != 0 {
      NeighbourCountBound(s, data, i, j - 1);
    }
  }

  lemma SqrMagNeg(v: Vec3)
    ensures SqrMag(Neg(v)) == SqrMag(v)
  {
    assert (-v.x) * (-v.x) == v.x * v.x;
    assert (-v.y) * (-v.y) == v.y * v.y;
    assert (-v.z) * (-v.z) == v.z * v.z;
  }

  /** The squared distance is the same both ways. */
  lemma SqrDistSymmetric(a: Vec3, b: Vec3)
    ensures SqrDist(a, b) == SqrDist(b, a)
  {
    assert Sub(a, b) == Neg(Sub(b, a));
    SqrMagNeg(Sub(b, a));
  }

  /** The flockmate relation is symmetric: i counts j exactly when j counts i. */
  lemma CountsSymmetric(s: BoidSettings, data: seq<BoidData>, i: nat, j: nat)
    requires i < |data| && j < |data|
    ensures Counts(s, data, i, j) <==> Counts(s, data, j, i)
  {
    SqrDistSymmetric(data[i].position, data[j].position);
  }

  /** Avoidance is symmetric too. */
  lemma AvoidsSymmetric(s: BoidSettings, a: Vec3, b: Vec3)
    ensures Avoids(s, a, b) <==> Avoids(s, b, a)
  {
    SqrDistSymmetric(a, b);
  }

  lemma SquareMonotone(a: real, b: real)
    requires 0.0 <= a <= b
    ensures a * a <= b * b
  {
    MulNonNegative(b - a, a);
    MulNonNegative(b - a, b);
    assert b * b - a * a == (b - a) * a + (b - a) * b;
  }

  /**
    With avoidanceRadius within perceptionRadius the nesting of the two tests loses
    nothing: every boid inside the avoidance radius is also perceived.
   */
  lemma AvoidanceWithinPerception(s: BoidSettings, a: Vec3, b: Vec3)
    requires 0.0 <= s.avoidanceRadius <= s.perceptionRadius
    ensures Avoids(s, a, b) <==> SqrDist(a, b) < s.avoidanceRadius * s.avoidanceRadius
  {
    SquareMonotone(s.avoidanceRadius, s.perceptionRadius);
  }

  /**
    For a snapshot (aggregates zero) ProcessData leaves in row i: the number of
    flockmates, between 0 and n - 1; the sum of their directions; the observer's own
    position times that number as the centre; and minus the sum of the repulsions.
   */
  lemma ProcessedSnapshot(s: BoidSettings, data: seq<BoidData>, i: nat)
    requires i < |data| && WellSeparated(s, data) && IsSnapshot(data[i])
    ensures var r := Processed(s, data)[i];
      var n := NeighbourCount(s, data, i, |data|);
      && r.numFlockmates == n && 0 <= n <= |data| - 1
      && r.flockHeading == HeadingSum(s, data, i, |data|)
      && r.flockCentre == Scale(n as real, data[i].position)
      && r.avoidanceHeading == Neg(RepulsionSum(s, data, i, |data|))
  {
    RowIsAggregate(s, data, i, |data|);
    NeighbourCountBound(s, data, i, |data|);
  }

  /**
    Consequence of the centre quirk: the centre UpdateBoid divides out is the boid's
    own position, so the cohesion force steers towards a zero offset.
   */
  lemma CentreIsOwnPosition(s: BoidSettings, data: seq<BoidData>, i: nat)
    requires i < |data| && WellSeparated(s, data) && IsSnapshot(data[i])
    requires Processed(s, data)[i].numFlockmates != 0
    ensures var r := Processed(s, data)[i];
      DivBy(r.flockCentre, r.numFlockmates as real) == data[i].position
      && Sub(DivBy(r.flockCentre, r.numFlockmates as real), r.position) == Zero
  {
    ProcessedSnapshot(s, data, i);
    var n := NeighbourCount(s, data, i, |data|);
    ScaleThenDivide(n as real, data[i].position);
  }

  /** The centre a boid ends the tick with: its own snapshot position, or zero without flockmates. */
  lemma CentreOfRow(s: BoidSettings, data: seq<BoidData>, i: nat)
    requires i < |data| && WellSeparated(s, data) && IsSnapshot(data[i])
    ensures Centre(Processed(s, data)[i]) == (if Processed(s, data)[i].numFlockmates != 0 then data[i].position else Zero)
  {
    ProcessedSnapshot(s, data, i);
    if Processed(s, data)[i].numFlockmates != 0 {
      CentreIsOwnPosition(s, data, i);
    } else {
      assert Scale(0.0, data[i].position) == Zero;
    }
  }

  /** Flock.ProcessData: the all-pairs aggregation, updating each row of `data` in place. */
  method ProcessData(data: array<BoidData>, s: BoidSettings, count: int)
    requires WellSeparated(s, data[..])
    modifies data
    ensures data[..] == Processed(s, old(data[..]))
  {
    ghost var d0 := data[..];
    for i := 0 to data.Length
      invariant forall k :: 0 <= k < i ==> data[k] == Row(s, d0, k, |d0|)
      invariant forall k :: i <= k < data.Length ==> data[k] == d0[k]
    {
      ProcessRow(data, s, i, d0);
    }
  }

  /** The inner loop of ProcessData for observer i, reading the other rows' positions and directions. */
  method ProcessRow(data: array<BoidData>, s: BoidSettings, i: nat, ghost d0: seq<BoidData>)
    requires data.Length == |d0| && i < |d0| && WellSeparated(s, d0) && data[i] == d0[i]
    requires forall k :: 0 <= k < |d0| ==> data[k].position == d0[k].position && data[k].direction == d0[k].direction
    modifies data
    ensures data[i] == Row(s, d0, i, |d0|)
    ensures forall k :: 0 <= k < |d0| && k != i ==> data[k] == old(data[k])
  {
    for j := 0 to data.Length
      invariant data[i] == Row(s, d0, i, j)
      invariant forall k :: 0 <= k < |d0| && k != i ==> data[k] == old(data[k])
    {
      ghost var before := data[i];
      if j != i {
        assert data[j].position == d0[j].position && data[j].direction == d0[j].direction;
        var offset := Sub(data[j].position, data[i].position);
        var sqrDist := SqrMag(offset);
        assert Avoids(s, before.position, d0[j].position) ==> sqrDist != 0.0;
        VisitSteps(s, before, d0[j]);
        if sqrDist < s.perceptionRadius * s.perceptionRadius {
          data[i] := data[i].(numFlockmates := data[i].numFlockmates + 1);
          data[i] := data[i].(flockHeading := Add(data[i].flockHeading, data[j].direction));
          data[i] := data[i].(flockCentre := Add(data[i].flockCentre, data[i].position));
          if sqrDist < s.avoidanceRadius * s.avoidanceRadius {
            data[i] := data[i].(avoidanceHeading := Sub(data[i].avoidanceHeading, DivBy(offset, sqrDist)));
          }
        }
      }
    }
  }

  /** The three outcomes of one visit of a different boid. */
  lemma VisitSteps(s: BoidSettings, d: BoidData, other: BoidData)
    requires Avoids(s, d.position, other.position) ==> SqrDist(d.position, other.position) != 0.0
    ensures var offset := Sub(other.position, d.position);
      var sqrDist := SqrMag(offset);
      var counted := d.(numFlockmates := d.numFlockmates + 1,
                        flockHeading := Add(d.flockHeading, other.direction),
                        flockCentre := Add(d.flockCentre, d.position));
      && (!(sqrDist < s.perceptionRadius * s.perceptionRadius) ==> Visit(s, d, other, false) == d)
      && (sqrDist < s.perceptionRadius * s.perceptionRadius && !(sqrDist < s.avoidanceRadius * s.avoidanceRadius) ==>
            Visit(s, d, other, false) == counted)
      && (sqrDist < s.perceptionRadius * s.perceptionRadius && sqrDist < s.avoidanceRadius * s.avoidanceRadius ==>
            sqrDist != 0.0 &&
            Visit(s, d, other, false) == counted.(avoidanceHeading := Sub(d.avoidanceHeading, DivBy(offset, sqrDist))))
  {
  }

  // ---------------------------------------------------------------------------
  // The boid list

  /**
    Unity's overloaded `boid == null`: true for a null reference, and for a boid whose
    game object has been destroyed (its cached transform is then null as well).
   */
  predicate UnityNull(b: Boid?)
    reads b
  {
    b == null || b.cachedTransform == null
  }

  /** The destroyed boids of a list. */
  function Destroyed(l: seq<Boid>): (r: set<Boid>)
    reads l
    ensures forall k :: 0 <= k < |l| ==> (l[k] in r <==> UnityNull(l[k]))
  {
    set b | b in l && b.cachedTransform == null
  }

  /** List<T>.Remove: drops the first occurrence of x, if any. */
  function RemoveFirst<T(==)>(l: seq<T>, x: T): (r: seq<T>)
    ensures |r| <= |l|
  {
    if |l| == 0 then l
    else if l[0] == x then l[1..]
    else [l[0]] + RemoveFirst(l[1..], x)
  }

  /** RemoveFirst takes exactly one copy of x away when there is one, and nothing otherwise. */
  lemma {:induction false} RemoveFirstCounts<T>(l: seq<T>, x: T)
    ensures x in l ==> |RemoveFirst(l, x)| == |l| - 1 && multiset(RemoveFirst(l, x)) == multiset(l) - multiset{x}
    ensures x !in l ==> RemoveFirst(l, x) == l
  {
    if |l| != 0 {
      assert l == [l[0]] + l[1..];
      if l[0] != x {
        RemoveFirstCounts(l[1..], x);
      }
    }
  }

  /** Removing an element absent from the front part only touches the back part. */
  lemma {:induction false} RemoveFirstAppend<T>(a: seq<T>, b: seq<T>, x: T)
    requires x !in a
    ensures RemoveFirst(a + b, x) == a + RemoveFirst(b, x)
  {
    if |a| == 0 {
      assert a + b == b;
    } else {
      var ab := a + b;
      assert ab[0] == a[0] != x;
      assert ab[1..] == a[1..] + b;
      assert RemoveFirst(ab, x) == [a[0]] + RemoveFirst(a[1..] + b, x);
      RemoveFirstAppend(a[1..], b, x);
      assert a == [a[0]] + a[1..];
    }
  }

  lemma SubMultisetMember<T>(a: seq<T>, b: seq<T>, x: T)
    requires multiset(a) <= multiset(b) && x in a
    ensures x in b
  {
    assert x in multiset(a);
  }

  predicate Distinct<T(==)>(l: seq<T>) {
    forall a, b :: 0 <= a < b < |l| ==> l[a] != l[b]
  }

  /**
    The list left by Flock.RemoveAll from index i on: the loop removes the element at
    index i and moves to i + 1 while the list shrinks under it. Remove refuses the
    elements of `refused` (destroyed boids), which stay where they are.
   */
  function RemoveAllFrom<T(==)>(l: seq<T>, i: nat, refused: set<T>): seq<T>
    decreases |l| - i
  {
    if i >= |l| then l
    else if l[i] in refused then RemoveAllFrom(l, i + 1, refused)
    else RemoveAllFrom(RemoveFirst(l, l[i]), i + 1, refused)
  }

  /** An element occurs once in a list of distinct elements. */
  lemma {:induction false} DistinctOnce<T>(l: seq<T>, x: T)
    requires Distinct(l) && x in l
    ensures multiset(l)[x] == 1
  {
    assert l == [l[0]] + l[1..];
    if l[0] == x {
      assert x !in l[1..];
    } else {
      DistinctOnce(l[1..], x);
    }
  }

  /** The elements at the odd indices 1, 3, 5, ... */
  function OddIndexed<T>(l: seq<T>): (r: seq<T>)
    ensures |r| == |l| / 2
  {
    seq(|l| / 2, k requires 0 <= k < |l| / 2 => l[2 * k + 1])
  }

  lemma OddIndexedExtend<T>(l: seq<T>, i: nat)
    requires 2 * i + 2 <= |l|
    ensures OddIndexed(l[..2 * i + 2]) == OddIndexed(l[..2 * i]) + [l[2 * i + 1]]
  {
  }

  /** Among distinct elements, the one at index 2i is not among the odd-indexed ones before it. */
  lemma OddPrefixExcludes<T>(l: seq<T>, i: nat)
    requires Distinct(l) && 2 * i < |l|
    ensures l[2 * i] !in OddIndexed(l[..2 * i])
  {
    var front := OddIndexed(l[..2 * i]);
    forall k | 0 <= k < |front|
      ensures front[k] != l[2 * i]
    {
      assert front[k] == l[2 * k + 1];
    }
  }

  /** The element at index 2i is the one the loop removes at step i; it sits at index i of the list. */
  lemma RemoveAllRemovesNext<T>(l: seq<T>, i: nat)
    requires Distinct(l) && 2 * i < |l|
    ensures var front := OddIndexed(l[..2 * i]);
      (front + l[2 * i..])[i] == l[2 * i]
      && RemoveFirst(front + l[2 * i..], l[2 * i]) == front + l[2 * i + 1..]
  {
    var front := OddIndexed(l[..2 * i]);
    var rest := l[2 * i..];
    OddPrefixExcludes(l, i);
    RemoveFirstAppend(front, rest, l[2 * i]);
    assert rest == [l[2 * i]] + l[2 * i + 1..];
  }

  lemma Regroup<T>(front: seq<T>, y: T, rest: seq<T>)
    ensures front + ([y] + rest) == (front + [y]) + rest
  {
  }

  /** The list after step i, regrouped as the list before step i + 1. */
  lemma RemoveAllNextList<T>(l: seq<T>, i: nat)
    requires 2 * i + 2 <= |l|
    ensures OddIndexed(l[..2 * i]) + l[2 * i + 1..] == OddIndexed(l[..2 * i + 2]) + l[2 * i + 2..]
  {
    OddIndexedExtend(l, i);
    assert l[2 * i + 1..] == [l[2 * i + 1]] + l[2 * i + 2..];
    Regroup(OddIndexed(l[..2 * i]), l[2 * i + 1], l[2 * i + 2..]);
  }

  /** When fewer than two elements remain past 2i, the odd-indexed prefix is already all of them. */
  lemma OddIndexedTail<T>(l: seq<T>, i: nat)
    requires 2 * i <= |l| <= 2 * i + 1
    ensures OddIndexed(l[..2 * i]) == OddIndexed(l)
  {
  }

  /**
    The RemoveAll loop on a list of distinct boids: after i steps the list holds the
    odd-indexed elements of the first 2i and the untouched rest.
   */
  lemma {:induction false} RemoveAllFromStep<T>(l: seq<T>, i: nat, refused: set<T>)
    requires Distinct(l) && 2 * i <= |l|
    requires forall k :: 0 <= k < |l| ==> l[k] !in refused
    ensures RemoveAllFrom(OddIndexed(l[..2 * i]) + l[2 * i..], i, refused) == OddIndexed(l)
    decreases |l| - 2 * i
  {
    var front := OddIndexed(l[..2 * i]);
    var current := front + l[2 * i..];
    if 2 * i == |l| {
      OddIndexedTail(l, i);
      assert current == front;
    } else {
      RemoveAllRemovesNext(l, i);
      var next := front + l[2 * i + 1..];
      assert |current| > i && RemoveFirst(current, current[i]) == next;
      assert RemoveAllFrom(current, i, refused) == RemoveAllFrom(next, i + 1, refused);
      if 2 * i + 1 == |l| {
        OddIndexedTail(l, i);
        assert next == front;
      } else {
        RemoveAllNextList(l, i);
        RemoveAllFromStep(l, i + 1, refused);
      }
    }
  }

  /** On a list of distinct live boids RemoveAll keeps exactly those at the odd indices. */
  lemma RemoveAllKeepsOddIndexed<T>(l: seq<T>, refused: set<T>)
    requires Distinct(l)
    requires forall k :: 0 <= k < |l| ==> l[k] !in refused
    ensures RemoveAllFrom(l, 0, refused) == OddIndexed(l)
  {
    assert l[..0] == [] && l[0..] == l;
    assert OddIndexed(l[..0]) + l[0..] == l;
    RemoveAllFromStep(l, 0, refused);
  }

  /** Two distinct live boids: RemoveAll leaves the second one in the list. */
  lemma RemoveAllOfTwo<T>(a: T, b: T, refused: set<T>)
    requires a != b && a !in refused && b !in refused
    ensures RemoveAllFrom([a, b], 0, refused) == [b]
  {
    RemoveAllKeepsOddIndexed([a, b], refused);
  }

  // ---------------------------------------------------------------------------
  // The flock

  /**
    The fields the apply loop of Simulate writes into a boid, after the boid's update:
    a live boid divides its centre by the count, a destroyed one leaves it as copied.
   */
  ghost predicate Applied(b: Boid, row: BoidData)
    reads b
  {
    && b.numPerceivedFlockmates == row.numFlockmates
    && b.avgFlockHeading == row.flockHeading
    && b.avgAvoidanceHeading == row.avoidanceHeading
    && b.centreOfFlockmates == (if b.cachedTransform != null then Centre(row) else row.flockCentre)
  }

  /** Boid `b` holds the aggregate `row` computed for it from a snapshot in which it stood at `position`. */
  ghost predicate Absorbed(b: Boid, row: BoidData, position: Vec3)
    reads b
  {
    && b.numPerceivedFlockmates == row.numFlockmates
    && b.avgFlockHeading == row.flockHeading
    && b.avgAvoidanceHeading == row.avoidanceHeading
    && b.centreOfFlockmates == (if b.cachedTransform == null then row.flockCentre
                                else if row.numFlockmates != 0 then position else Zero)
  }

  /** What ties a boid to the rest of the game: its settings, target, transform and owner. */
  datatype Ties = Ties(settings: BoidSettings, target: Transform?, cachedTransform: Transform?, flock: object?)

  ghost function TiesOf(b: Boid): Ties
    reads b
  {
    Ties(b.settings, b.target, b.cachedTransform, b.flock)
  }

  /** A boid's motion: where it is, where it heads and its velocity. */
  datatype Motion = Motion(position: Vec3, direction: Vec3, velocity: Vec3)

  ghost function MotionOf(b: Boid): Motion
    reads b
  {
    Motion(b.position, b.direction, b.velocity)
  }

  /** Every row of a processed well-separated snapshot centres its boid on its own position, or on zero. */
  lemma CentresOfRows(s: BoidSettings, snap: seq<BoidData>)
    requires WellSeparated(s, snap) && forall k :: 0 <= k < |snap| ==> IsSnapshot(snap[k])
    ensures forall k :: 0 <= k < |snap| ==>
      Centre(Processed(s, snap)[k]) == (if Processed(s, snap)[k].numFlockmates != 0 then snap[k].position else Zero)
  {
    forall k | 0 <= k < |snap|
      ensures Centre(Processed(s, snap)[k]) == (if Processed(s, snap)[k].numFlockmates != 0 then snap[k].position else Zero)
    {
      CentreOfRow(s, snap, k);
    }
  }

  /** Applied rows whose centres are known are Absorbed. */
  lemma AppliedIsAbsorbed(list: seq<Boid>, rows: seq<BoidData>, snap: seq<BoidData>)
    requires |list| == |rows| == |snap|
    requires forall k :: 0 <= k < |list| ==> Applied(list[k], rows[k])
    requires forall k :: 0 <= k < |rows| ==>
      Centre(rows[k]) == (if rows[k].numFlockmates != 0 then snap[k].position else Zero)
    ensures forall k :: 0 <= k < |list| ==> Absorbed(list[k], rows[k], snap[k].position)
  {
  }

  /** The snapshot Simulate takes of a list of boids: each boid's position and direction. */
  function Snapshots(list: seq<Boid>): (r: seq<BoidData>)
    reads list
    ensures |r| == |list|
    ensures forall i :: 0 <= i < |list| ==> r[i] == Snapshot(list[i].position, list[i].direction)
  {
    seq(|list|, i requires 0 <= i < |list| reads list => Snapshot(list[i].position, list[i].direction))
  }

  /** What one boid's UpdateBoid reads of itself before it runs: pose, velocity and surroundings. */
  datatype Pose = Pose(position: Vec3, direction: Vec3, velocity: Vec3, env: Surroundings)

  /** What UpdateBoid of b would read now. */
  ghost function PoseOf(b: Boid, cast: CircleCast): Pose
    reads b, b.target, b.cachedTransform
    requires b.cachedTransform != null
  {
    Pose(b.position, b.direction, b.velocity, b.Surround(cast))
  }

  /** The pose standing in for a destroyed boid, whose UpdateBoid reads nothing. */
  function Still(cast: CircleCast): Pose {
    Pose(Zero, Zero, Zero, Surroundings(None, cast, Zero, v => v))
  }

  /** The poses of a list of boids in list order, as they stand now; Still for a destroyed boid. */
  ghost function Poses(list: seq<Boid>, cast: CircleCast): (r: seq<Pose>)
    reads list, set b | b in list :: b.target, set b | b in list :: b.cachedTransform
    ensures Posed(list, cast, r)
  {
    if |list| == 0 then []
    else [if list[0].cachedTransform != null then PoseOf(list[0], cast) else Still(cast)] + Poses(list[1..], cast)
  }

  /** Each boid of list that has its transform would read the pose at its index in poses. */
  ghost predicate Posed(list: seq<Boid>, cast: CircleCast, poses: seq<Pose>)
    reads list, set b | b in list :: b.target, set b | b in list :: b.cachedTransform
  {
    && |poses| == |list|
    && (forall k :: 0 <= k < |list| && list[k].cachedTransform != null ==> PoseOf(list[k], cast) == poses[k])
  }

  /**
    No two boids share a transform, and no boid's target is a boid's transform: then
    one boid's update moves nothing that another boid's update reads. A destroyed
    boid has no transform and moves nothing, so it is not compared.
   */
  ghost predicate Separate(list: seq<Boid>)
    reads list
  {
    && (forall a, c :: 0 <= a < c < |list| && list[a].cachedTransform != null ==>
          list[a].cachedTransform != list[c].cachedTransform)
    && (forall a, c :: 0 <= a < |list| && 0 <= c < |list| && list[c].cachedTransform != null ==>
          list[a].target != list[c].cachedTransform)
  }

  /** The boids of list are distinct and Separate. */
  ghost predicate Untangled(list: seq<Boid>)
    reads list
  {
    Distinct(list) && Separate(list)
  }

  /** The velocity a boid integrates from `pre` with the aggregate `row`, before its speed is clamped. */
  function Integrated(m: Numerics, s: BoidSettings, row: BoidData, dt: real, pre: Pose): Vec3 {
    Add(pre.velocity, Scale(dt, Acceleration(m, s, pre.position, pre.direction, pre.velocity,
                                             row.flockHeading, row.flockCentre, row.avoidanceHeading,
                                             row.numFlockmates, pre.env)))
  }

  /**
    Boid `b` has taken its UpdateBoid step from `pre` with the aggregate `row`: the
    integrated velocity is clamped into its new velocity and direction, and its
    transform has moved by dt times the new velocity.
   */
  ghost predicate Ticked(b: Boid, row: BoidData, dt: real, pre: Pose)
    reads b, b.cachedTransform
  {
    && b.cachedTransform != null
    && Stepped(b.maths, b.settings, Integrated(b.maths, b.settings, row, dt, pre), b.velocity, b.direction)
    && b.cachedTransform.position == Add(pre.env.origin, Scale(dt, b.velocity))
    && b.position == b.cachedTransform.position
  }

  /**
    The apply loop of Simulate after its first i passes over `list`, with `rows` the
    aggregates: when the boids are distinct, the first i hold their rows; when they
    are also Untangled, the first i have Ticked from their poses in `poses` and the
    rest still stand at theirs.
   */
  ghost predicate Progress(list: seq<Boid>, rows: seq<BoidData>, dt: real, cast: CircleCast, poses: seq<Pose>, i: nat,
                           distinct: bool, separate: bool)
    reads list, set b | b in list :: b.cachedTransform, set b | b in list :: b.target
  {
    && i <= |list| == |rows|
    && (distinct ==> forall k :: 0 <= k < i ==> Applied(list[k], rows[k]))
    && (separate ==>
         && distinct && Separate(list) && |poses| == |list|
         && (forall k :: i <= k < |list| && list[k].cachedTransform != null ==> PoseOf(list[k], cast) == poses[k])
         && (forall k :: 0 <= k < i && list[k].cachedTransform != null ==> Ticked(list[k], rows[k], dt, poses[k])))
  }

  /**
    After a tick from a non-zero integrated velocity, a boid with valid settings heads
    along a unit vector at a speed within [minSpeed, maxSpeed].
   */
  lemma TickInBand(b: Boid, row: BoidData, dt: real, pre: Pose)
    requires Lawful(b.maths) && ValidSettings(b.settings)
    requires Ticked(b, row, dt, pre) && SqrMag(Integrated(b.maths, b.settings, row, dt, pre)) != 0.0
    ensures SqrMag(b.direction) == 1.0
    ensures b.settings.minSpeed <= Magnitude(b.maths, b.velocity) <= b.settings.maxSpeed
  {
    SteppedInBand(b.maths, b.settings, Integrated(b.maths, b.settings, row, dt, pre), b.velocity, b.direction);
  }

  /**
    Boid `b`, having Ticked from `pre` with `row`, heads along a unit vector at a speed
    within its speed band, whenever its laws and settings are valid and the integrated
    velocity is not zero.
   */
  ghost predicate InBandAfter(b: Boid, row: BoidData, dt: real, pre: Pose)
    reads b
  {
    Lawful(b.maths) && ValidSettings(b.settings) && SqrMag(Integrated(b.maths, b.settings, row, dt, pre)) != 0.0 ==>
      && SqrMag(b.direction) == 1.0
      && b.settings.minSpeed <= Magnitude(b.maths, b.velocity) <= b.settings.maxSpeed
  }

  /** TickInBand for every boid of a list that has Ticked. */
  lemma TickedInBand(list: seq<Boid>, rows: seq<BoidData>, dt: real, poses: seq<Pose>)
    requires |rows| == |poses| == |list|
    requires forall i :: 0 <= i < |list| && list[i].cachedTransform != null ==> Ticked(list[i], rows[i], dt, poses[i])
    ensures forall i :: 0 <= i < |list| && list[i].cachedTransform != null ==> InBandAfter(list[i], rows[i], dt, poses[i])
  {
    forall i | 0 <= i < |list| && list[i].cachedTransform != null
      ensures InBandAfter(list[i], rows[i], dt, poses[i])
    {
      var b := list[i];
      if Lawful(b.maths) && ValidSettings(b.settings) && SqrMag(Integrated(b.maths, b.settings, rows[i], dt, poses[i])) != 0.0 {
        TickInBand(b, rows[i], dt, poses[i]);
      }
    }
  }

  class Flock {
    /** Square root and trigonometry handed to the boids this flock spawns. */
    const maths: Numerics

    var settings: BoidSettings
    var target: Transform?
    var boidCount: int
    /** The `boids` list; None until Begin. */
    var boids: Option<seq<Boid>>
    var isSimulating: bool

    /** The boids in the list (none before Begin). */
    function Members(): seq<Boid>
      reads this
    {
      if boids.Some? then boids.value else []
    }

    /** The component as configured: settings and target set, no list yet, not simulating. */
    constructor(maths: Numerics, settings: BoidSettings, target: Transform?)
      ensures this.maths == maths && this.settings == settings && this.target == target
      ensures boids == None && boidCount == 0 && !isSimulating
    {
      this.maths := maths;
      this.settings := settings;
      this.target := target;
      boids := None;
      boidCount := 0;
      isSimulating := false;
    }

    /**
      Flock.Begin: falls back to the tagged transform when no target is set, spawns
      startingBoidCount boids around `spawn` (the origin when null) offset by the
      given jitter, initialises each one and starts the simulation.
     */
    method Begin(spawn: Transform?, tagged: Transform?, jitter: seq<Vec3>, prefabUp: Vec3, prefabToWorld: Vec3 -> Vec3)
      requires target != null || tagged != null
      requires settings.startingBoidCount <= |jitter|
      modifies this
      ensures settings == old(settings) && target == (if old(target) != null then old(target) else tagged)
      ensures target != null
      ensures isSimulating && boids.Some?
      ensures boidCount == |boids.value| == (if settings.startingBoidCount < 0 then 0 else settings.startingBoidCount)
      ensures Distinct(boids.value) && Untangled(boids.value)
      ensures forall i :: 0 <= i < |boids.value| ==>
        var b := boids.value[i];
        && fresh(b) && b.cachedTransform != null && fresh(b.cachedTransform)
        && b.flock == this && b.settings == settings && b.target == target && b.maths == maths
        && b.RaysCached()
        && b.position == Add(if spawn != null then spawn.position else Zero, jitter[i])
        && b.direction == prefabUp
        && b.velocity == Scale((settings.minSpeed + settings.maxSpeed) / 2.0, prefabUp)
    {
      if target == null {
        target := tagged;
      }
      var list: seq<Boid> := [];
      var i := 0;
      while i < settings.startingBoidCount
        invariant settings == old(settings) && target == (if old(target) != null then old(target) else tagged)
        invariant 0 <= i <= |jitter| && |list| == i && (i <= settings.startingBoidCount || i == 0)
        invariant Distinct(list)
        invariant forall a, c :: 0 <= a < c < i ==> list[a].cachedTransform != list[c].cachedTransform
        invariant forall k :: 0 <= k < i ==>
          var b := list[k];
          && fresh(b) && b.cachedTransform != null && fresh(b.cachedTransform)
          && b.flock == this && b.settings == settings && b.target == target && b.maths == maths
          && b.RaysCached()
          && b.position == Add(if spawn != null then spawn.position else Zero, jitter[k])
          && b.direction == prefabUp
          && b.velocity == Scale((settings.minSpeed + settings.maxSpeed) / 2.0, prefabUp)
      {
        var origin := if spawn != null then spawn.position else Zero;
        var t := new Transform(Zero, prefabUp, prefabToWorld);
        var boid := new Boid(t, maths);
        t.position := Add(origin, jitter[i]);
        boid.Init(this, settings, target);
        list := list + [boid];
        i := i + 1;
      }
      boids := Some(list);
      boidCount := |list|;
      isSimulating := true;
    }
  
    /**
      Flock.AddBoid: refuses a boid that is null under Unity's `==` (a null reference or
      a destroyed one) and a flock that has not begun; otherwise initialises the boid
      for this flock, appends it, and counts it when asked to.
     */
    method AddBoid(boid: Boid?, updateBoidCount: bool) returns (added: bool)
      modifies this, boid
      ensures added <==> !old(UnityNull(boid)) && old(boids).Some?
      ensures settings == old(settings) && target == old(target) && isSimulating == old(isSimulating)
      ensures !added ==> boids == old(boids) && boidCount == old(boidCount)
      ensures !added && boid != null ==> unchanged(boid)
      ensures added ==>
        && boids == Some(old(boids).value + [boid])
        && boidCount == old(boidCount) + (if updateBoidCount then 1 else 0)
        && boid.flock == this && boid.settings == settings && boid.target == target
        && boid.cachedTransform == old(boid.cachedTransform)
        && boid.position == boid.cachedTransform.position && boid.direction == boid.cachedTransform.up
        && boid.velocity == Scale((settings.minSpeed + settings.maxSpeed) / 2.0, boid.cachedTransform.up)
        && boid.avgFlockHeading == old(boid.avgFlockHeading) && boid.avgAvoidanceHeading == old(boid.avgAvoidanceHeading)
        && boid.centreOfFlockmates == old(boid.centreOfFlockmates)
        && boid.numPerceivedFlockmates == old(boid.numPerceivedFlockmates)
        && (old(boid.RaysCached()) ==> boid.RaysCached())
    {
      if UnityNull(boid) || boids == None {
        return false;
      }
      boid.Init(this, settings, target);
      boids := Some(boids.value + [boid]);
      if updateBoidCount {
        boidCount := boidCount + 1;
      }
      return true;
    }

    /**
      Flock.Remove: refuses a boid that is null under Unity's `==` and a flock that has
      not begun; otherwise drops the first occurrence of the boid from the list and
      reports success whether or not the boid was there. A destroyed boid is refused,
      so it stays in the list.
     */
    method Remove(boid: Boid?) returns (removed: bool)
      modifies this`boids
      ensures removed <==> !UnityNull(boid) && old(boids).Some?
      ensures removed ==> boids == Some(RemoveFirst<Boid>(old(boids).value, boid))
      ensures !removed ==> boids == old(boids)
    {
      if UnityNull(boid) || boids == None {
        return false;
      }
      boids := Some(RemoveFirst<Boid>(boids.value, boid));
      return true;
    }

    /** Flock.RemoveBoid: Remove, then uncount the boid when asked to and Remove succeeded. */
    method RemoveBoid(boid: Boid?, updateBoidCount: bool) returns (removed: bool)
      modifies this`boids, this`boidCount
      ensures removed <==> !UnityNull(boid) && old(boids).Some?
      ensures removed ==> boids == Some(RemoveFirst<Boid>(old(boids).value, boid))
      ensures !removed ==> boids == old(boids)
      ensures boidCount == old(boidCount) - (if removed && updateBoidCount then 1 else 0)
    {
      removed := Remove(boid);
      if !removed {
        return;
      }
      if updateBoidCount {
        boidCount := boidCount - 1;
      }
    }

    /**
      RemoveBoid as intended: the boid leaves the list whenever it is a reference at
      all, destroyed or not, so a destroyed boid that asks to leave is gone.
     */
    method RemoveListed(boid: Boid?, updateBoidCount: bool) returns (removed: bool)
      modifies this`boids, this`boidCount
      ensures removed <==> boid != null && old(boids).Some?
      ensures removed ==> boids == Some(RemoveFirst<Boid>(old(boids).value, boid))
      ensures removed && Distinct(old(boids).value) ==> boid !in boids.value
      ensures !removed ==> boids == old(boids)
      ensures boidCount == old(boidCount) - (if removed && updateBoidCount then 1 else 0)
    {
      if boid == null || boids == None {
        return false;
      }
      RemoveFirstCounts<Boid>(boids.value, boid);
      if boid in boids.value && Distinct(boids.value) {
        DistinctOnce<Boid>(boids.value, boid);
      }
      boids := Some(RemoveFirst<Boid>(boids.value, boid));
      if updateBoidCount {
        boidCount := boidCount - 1;
      }
      return true;
    }

    /** Flock.CompleteRemove: Remove (the game object is destroyed as well); the count is untouched. */
    method CompleteRemove(boid: Boid?)
      modifies this`boids
      ensures boids == (if !UnityNull(boid) && old(boids).Some? then Some(RemoveFirst<Boid>(old(boids).value, boid)) else old(boids))
    {
      var removed := Remove(boid);
    }

    method StopSimulation()
      modifies this`isSimulating
      ensures !isSimulating
    {
      isSimulating := false;
    }

    method ResumeSimulation()
      modifies this`isSimulating
      ensures isSimulating
    {
      isSimulating := true;
    }

    /**
      Flock.ChangeSettings: the flock takes the new settings first; then every boid in
      its list takes them too, or, before Begin, reading the missing list throws.
     */
    method ChangeSettings(s: BoidSettings) returns (thrown: bool)
      modifies this`settings, Members()
      ensures settings == s && boids == old(boids)
      ensures thrown <==> old(boids).None?
      ensures forall b :: b in Members() ==> b.settings == s
      ensures forall b :: b in Members() ==>
        b.position == old(b.position) && b.direction == old(b.direction) && b.velocity == old(b.velocity)
        && b.target == old(b.target) && b.flock == old(b.flock) && b.cachedTransform == old(b.cachedTransform)
        && b.obstacleRays == old(b.obstacleRays)
        && b.avgFlockHeading == old(b.avgFlockHeading) && b.avgAvoidanceHeading == old(b.avgAvoidanceHeading)
        && b.centreOfFlockmates == old(b.centreOfFlockmates) && b.numPerceivedFlockmates == old(b.numPerceivedFlockmates)
    {
      settings := s;
      if boids == None {
        return true;
      }
      var list := boids.value;
      for i := 0 to |list|
        invariant settings == s && boids == old(boids)
        invariant forall k :: 0 <= k < i ==> list[k].settings == s
        invariant forall b :: b in list ==>
          b.position == old(b.position) && b.direction == old(b.direction) && b.velocity == old(b.velocity)
          && b.target == old(b.target) && b.flock == old(b.flock) && b.cachedTransform == old(b.cachedTransform)
          && b.obstacleRays == old(b.obstacleRays)
          && b.avgFlockHeading == old(b.avgFlockHeading) && b.avgAvoidanceHeading == old(b.avgAvoidanceHeading)
          && b.centreOfFlockmates == old(b.centreOfFlockmates) && b.numPerceivedFlockmates == old(b.numPerceivedFlockmates)
      {
        list[i].SetSettings(s);
      }
      return false;
    }

    /**
      Flock.RemoveAll as written: the index advances while the list shrinks, so the
      result is RemoveAllFrom(list, 0, destroyed) (on distinct live boids, those at odd
      indices); a destroyed boid is refused and stays. The count is untouched.
     */
    method RemoveAll() returns (thrown: bool)
      modifies this`boids
      ensures thrown <==> old(boids).None?
      ensures boids == if thrown then old(boids) else Some(RemoveAllFrom(old(boids).value, 0, old(Destroyed(boids.value))))
    {
      if boids == None {
        return true;
      }
      ghost var refused := Destroyed(boids.value);
      var i := 0;
      while i < |boids.value|
        invariant boids.Some? && multiset(boids.value) <= multiset(old(boids).value)
        invariant RemoveAllFrom(boids.value, i, refused) == RemoveAllFrom(old(boids).value, 0, refused)
        decreases |boids.value| - i
      {
        var list := boids.value;
        SubMultisetMember(list, old(boids).value, list[i]);
        assert list[i] in refused <==> UnityNull(list[i]);
        RemoveFirstCounts(list, list[i]);
        CompleteRemove(list[i]);
        i := i + 1;
      }
      return false;
    }

    /**
      RemoveAll as intended: removing from the back with the intended removal
      (RemoveListed, which also takes destroyed boids) empties the list whatever it
      holds. The count is untouched.
     */
    method RemoveAllFromEnd() returns (thrown: bool)
      modifies this`boids, this`boidCount
      ensures thrown <==> old(boids).None?
      ensures boids == if thrown then old(boids) else Some([])
      ensures boidCount == old(boidCount)
    {
      if boids == None {
        return true;
      }
      var i := |boids.value| - 1;
      while i >= 0
        invariant boids.Some? && |boids.value| == i + 1
        invariant boidCount == old(boidCount)
        decreases i + 1
      {
        RemoveFirstCounts(boids.value, boids.value[i]);
        var _ := RemoveListed(boids.value[i], false);
        i := i - 1;
      }
      return false;
    }

    /**
      Flock.Simulate: with a list and the simulation running, snapshots every boid,
      aggregates the snapshot with ProcessData, then pushes row i into boids[i] and
      updates it. A boid whose game object is gone asks to be removed during its own
      update, but RemoveBoid refuses it (Unity's `==` makes it null), so the list and
      the count never change during a tick and the dead boid stays listed.
     */
    method Simulate(dt: real, cast: CircleCast)
      requires forall b :: b in Members() ==> b.RaysCached()
      requires boids.Some? && isSimulating ==> WellSeparated(settings, Snapshots(boids.value))
      modifies this, Members(), set b | b in Members() :: b.cachedTransform
      ensures settings == old(settings) && target == old(target) && isSimulating == old(isSimulating)
      ensures boids == old(boids) && boidCount == old(boidCount)
      ensures !(old(boids).Some? && old(isSimulating)) ==> forall b :: b in old(Members()) ==> unchanged(b)
      ensures !(old(boids).Some? && old(isSimulating)) ==>
        forall b :: b in old(Members()) && b.cachedTransform != null ==> unchanged(b.cachedTransform)
      ensures forall i :: 0 <= i < |Members()| && old(Members()[i].cachedTransform) == null ==>
        MotionOf(Members()[i]) == old(MotionOf(Members()[i]))
      ensures forall k :: 0 <= k < |Members()| ==>
        Members()[k].RaysCached() && TiesOf(Members()[k]) == old(TiesOf(Members()[k]))
      ensures old(boids).Some? && old(isSimulating) && Distinct(Members()) ==>
        forall i :: 0 <= i < |Members()| ==>
          Absorbed(Members()[i], old(Processed(settings, Snapshots(Members())))[i], old(Members()[i].position))
      ensures old(boids).Some? && old(isSimulating) && old(Untangled(Members())) ==>
        forall i :: 0 <= i < |Members()| && old(Members()[i].cachedTransform) != null ==>
          Ticked(Members()[i], old(Processed(settings, Snapshots(Members())))[i], dt, old(PoseOf(Members()[i], cast)))
      ensures old(boids).Some? && old(isSimulating) && old(Untangled(Members())) ==>
        forall i :: 0 <= i < |Members()| && old(Members()[i].cachedTransform) != null ==>
          InBandAfter(Members()[i], old(Processed(settings, Snapshots(Members())))[i], dt, old(PoseOf(Members()[i], cast)))
    {
      if boids == None || !isSimulating {
        return;
      }
      ghost var snap := Snapshots(boids.value);
      Run(dt, cast, snap, Processed(settings, snap));
    }

    /**
      The running branch of Simulate: snapshot, ProcessData, then the apply loop, stated
      against the boids' poses when it begins.
     */
    method Run(dt: real, cast: CircleCast, ghost snap: seq<BoidData>, ghost expected: seq<BoidData>)
      requires boids.Some? && isSimulating
      requires forall b :: b in boids.value ==> b.RaysCached()
      requires snap == Snapshots(boids.value) && WellSeparated(settings, snap) && expected == Processed(settings, snap)
      modifies this`boids, this`boidCount, boids.value, set b | b in boids.value :: b.cachedTransform
      ensures boids == old(boids) && boidCount == old(boidCount)
      ensures forall k :: 0 <= k < |boids.value| ==>
        boids.value[k].RaysCached() && TiesOf(boids.value[k]) == old(TiesOf(boids.value[k]))
      ensures forall i :: 0 <= i < |boids.value| && old(boids.value[i].cachedTransform) == null ==>
        MotionOf(boids.value[i]) == old(MotionOf(boids.value[i]))
      ensures Distinct(boids.value) ==>
        forall i :: 0 <= i < |boids.value| ==> Absorbed(boids.value[i], expected[i], snap[i].position)
      ensures old(Untangled(boids.value)) ==>
        forall i :: 0 <= i < |boids.value| && old(boids.value[i].cachedTransform) != null ==>
          Ticked(boids.value[i], expected[i], dt, old(PoseOf(boids.value[i], cast)))
      ensures old(Untangled(boids.value)) ==>
        forall i :: 0 <= i < |boids.value| && old(boids.value[i].cachedTransform) != null ==>
          InBandAfter(boids.value[i], expected[i], dt, old(PoseOf(boids.value[i], cast)))
    {
      ghost var separate := Untangled(boids.value);
      ghost var poses := if separate then Poses(boids.value, cast) else [];
      var list := boids.value;
      ghost var distinct := Distinct(list);
      CentresOfRows(settings, snap);
      assert forall k :: 0 <= k < |snap| ==>
        Centre(expected[k]) == (if expected[k].numFlockmates != 0 then snap[k].position else Zero);
      var boidData := Aggregate(list, snap, cast, poses);
      ghost var rows := boidData[..];
      assert rows == expected;
      ApplyAll(boidData, dt, cast, list, distinct, separate, rows, poses);
      if distinct {
        AppliedIsAbsorbed(list, expected, snap);
      }
      if separate {
        TickedInBand(boids.value, expected, dt, poses);
      }
    }

    /** The first half of Simulate: snapshot the boids in order, then run ProcessData on the snapshot. */
    method Aggregate(list: seq<Boid>, ghost snap: seq<BoidData>, ghost cast: CircleCast, ghost poses: seq<Pose>)
      returns (boidData: array<BoidData>)
      requires snap == Snapshots(list) && WellSeparated(settings, snap)
      ensures fresh(boidData) && boidData[..] == Processed(settings, snap)
      ensures Untangled(list) == old(Untangled(list))
      ensures Posed(list, cast, poses) == old(Posed(list, cast, poses))
    {
      boidData := TakeSnapshot(list);
      ProcessData(boidData, settings, |list|);
    }

    /** The snapshot loop of Simulate: a zeroed BoidData array holding each boid's position and direction. */
    method TakeSnapshot(list: seq<Boid>) returns (boidData: array<BoidData>)
      ensures fresh(boidData) && boidData[..] == Snapshots(list)
    {
      boidData := new BoidData[|list|](_ => Snapshot(Zero, Zero));
      for i := 0 to |list|
        invariant forall k :: 0 <= k < i ==> boidData[k] == Snapshot(list[k].position, list[k].direction)
        invariant forall k :: i <= k < |list| ==> boidData[k] == Snapshot(Zero, Zero)
      {
        boidData[i] := boidData[i].(position := list[i].position, direction := list[i].direction);
      }
    }

    /**
      The apply loop of Simulate: row i goes into boids[i], which then updates. The
      index is checked against the current length, which no pass changes.
     */
    method ApplyAll(boidData: array<BoidData>, dt: real, cast: CircleCast, ghost list: seq<Boid>, ghost distinct: bool,
                    ghost separate: bool, ghost rows: seq<BoidData>, ghost poses: seq<Pose>)
      requires boids == Some(list) && boidData.Length == |list| && boidData[..] == rows
      requires forall k :: 0 <= k < |list| ==> list[k].RaysCached()
      requires distinct == Distinct(list)
      requires Progress(list, rows, dt, cast, poses, 0, distinct, separate)
      modifies this`boids, this`boidCount, list, set b | b in list :: b.cachedTransform
      ensures boids == old(boids) && boidCount == old(boidCount)
      ensures forall k :: 0 <= k < |list| ==> list[k].RaysCached() && TiesOf(list[k]) == old(TiesOf(list[k]))
      ensures forall k :: 0 <= k < |list| && old(list[k].cachedTransform) == null ==>
        MotionOf(list[k]) == old(MotionOf(list[k]))
      ensures Progress(list, rows, dt, cast, poses, |list|, distinct, separate)
    {
      var i := 0;
      while i < |boids.value|
        invariant boids == Some(list) && boidCount == old(boidCount) && i <= |list|
        invariant forall k :: 0 <= k < |list| ==> list[k].RaysCached() && TiesOf(list[k]) == old(TiesOf(list[k]))
        invariant forall k :: 0 <= k < |list| && old(list[k].cachedTransform) == null ==>
          MotionOf(list[k]) == old(MotionOf(list[k]))
        invariant boidData[..] == rows
        invariant Progress(list, rows, dt, cast, poses, i, distinct, separate)
      {
        assert list[i].cachedTransform in old(set b | b in list :: b.cachedTransform);
        ApplyOne(boidData, i, dt, cast, list, distinct, separate, rows, poses);
        i := i + 1;
      }
    }

    /**
      One pass of the apply loop of Simulate: boids[i] takes row i and runs UpdateBoid,
      leaving every other boid of list alone. When it asks to leave, RemoveBoid refuses
      it. The pass carries the loop's Progress from i boids to i + 1.
     */
    method ApplyOne(boidData: array<BoidData>, i: nat, dt: real, cast: CircleCast, ghost list: seq<Boid>, ghost distinct: bool,
                    ghost separate: bool, ghost rows: seq<BoidData>, ghost poses: seq<Pose>)
      requires boids == Some(list) && i < |list| && boidData.Length == |list| && boidData[..] == rows
      requires forall k :: 0 <= k < |list| ==> list[k].RaysCached()
      requires distinct ==> Distinct(list)
      requires Progress(list, rows, dt, cast, poses, i, distinct, separate)
      modifies this`boids, this`boidCount, list[i], list[i].cachedTransform
      ensures boids == old(boids) && boidCount == old(boidCount)
      ensures forall k :: 0 <= k < |list| ==> list[k].RaysCached() && TiesOf(list[k]) == old(TiesOf(list[k]))
      ensures forall k :: 0 <= k < |list| && old(list[k].cachedTransform) == null ==>
        MotionOf(list[k]) == old(MotionOf(list[k]))
      ensures Progress(list, rows, dt, cast, poses, i + 1, distinct, separate)
    {
      var b := boids.value[i];
      label before:
      var removeRequested := ApplyAndUpdate(b, boidData[i], dt, cast, list);
      if distinct {
        forall k | 0 <= k < i
          ensures Applied(list[k], rows[k])
        {
          assert unchanged@before(list[k]);
          assert old(Applied(list[k], rows[k]));
        }
      }
      if separate {
        forall k | 0 <= k < |list| && k != i
          ensures unchanged(list[k])
          ensures list[k].cachedTransform != null ==> unchanged(list[k].cachedTransform)
          ensures list[k].target != null ==> unchanged(list[k].target)
        {
          if old(b.cachedTransform) != null {
            assert list[k].cachedTransform != b.cachedTransform && list[k].target != b.cachedTransform;
          }
        }
        forall k | 0 <= k < i && list[k].cachedTransform != null
          ensures Ticked(list[k], rows[k], dt, poses[k])
        {
          assert old(Ticked(list[k], rows[k], dt, poses[k]));
        }
        forall k | i < k < |list| && list[k].cachedTransform != null
          ensures PoseOf(list[k], cast) == poses[k]
        {
          assert old(PoseOf(list[k], cast)) == poses[k];
        }
      }
      if removeRequested {
        var removed := RemoveBoid(b, true);
        assert !removed;
      }
    }

    /** The body of the apply loop of Simulate for one boid: copy its row in, then UpdateBoid. */
    method ApplyAndUpdate(b: Boid, row: BoidData, dt: real, cast: CircleCast, ghost list: seq<Boid>) returns (removeRequested: bool)
      requires b.RaysCached()
      modifies b, b.cachedTransform
      ensures forall k :: 0 <= k < |list| && list[k] != b ==> unchanged(list[k])
      ensures b.RaysCached() && TiesOf(b) == old(TiesOf(b))
      ensures removeRequested <==> old(b.cachedTransform) == null && b.flock != null
      ensures Applied(b, row)
      ensures old(b.cachedTransform) != null ==> Ticked(b, row, dt, old(PoseOf(b, cast)))
      ensures old(b.cachedTransform) == null ==> MotionOf(b) == old(MotionOf(b))
    {
      ghost var moves := b.cachedTransform != null;
      ghost var pre := if moves then PoseOf(b, cast) else Still(cast);
      b.avgFlockHeading := row.flockHeading;
      b.centreOfFlockmates := row.flockCentre;
      b.avgAvoidanceHeading := row.avoidanceHeading;
      b.numPerceivedFlockmates := row.numFlockmates;
      assert moves ==> PoseOf(b, cast) == pre;
      removeRequested := b.UpdateBoid(dt, cast);
    }
  }
}
