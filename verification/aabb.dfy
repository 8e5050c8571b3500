/**
  Axis-aligned bounding boxes and their overlap classification
  (`OverlapResult`, `are_two_aabbs_overlapping` and `is_aabb_overlapping_with_any_aabb`
  in scene_generator/utils.py).
 */
module Aabb {

  datatype Vec3 = Vec3(x: real, y: real, z: real)

  datatype Axis = X | Y | Z

  function Coord(v: Vec3, ax: Axis): real {
    match ax
    case X => v.x
    case Y => v.y
    case Z => v.z
  }

  function Add(v: Vec3, w: Vec3): Vec3 {
    Vec3(v.x + w.x, v.y + w.y, v.z + w.z)
  }

  /** A box given by its minimum and maximum corner, as `get_aabb` returns it. */
  datatype Box = Box(lo: Vec3, hi: Vec3)

  /** The invariant every box built by `get_aabb` satisfies. */
  predicate WellFormed(b: Box) {
    b.lo.x <= b.hi.x && b.lo.y <= b.hi.y && b.lo.z <= b.hi.z
  }

  /** A box with positive extent on every axis. */
  predicate Solid(b: Box) {
    b.lo.x < b.hi.x && b.lo.y < b.hi.y && b.lo.z < b.hi.z
  }

  function Shift(b: Box, v: Vec3): Box {
    Box(Add(b.lo, v), Add(b.hi, v))
  }

  datatype OverlapResult = CompleteOverlap | PartialOverlap | NoOverlap

  /** The integer the Python enum attaches to each result. */
  function Code(r: OverlapResult): int {
    match r
    case CompleteOverlap => 1
    case PartialOverlap => 0
    case NoOverlap => -1
  }

  /** `inner` lies within `outer` along `ax` (both bounds inclusive). */
  predicate WithinOn(inner: Box, outer: Box, ax: Axis) {
    Coord(inner.lo, ax) >= Coord(outer.lo, ax) && Coord(inner.hi, ax) <= Coord(outer.hi, ax)
  }

  predicate Contains(outer: Box, inner: Box) {
    WithinOn(inner, outer, X) && WithinOn(inner, outer, Y) && WithinOn(inner, outer, Z)
  }

  /** `a` and `b` are apart along `ax`; boxes that merely touch count as apart. */
  predicate SeparatedOn(a: Box, b: Box, ax: Axis) {
    Coord(a.hi, ax) <= Coord(b.lo, ax) || Coord(a.lo, ax) >= Coord(b.hi, ax)
  }

  predicate Separated(a: Box, b: Box) {
    SeparatedOn(a, b, X) || SeparatedOn(a, b, Y) || SeparatedOn(a, b, Z)
  }

  /**
    `are_two_aabbs_overlapping`: containment first, then separation, else partial.
    On well-formed boxes COMPLETE means that one box's points all belong to the
    other; on solid boxes PARTIAL and NO tell apart whether some point lies
    strictly inside both.
   */
  function Classify(a: Box, b: Box): (r: OverlapResult)
    ensures r == CompleteOverlap <==> Contains(b, a) || Contains(a, b)
    ensures r == NoOverlap <==> !Contains(b, a) && !Contains(a, b) && Separated(a, b)
    ensures WellFormed(a) && WellFormed(b) ==> (r == CompleteOverlap <==> Covers(b, a) || Covers(a, b))
    ensures Solid(a) && Solid(b) ==>
              (r == PartialOverlap <==> !Covers(b, a) && !Covers(a, b) && InteriorsMeet(a, b))
    ensures Solid(a) && Solid(b) ==>
              (r == NoOverlap <==> !Covers(b, a) && !Covers(a, b) && !InteriorsMeet(a, b))
  {
    PointFacts(a, b);
    if Contains(b, a) || Contains(a, b) then CompleteOverlap
    else if Separated(a, b) then NoOverlap
    else PartialOverlap
  }

  // ---------------------------------------------------------------------------
  // Geometric reference definitions

  predicate InBox(p: Vec3, b: Box) {
    b.lo.x <= p.x <= b.hi.x && b.lo.y <= p.y <= b.hi.y && b.lo.z <= p.z <= b.hi.z
  }

  predicate InInterior(p: Vec3, b: Box) {
    b.lo.x < p.x < b.hi.x && b.lo.y < p.y < b.hi.y && b.lo.z < p.z < b.hi.z
  }

  /** Every point of `inner` is a point of `outer`. */
  ghost predicate Covers(outer: Box, inner: Box) {
    forall p :: InBox(p, inner) ==> InBox(p, outer)
  }

  /** Some point lies strictly inside both boxes. */
  ghost predicate InteriorsMeet(a: Box, b: Box) {
    exists p :: InInterior(p, a) && InInterior(p, b)
  }

  /** The containment test is exactly set inclusion of the closed boxes. */
  lemma ContainsIffCovers(outer: Box, inner: Box)
    requires WellFormed(inner)
    ensures Contains(outer, inner) <==> Covers(outer, inner)
  {
    if !Contains(outer, inner) {
      // One of the two corners of `inner` sticks out of `outer`.
      if InBox(inner.lo, outer) {
        assert InBox(inner.hi, inner) && !InBox(inner.hi, outer);
      } else {
        assert InBox(inner.lo, inner) && !InBox(inner.lo, outer);
      }
    }
  }

  function Mid(a: real, b: real): real {
    (a + b) / 2.0
  }

  function Max(a: real, b: real): real {
    if a < b then b else a
  }

  function Min(a: real, b: real): real {
    if a < b then a else b
  }

  /** For solid boxes, some axis separates them exactly when no point lies strictly inside both. */
  lemma SeparatedIffInteriorsApart(a: Box, b: Box)
    requires Solid(a) && Solid(b)
    ensures Separated(a, b) <==> !InteriorsMeet(a, b)
  {
    if !Separated(a, b) {
      var p := Vec3(Mid(Max(a.lo.x, b.lo.x), Min(a.hi.x, b.hi.x)),
                    Mid(Max(a.lo.y, b.lo.y), Min(a.hi.y, b.hi.y)),
                    Mid(Max(a.lo.z, b.lo.z), Min(a.hi.z, b.hi.z)));
      assert InInterior(p, a) && InInterior(p, b);
    } else {
      forall p | InInterior(p, a)
        ensures !InInterior(p, b)
      {
      }
    }
  }

  /** The point-set readings of the coordinate tests, for whichever boxes they apply to. */
  lemma PointFacts(a: Box, b: Box)
    ensures WellFormed(a) ==> (Contains(b, a) <==> Covers(b, a))
    ensures WellFormed(b) ==> (Contains(a, b) <==> Covers(a, b))
    ensures Solid(a) && Solid(b) ==> (Separated(a, b) <==> !InteriorsMeet(a, b))
  {
    if WellFormed(a) {
      ContainsIffCovers(b, a);
    }
    if WellFormed(b) {
      ContainsIffCovers(a, b);
    }
    if Solid(a) && Solid(b) {
      SeparatedIffInteriorsApart(a, b);
    }
  }

  /** For solid boxes the classifier reports an overlap exactly when the interiors meet. */
  lemma OverlapIffInteriorsMeet(a: Box, b: Box)
    requires Solid(a) && Solid(b)
    ensures Classify(a, b) != NoOverlap <==> InteriorsMeet(a, b)
  {
    SeparatedIffInteriorsApart(a, b);
    if Contains(b, a) {
      var p := Vec3(Mid(a.lo.x, a.hi.x), Mid(a.lo.y, a.hi.y), Mid(a.lo.z, a.hi.z));
      assert InInterior(p, a) && InInterior(p, b);
    } else if Contains(a, b) {
      var p := Vec3(Mid(b.lo.x, b.hi.x), Mid(b.lo.y, b.hi.y), Mid(b.lo.z, b.hi.z));
      assert InInterior(p, a) && InInterior(p, b);
    }
  }

  /** The classification stated on point sets alone: containment, then a shared interior point. */
  ghost function GeometricClass(a: Box, b: Box): OverlapResult {
    if Covers(b, a) || Covers(a, b) then CompleteOverlap
    else if InteriorsMeet(a, b) then PartialOverlap
    else NoOverlap
  }

  /** For solid boxes the coordinate tests agree with the point-set classification. */
  lemma ClassifyMatchesGeometry(a: Box, b: Box)
    requires Solid(a) && Solid(b)
    ensures Classify(a, b) == GeometricClass(a, b)
  {
    ContainsIffCovers(a, b);
    ContainsIffCovers(b, a);
    OverlapIffInteriorsMeet(a, b);
  }

  // ---------------------------------------------------------------------------
  // Algebraic properties the test suite relies on

  lemma ClassifySymmetric(a: Box, b: Box)
    ensures Classify(a, b) == Classify(b, a)
  {
  }

  lemma ClassifyReflexive(a: Box)
    ensures Classify(a, a) == CompleteOverlap
  {
  }

  lemma ClassifyTranslationInvariant(a: Box, b: Box, v: Vec3)
    ensures Classify(Shift(a, v), Shift(b, v)) == Classify(a, b)
  {
  }

  /** Boxes sharing only a face, edge or corner are not overlapping, unless one holds the other. */
  lemma TouchingIsNoOverlap(a: Box, b: Box, ax: Axis)
    requires Coord(a.hi, ax) == Coord(b.lo, ax) || Coord(a.lo, ax) == Coord(b.hi, ax)
    requires !Contains(a, b) && !Contains(b, a)
    ensures Classify(a, b) == NoOverlap
  {
  }

  /** A point-sized box on the boundary of another box is still completely overlapped. */
  lemma ContainmentPrecedence(p: Vec3, b: Box)
    requires InBox(p, b)
    ensures Classify(Box(p, p), b) == CompleteOverlap
  {
  }

  // ---------------------------------------------------------------------------
  // The scenarios of scene_generator/tests/test_utils.py

  lemma CompleteOverlapScenarios(shift: Vec3)
    ensures var o1 := Box(Vec3(3.0, 3.0, 3.0), Vec3(7.0, 8.0, 9.0));
      && Classify(Shift(o1, shift), Shift(Box(Vec3(4.0, 5.0, 5.0), Vec3(6.0, 6.0, 7.0)), shift)) == CompleteOverlap
      && Classify(Shift(o1, shift), Shift(Box(Vec3(3.0, 3.0, 3.0), Vec3(6.0, 6.0, 7.0)), shift)) == CompleteOverlap
      && Classify(Shift(o1, shift), Shift(Box(Vec3(6.2, 4.4, 4.6), Vec3(6.4, 7.6, 6.8)), shift)) == CompleteOverlap
      && Classify(Shift(o1, shift), Shift(o1, shift)) == CompleteOverlap
  {
  }

  lemma NoOverlapScenarios(shift: Vec3)
    ensures var o1 := Box(Vec3(3.0, 3.0, 3.0), Vec3(4.0, 4.0, 4.0));
      && Classify(Shift(o1, shift), Shift(Box(Vec3(15.0, 15.0, 15.0), Vec3(16.0, 16.0, 16.0)), shift)) == NoOverlap
      && Classify(Shift(o1, shift), Shift(Box(Vec3(3.0, 3.0, 1.0), Vec3(3.0, 3.0, 2.9)), shift)) == NoOverlap
      && Classify(Shift(o1, shift), Shift(Box(Vec3(1.0, 1.0, 1.0), Vec3(2.0, 2.0, 2.0)), shift)) == NoOverlap
      && Classify(Shift(o1, shift), Shift(Box(Vec3(10.0, 10.0, 10.0), Vec3(20.0, 20.0, 20.0)), shift)) == NoOverlap
      && Classify(Shift(o1, shift), Shift(Box(Vec3(5.0, 5.0, 5.0), Vec3(6.0, 8.0, 10.0)), shift)) == NoOverlap
      && Classify(Shift(o1, shift), Shift(Box(Vec3(2.8, 2.8, 2.8), Vec3(2.9, 2.9, 2.9)), shift)) == NoOverlap
  {
  }

  lemma PartialOverlapScenarios(shift: Vec3)
    ensures var o1 := Box(Vec3(3.0, 3.0, 3.0), Vec3(7.0, 8.0, 9.0));
      && Classify(Shift(o1, shift), Shift(Box(Vec3(2.0, 2.0, 2.0), Vec3(3.5, 3.5, 3.5)), shift)) == PartialOverlap
      && Classify(Shift(o1, shift), Shift(Box(Vec3(1.0, 3.0, 3.0), Vec3(4.0, 8.0, 9.0)), shift)) == PartialOverlap
      && Classify(Shift(o1, shift), Shift(Box(Vec3(6.0, 2.0, 2.0), Vec3(8.0, 7.0, 7.0)), shift)) == PartialOverlap
      && Classify(Shift(o1, shift), Shift(Box(Vec3(5.0, 5.0, 5.0), Vec3(10.0, 10.0, 10.0)), shift)) == PartialOverlap
      && Classify(Shift(o1, shift), Shift(Box(Vec3(2.0, 2.0, 2.0), Vec3(6.0, 4.0, 4.0)), shift)) == PartialOverlap
  {
  }

  lemma TouchingScenarios(shift: Vec3)
    ensures var o1 := Box(Vec3(3.0, 3.0, 3.0), Vec3(7.0, 8.0, 9.0));
      && Classify(Shift(o1, shift), Shift(Box(Vec3(3.0, 1.0, 1.0), Vec3(7.0, 3.0, 3.0)), shift)) == NoOverlap
      && Classify(Shift(o1, shift), Shift(Box(Vec3(1.0, 1.0, 1.0), Vec3(3.0, 3.0, 3.0)), shift)) == NoOverlap
      && Classify(Shift(o1, shift), Shift(Box(Vec3(3.0, 1.0, 3.0), Vec3(7.0, 3.0, 9.0)), shift)) == NoOverlap
  {
  }

  // ---------------------------------------------------------------------------
  // is_aabb_overlapping_with_any_aabb

  /** Some box of `drawn` overlaps `c`, partially or completely. */
  predicate Clashes(c: Box, drawn: seq<Box>) {
    exists i :: 0 <= i < |drawn| && Classify(c, drawn[i]) != NoOverlap
  }

  /** Scans `drawn` in order and stops at the first box that overlaps `c`. */
  method OverlapsAny(c: Box, drawn: seq<Box>) returns (r: bool)
    ensures r <==> Clashes(c, drawn)
    ensures r ==> |drawn| > 0
  {
    for k := 0 to |drawn|
      invariant forall j :: 0 <= j < k ==> Classify(c, drawn[j]) == NoOverlap
    {
      var result := Classify(c, drawn[k]);
      if Code(result) == Code(PartialOverlap) || Code(result) == Code(CompleteOverlap) {
        return true;
      }
    }
    return false;
  }
}
