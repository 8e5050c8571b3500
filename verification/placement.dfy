/**
  `SceneGenerator.generate_scene` (scene_generator/main.py): draw an object
  count, then for every object pick a kind, a location and a size, create it,
  and, unless overlap is allowed, delete it again when its bounding box
  overlaps a box kept earlier.

  The host application is abstracted away: every random draw and the bounding
  box the host reports for the created object arrive as a `Draw`, the mesh
  creation call becomes a `Creation` record, and deletion shows up as the
  object's index missing from the survivors.
 */
module Placement {
  import P = Primitives
  import opened Aabb
  import opened Draws
  import opened SceneParams

  /** `NUMBER_OF_VERTICES`, used for cylinders and cones. */
  const NumberOfVertices: nat := 32

  /** The mesh primitive a kind is built from, with its vertex count. */
  datatype Shape = BoxMesh | CylinderMesh(vertices: nat) | ConeMesh(vertices: nat)

  /**
    The branch on the object's kind: boxes and cylinders have their own helper,
    every other kind is a cone whose base has 32, 3 or 4 vertices. The source's
    fallback count of 0 is never used, because the three remaining kinds are
    all handled.
   */
  function ShapeOf(k: P.PrimitiveObject): (s: Shape)
    ensures s.BoxMesh? <==> k == P.Box
    ensures s.CylinderMesh? <==> k == P.Cylinder
    ensures s.CylinderMesh? ==> s.vertices == NumberOfVertices
    ensures s.ConeMesh? ==> s.vertices in {3, 4, NumberOfVertices}
  {
    match k
    case Box => BoxMesh
    case Cylinder => CylinderMesh(NumberOfVertices)
    case Cone => ConeMesh(NumberOfVertices)
    case TriangularPyramid => ConeMesh(3)
    case RectangularPyramid => ConeMesh(4)
  }

  /** Distinct kinds are built as distinct primitives. */
  lemma ShapeOfInjective(j: P.PrimitiveObject, k: P.PrimitiveObject)
    ensures ShapeOf(j) == ShapeOf(k) ==> j == k
  {
  }

  /** A planar coordinate `random()*scene_size - scene_size/2`. */
  function PlanarCoord(r: real, extent: real): (c: real)
    requires 0.0 <= r < 1.0 && extent > 0.0
    ensures -extent / 2.0 <= c < extent / 2.0
  {
    ScaleBelow(r, extent);
    r * extent - extent / 2.0
  }

  /** Scaling by a positive factor keeps the order of two reals. */
  lemma ScaleOrder(u: real, v: real, k: real)
    requires k > 0.0
    ensures u < v <==> u * k < v * k
  {
  }

  /** Every point of the half-open interval is reached by some draw. */
  lemma PlanarCoordOnto(c: real, extent: real)
    requires extent > 0.0 && -extent / 2.0 <= c < extent / 2.0
    ensures exists r :: 0.0 <= r < 1.0 && PlanarCoord(r, extent) == c
  {
    var r := (c + extent / 2.0) / extent;
    assert r * extent == c + extent / 2.0;
    ScaleOrder(r, 1.0, extent);
    ScaleOrder(r, 0.0, extent);
    assert PlanarCoord(r, extent) == c;
  }

  /** The random draws for one object, and the box the host reports once it exists. */
  datatype Draw = Draw(kind: P.PrimitiveObject, rx: real, ry: real, rz: real, aabb: Box)

  /** One mesh creation call: the primitive, the size range and the location. */
  datatype Creation = Creation(shape: Shape, sizeLo: real, sizeHi: real, location: Vec3)

  /** The draws stay within what `random.choice`, `random.random` and `random.uniform` return. */
  predicate DrawOk(p: Params, d: Draw) {
    d.kind in p.objectsToGenerate && 0.0 <= d.rx < 1.0 && 0.0 <= d.ry < 1.0 && 0.0 <= d.rz <= 1.0
  }

  /** No two distinct boxes of `bs` overlap. */
  predicate PairwiseApart(bs: seq<Box>) {
    forall i, j :: 0 <= i < |bs| && 0 <= j < |bs| && i != j ==> Classify(bs[i], bs[j]) == NoOverlap
  }

  predicate StrictlyIncreasing(s: seq<nat>) {
    forall j, k :: 0 <= j < k < |s| ==> s[j] < s[k]
  }

  /** A created location: inside the scene's square, at a height jittered around the mean. */
  predicate PlacedWithin(loc: Vec3, extent: real, p: Params) {
    && -extent / 2.0 <= loc.x < extent / 2.0
    && -extent / 2.0 <= loc.y < extent / 2.0
    && p.heightMean - Abs(p.heightStd) <= loc.z <= p.heightMean + Abs(p.heightStd)
  }

  /** Object `i` was deleted because it overlapped a box kept before it. */
  predicate RejectedFor(draws: seq<Draw>, aabbs: seq<Box>, survivors: seq<nat>, i: nat)
    requires i < |draws| && |aabbs| == |survivors|
  {
    exists k :: 0 <= k < |survivors| && survivors[k] < i && Classify(draws[i].aabb, aabbs[k]) != NoOverlap
  }

  /** What the loop has established about the kept boxes after the first `n` objects. */
  predicate KeptSoFar(draws: seq<Draw>, n: nat, aabbs: seq<Box>, survivors: seq<nat>)
    requires n <= |draws|
  {
    && |aabbs| == |survivors| <= n
    && StrictlyIncreasing(survivors)
    && (forall k :: 0 <= k < |survivors| ==> survivors[k] < n && aabbs[k] == draws[survivors[k]].aabb)
    && PairwiseApart(aabbs)
    && (forall j :: 0 <= j < n && j !in survivors ==> RejectedFor(draws, aabbs, survivors, j))
  }

  /** Keeping object `n`, which overlaps no kept box. */
  lemma KeepStep(draws: seq<Draw>, n: nat, aabbs: seq<Box>, survivors: seq<nat>)
    requires n < |draws| && KeptSoFar(draws, n, aabbs, survivors)
    requires !Clashes(draws[n].aabb, aabbs)
    ensures KeptSoFar(draws, n + 1, aabbs + [draws[n].aabb], survivors + [n])
  {
    var aabbs', survivors' := aabbs + [draws[n].aabb], survivors + [n];
    KeepApart(aabbs, draws[n].aabb);
    forall j | 0 <= j < n + 1 && j !in survivors'
      ensures RejectedFor(draws, aabbs', survivors', j)
    {
      assert j !in survivors;
      var k :| 0 <= k < |survivors| && survivors[k] < j && Classify(draws[j].aabb, aabbs[k]) != NoOverlap;
      assert survivors'[k] == survivors[k] && aabbs'[k] == aabbs[k];
    }
  }

  /** Deleting object `n`, which overlaps a kept box. */
  lemma RejectStep(draws: seq<Draw>, n: nat, aabbs: seq<Box>, survivors: seq<nat>)
    requires n < |draws| && KeptSoFar(draws, n, aabbs, survivors)
    requires Clashes(draws[n].aabb, aabbs)
    ensures KeptSoFar(draws, n + 1, aabbs, survivors)
  {
  }

  /**
    One pass over the drawn objects, with no retry. `created` lists the mesh
    calls, `aabbs` is the method's local list of kept boxes, and `survivors`
    holds the indices of the objects still in the scene afterwards.
    `extent` is the scalar scene size that the location arithmetic uses.
   */
  method GenerateScene(p: Params, extent: real, draws: seq<Draw>)
    returns (created: seq<Creation>, aabbs: seq<Box>, survivors: seq<nat>)
    requires extent > 0.0
    requires p.countLo <= |draws| <= p.countHi
    requires forall i :: 0 <= i < |draws| ==> DrawOk(p, draws[i])
    ensures |created| == |draws|
    ensures forall i :: 0 <= i < |draws| ==>
              && created[i].shape == ShapeOf(draws[i].kind)
              && created[i].sizeLo == p.sizeLo && created[i].sizeHi == p.sizeHi
              && PlacedWithin(created[i].location, extent, p)
    ensures forall i :: 0 <= i < |draws| ==>
              && DrawOk(p, draws[i])
              && created[i].location == Vec3(PlanarCoord(draws[i].rx, extent), PlanarCoord(draws[i].ry, extent),
                                             Jitter(p.heightMean, p.heightStd, draws[i].rz))
    ensures p.allowOverlap ==> aabbs == [] && |survivors| == |draws|
    ensures p.allowOverlap ==> forall i :: 0 <= i < |draws| ==> survivors[i] == i
    ensures |survivors| <= |draws| <= p.countHi
    ensures !p.allowOverlap ==> |aabbs| == |survivors|
    ensures !p.allowOverlap ==> StrictlyIncreasing(survivors)
    ensures !p.allowOverlap ==> forall k :: 0 <= k < |aabbs| ==>
              survivors[k] < |draws| && aabbs[k] == draws[survivors[k]].aabb
    ensures !p.allowOverlap ==> PairwiseApart(aabbs)
    ensures !p.allowOverlap ==> forall i :: 0 <= i < |draws| && i !in survivors ==>
              RejectedFor(draws, aabbs, survivors, i)
  {
    created, aabbs, survivors := [], [], [];
    for i := 0 to |draws|
      invariant |created| == i
      invariant forall j :: 0 <= j < i ==>
                  && created[j].shape == ShapeOf(draws[j].kind)
                  && created[j].sizeLo == p.sizeLo && created[j].sizeHi == p.sizeHi
                  && PlacedWithin(created[j].location, extent, p)
      invariant forall j :: 0 <= j < i ==>
                  && DrawOk(p, draws[j])
                  && created[j].location == Vec3(PlanarCoord(draws[j].rx, extent), PlanarCoord(draws[j].ry, extent),
                                                 Jitter(p.heightMean, p.heightStd, draws[j].rz))
      invariant p.allowOverlap ==> aabbs == [] && |survivors| == i
      invariant p.allowOverlap ==> forall j :: 0 <= j < i ==> survivors[j] == j
      invariant !p.allowOverlap ==> KeptSoFar(draws, i, aabbs, survivors)
    {
      var d := draws[i];
      var location := Vec3(PlanarCoord(d.rx, extent), PlanarCoord(d.ry, extent),
                           Jitter(p.heightMean, p.heightStd, d.rz));
      created := created + [Creation(ShapeOf(d.kind), p.sizeLo, p.sizeHi, location)];

      if p.allowOverlap {
        survivors := survivors + [i];
        continue;
      }

      var clash := OverlapsAny(d.aabb, aabbs);
      if clash {
        RejectStep(draws, i, aabbs, survivors);
      } else {
        KeepStep(draws, i, aabbs, survivors);
        aabbs := aabbs + [d.aabb];
        survivors := survivors + [i];
      }
    }
  }

  /** Appending a box that overlaps no earlier box keeps the list pairwise apart. */
  lemma KeepApart(bs: seq<Box>, b: Box)
    requires PairwiseApart(bs)
    requires !Clashes(b, bs)
    ensures PairwiseApart(bs + [b])
  {
  }
}
