/**
  `SceneGeneratorParams` (scene_generator/scene_generator_params.py): a frozen
  record whose constructor validates its six fields in declaration order and
  raises on the first violation. The record is a Dafny datatype, so it cannot
  change after it has been built.
 */
module SceneParams {
  import opened Wrappers
  import opened Primitives
  import opened Values

  /** The fields, in declaration order. */
  datatype Field = SceneSize | ObjectsToGenerate | ObjectCountRange | ObjectSizeRange
                 | ObjectHeightDistribution | AllowOverlap

  function Rank(f: Field): nat {
    match f
    case SceneSize => 0
    case ObjectsToGenerate => 1
    case ObjectCountRange => 2
    case ObjectSizeRange => 3
    case ObjectHeightDistribution => 4
    case AllowOverlap => 5
  }

  /** The exception `__post_init__` raises, and the field it names. */
  datatype ParamError = ParamError(kind: ErrorKind, field: Field)

  /** The constructor arguments, as untyped Python values. */
  datatype RawParams = RawParams(
    sceneSize: Value,
    objectsToGenerate: Value,
    objectCountRange: Value,
    objectSizeRange: Value,
    objectHeightDistribution: Value,
    allowOverlap: Value)

  /** A successfully constructed record, with its fields at their checked types. */
  datatype Params = Params(
    sceneSize: seq<real>,
    objectsToGenerate: seq<PrimitiveObject>,
    countLo: int, countHi: int,
    sizeLo: real, sizeHi: real,
    heightMean: real, heightStd: real,
    allowOverlap: bool)

  function FieldValue(raw: RawParams, f: Field): Value {
    match f
    case SceneSize => raw.sceneSize
    case ObjectsToGenerate => raw.objectsToGenerate
    case ObjectCountRange => raw.objectCountRange
    case ObjectSizeRange => raw.objectSizeRange
    case ObjectHeightDistribution => raw.objectHeightDistribution
    case AllowOverlap => raw.allowOverlap
  }

  // ---------------------------------------------------------------------------
  // What each field must be (declarative)

  predicate PairOf(v: Value, p: Value -> bool) {
    v.Tuple? && |v.items| == 2 && p(v.items[0]) && p(v.items[1])
  }

  predicate IsInt(v: Value) {
    v.Int?
  }

  predicate IsMember(v: Value) {
    v.Member?
  }

  /** The value `f` must hold for construction to get past `f`. */
  predicate Acceptable(f: Field, v: Value) {
    match f
    case SceneSize =>
      v.List? && (|v.items| == 1 || |v.items| == 3)
      && forall i :: 0 <= i < |v.items| ==> PositiveNumber(v.items[i])
    case ObjectsToGenerate =>
      v.List? && |v.items| > 0 && forall i :: 0 <= i < |v.items| ==> v.items[i].Member?
    case ObjectCountRange =>
      PairOf(v, IsInt) && 0 <= v.items[0].i <= v.items[1].i
    case ObjectSizeRange =>
      PairOf(v, IsNumber) && 0.0 <= AsReal(v.items[0]) <= AsReal(v.items[1])
    case ObjectHeightDistribution =>
      PairOf(v, IsNumber)
    case AllowOverlap =>
      v.Bool?
  }

  /** A rejection of `v` for field `f` is a `TypeError` exactly in these cases. */
  predicate TypeFault(f: Field, v: Value) {
    match f
    case SceneSize => !v.List?
    case ObjectsToGenerate => !v.List?
    case ObjectCountRange => !v.Tuple? || (|v.items| == 2 && !PairOf(v, IsInt))
    case ObjectSizeRange => !v.Tuple? || (|v.items| == 2 && !PairOf(v, IsNumber))
    case ObjectHeightDistribution => !v.Tuple? || (|v.items| == 2 && !PairOf(v, IsNumber))
    case AllowOverlap => !v.Bool?
  }

  /** The invariants every constructed record satisfies. */
  predicate Valid(p: Params) {
    && (|p.sceneSize| == 1 || |p.sceneSize| == 3)
    && (forall i :: 0 <= i < |p.sceneSize| ==> p.sceneSize[i] > 0.0)
    && |p.objectsToGenerate| > 0
    && 0 <= p.countLo <= p.countHi
    && 0.0 <= p.sizeLo <= p.sizeHi
  }

  // ---------------------------------------------------------------------------
  // The checks, in the order `__post_init__` performs them

  function CheckSceneSize(v: Value): (r: Result<seq<real>, ErrorKind>)
    ensures r.Success? <==> Acceptable(SceneSize, v)
    ensures r.Failure? ==> (r.error == TypeError <==> TypeFault(SceneSize, v))
    ensures r.Success? ==> |r.value| == |v.items|
                           && forall i :: 0 <= i < |r.value| ==> r.value[i] == AsReal(v.items[i]) > 0.0
  {
    if !v.List? then Failure(TypeError)
    else if |v.items| != 1 && |v.items| != 3 then Failure(ValueError)
    else if !All(v.items, PositiveNumber) then Failure(ValueError)
    else Success(Reals(v.items))
  }

  function CheckObjects(v: Value): (r: Result<seq<PrimitiveObject>, ErrorKind>)
    ensures r.Success? <==> Acceptable(ObjectsToGenerate, v)
    ensures r.Failure? ==> (r.error == TypeError <==> TypeFault(ObjectsToGenerate, v))
    ensures r.Success? ==> |r.value| == |v.items| > 0
                           && forall i :: 0 <= i < |r.value| ==> v.items[i] == Member(r.value[i])
  {
    if !v.List? then Failure(TypeError)
    else if |v.items| == 0 then Failure(ValueError)
    else if !All(v.items, IsMember) then Failure(ValueError)
    else Success(Kinds(v.items))
  }

  function CheckCountRange(v: Value): (r: Result<(int, int), ErrorKind>)
    ensures r.Success? <==> Acceptable(ObjectCountRange, v)
    ensures r.Failure? ==> (r.error == TypeError <==> TypeFault(ObjectCountRange, v))
    ensures r.Success? ==> v.items == [Int(r.value.0), Int(r.value.1)] && 0 <= r.value.0 <= r.value.1
  {
    if !v.Tuple? then Failure(TypeError)
    else if |v.items| != 2 then Failure(ValueError)
    else if !All(v.items, IsInt) then Failure(TypeError)
    else if v.items[0].i > v.items[1].i || v.items[0].i < 0 then Failure(ValueError)
    else Success((v.items[0].i, v.items[1].i))
  }

  /** A pair of numbers, as `object_size_range` and `object_height_distribution` need. */
  function CheckNumberPair(v: Value): (r: Result<(real, real), ErrorKind>)
    ensures r.Success? <==> PairOf(v, IsNumber)
    ensures r.Failure? ==> (r.error == TypeError <==> !v.Tuple? || |v.items| == 2)
    ensures r.Success? ==> r.value == (AsReal(v.items[0]), AsReal(v.items[1]))
  {
    if !v.Tuple? then Failure(TypeError)
    else if |v.items| != 2 then Failure(ValueError)
    else if !All(v.items, IsNumber) then Failure(TypeError)
    else Success((AsReal(v.items[0]), AsReal(v.items[1])))
  }

  function CheckSizeRange(v: Value): (r: Result<(real, real), ErrorKind>)
    ensures r.Success? <==> Acceptable(ObjectSizeRange, v)
    ensures r.Failure? ==> (r.error == TypeError <==> TypeFault(ObjectSizeRange, v))
    ensures r.Success? ==> r.value == (AsReal(v.items[0]), AsReal(v.items[1])) && 0.0 <= r.value.0 <= r.value.1
  {
    var (lo, hi) :- CheckNumberPair(v);
    if lo > hi || lo < 0.0 then Failure(ValueError) else Success((lo, hi))
  }

  function CheckAllowOverlap(v: Value): (r: Result<bool, ErrorKind>)
    ensures r.Success? <==> Acceptable(AllowOverlap, v)
    ensures r.Failure? ==> r.error == TypeError
    ensures r.Success? ==> v == Bool(r.value)
  {
    if !v.Bool? then Failure(TypeError) else Success(v.b)
  }

  function Tag<T>(r: Result<T, ErrorKind>, f: Field): Result<T, ParamError> {
    match r
    case Success(x) => Success(x)
    case Failure(k) => Failure(ParamError(k, f))
  }

  /**
    `SceneGeneratorParams(...)`: either the constructed record or the exception
    of the first field, in declaration order, whose check fails.
   */
  function Construct(raw: RawParams): (r: Result<Params, ParamError>)
    ensures r.Success? <==> forall f :: Acceptable(f, FieldValue(raw, f))
    ensures r.Failure? ==> !Acceptable(r.error.field, FieldValue(raw, r.error.field))
    ensures r.Failure? ==> forall f :: Rank(f) < Rank(r.error.field) ==> Acceptable(f, FieldValue(raw, f))
    ensures r.Failure? ==> (r.error.kind == TypeError <==> TypeFault(r.error.field, FieldValue(raw, r.error.field)))
    ensures r.Success? ==> Valid(r.value)
    ensures r.Success? ==> Acceptable(SceneSize, raw.sceneSize)
                           && |r.value.sceneSize| == |raw.sceneSize.items|
                           && forall i :: 0 <= i < |r.value.sceneSize| ==>
                                r.value.sceneSize[i] == AsReal(raw.sceneSize.items[i])
    ensures r.Success? ==> Acceptable(ObjectsToGenerate, raw.objectsToGenerate)
                           && |r.value.objectsToGenerate| == |raw.objectsToGenerate.items|
                           && forall i :: 0 <= i < |r.value.objectsToGenerate| ==>
                                raw.objectsToGenerate.items[i] == Member(r.value.objectsToGenerate[i])
    ensures r.Success? ==> Acceptable(ObjectCountRange, raw.objectCountRange)
                           && r.value.countLo == raw.objectCountRange.items[0].i
                           && r.value.countHi == raw.objectCountRange.items[1].i
    ensures r.Success? ==> Acceptable(ObjectSizeRange, raw.objectSizeRange)
                           && r.value.sizeLo == AsReal(raw.objectSizeRange.items[0])
                           && r.value.sizeHi == AsReal(raw.objectSizeRange.items[1])
    ensures r.Success? ==> PairOf(raw.objectHeightDistribution, IsNumber)
                           && r.value.heightMean == AsReal(raw.objectHeightDistribution.items[0])
                           && r.value.heightStd == AsReal(raw.objectHeightDistribution.items[1])
    ensures r.Success? ==> raw.allowOverlap == Bool(r.value.allowOverlap)
  {
    var sceneSize :- Tag(CheckSceneSize(FieldValue(raw, SceneSize)), SceneSize);
    var objects :- Tag(CheckObjects(FieldValue(raw, ObjectsToGenerate)), ObjectsToGenerate);
    var (countLo, countHi) :- Tag(CheckCountRange(FieldValue(raw, ObjectCountRange)), ObjectCountRange);
    var (sizeLo, sizeHi) :- Tag(CheckSizeRange(FieldValue(raw, ObjectSizeRange)), ObjectSizeRange);
    var (mean, std) :- Tag(CheckNumberPair(FieldValue(raw, ObjectHeightDistribution)), ObjectHeightDistribution);
    var allow :- Tag(CheckAllowOverlap(FieldValue(raw, AllowOverlap)), AllowOverlap);
    EveryFieldAcceptable(raw);
    Success(Params(sceneSize, objects, countLo, countHi, sizeLo, sizeHi, mean, std, allow))
  }

  lemma EveryFieldAcceptable(raw: RawParams)
    requires Acceptable(SceneSize, raw.sceneSize)
    requires Acceptable(ObjectsToGenerate, raw.objectsToGenerate)
    requires Acceptable(ObjectCountRange, raw.objectCountRange)
    requires Acceptable(ObjectSizeRange, raw.objectSizeRange)
    requires Acceptable(ObjectHeightDistribution, raw.objectHeightDistribution)
    requires Acceptable(AllowOverlap, raw.allowOverlap)
    ensures forall f :: Acceptable(f, FieldValue(raw, f))
  {
  }

  // ---------------------------------------------------------------------------
  // Consequences

  function Good(): RawParams {
    RawParams(List([Float(10.0)]), List([Member(Box), Member(Cone)]),
              Tuple([Int(5), Int(8)]), Tuple([Float(2.0), Float(4.0)]),
              Tuple([Int(5), Int(2)]), Bool(false))
  }

  /** The height distribution carries no sign or order constraint: a negative spread is accepted. */
  lemma NegativeHeightSpreadAccepted()
    ensures var r := Construct(Good().(objectHeightDistribution := Tuple([Float(5.0), Float(-2.0)])));
      r.Success? && r.value.heightStd == -2.0
  {
  }

  /** Container and element type faults raise `TypeError`; length and order faults raise `ValueError`. */
  lemma CountRangeErrorKinds()
    ensures Construct(Good().(objectCountRange := List([Int(5), Int(8)])))
            == Failure(ParamError(TypeError, ObjectCountRange))
    ensures Construct(Good().(objectCountRange := Tuple([Int(5), Float(8.0)])))
            == Failure(ParamError(TypeError, ObjectCountRange))
    ensures Construct(Good().(objectCountRange := Tuple([Int(5), Int(8), Int(9)])))
            == Failure(ParamError(ValueError, ObjectCountRange))
    ensures Construct(Good().(objectCountRange := Tuple([Int(8), Int(5)])))
            == Failure(ParamError(ValueError, ObjectCountRange))
    ensures Construct(Good().(objectCountRange := Tuple([Int(-1), Int(5)])))
            == Failure(ParamError(ValueError, ObjectCountRange))
  {
  }

  /** With every field wrong, the first field in declaration order decides the error. */
  lemma FirstFieldDecides()
    ensures Construct(RawParams(Int(10), Other, Other, Other, Other, Other))
            == Failure(ParamError(TypeError, SceneSize))
    ensures Construct(Good().(sceneSize := List([Int(1), Int(2)]), allowOverlap := Int(0)))
            == Failure(ParamError(ValueError, SceneSize))
  {
  }

  /**
    The driver's call passes `scene_size=10` and a set of kinds: the scalar is
    refused first, and with a list in its place the set is refused next.
   */
  lemma DriverCallRejected()
    ensures var kinds := Set([Member(Box), Member(Cone), Member(TriangularPyramid),
                              Member(RectangularPyramid), Member(Cylinder)]);
            var raw := RawParams(Int(10), kinds, Tuple([Int(5), Int(8)]), Tuple([Float(2.0), Float(4.0)]),
                                 Tuple([Int(5), Int(2)]), Bool(true));
            && Construct(raw) == Failure(ParamError(TypeError, SceneSize))
            && Construct(raw.(sceneSize := List([Int(10)]))) == Failure(ParamError(TypeError, ObjectsToGenerate))
  {
  }
}
