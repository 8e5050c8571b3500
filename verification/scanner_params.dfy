/**
  `ScannerParams` (scanner/scanner_params.py): a parameter object whose
  properties validate every assignment before storing it. A property that has
  never been assigned is `None` here (Python's `hasattr` is false for it).
  Each setter is a function from the object before the call to the object
  after it, together with the exception it raised, if any.
 */
module ScannerParams {
  import opened Wrappers
  import opened Values

  datatype Field =
    | ScannerObject | SceneSize | FrameStart | FrameEnd | MinAngle | MaxAngle
    | AddBlenderMesh | AddNoisyBlenderMesh | RenderFilepath | RenderFileformat | RenderEngine

  /** The order in which the constructor assigns the properties. */
  function Rank(f: Field): nat {
    match f
    case ScannerObject => 0
    case SceneSize => 1
    case FrameStart => 2
    case FrameEnd => 3
    case MinAngle => 4
    case MaxAngle => 5
    case AddBlenderMesh => 6
    case AddNoisyBlenderMesh => 7
    case RenderFilepath => 8
    case RenderFileformat => 9
    case RenderEngine => 10
  }

  /** Why a setter refused its value. */
  datatype Reason = WrongType | NotPositive | OrderViolated | OutOfRange

  datatype ScanError = ScanError(field: Field, reason: Reason)

  /** Wrong types raise `TypeError`; every other refusal raises `ValueError`. */
  function Kind(e: ScanError): ErrorKind {
    if e.reason == WrongType then TypeError else ValueError
  }

  datatype Scanner = Scanner(
    scannerObject: Option<Value>,
    sceneSize: Option<real>,
    frameStart: Option<int>,
    frameEnd: Option<int>,
    minAngle: Option<real>,
    maxAngle: Option<real>,
    addBlenderMesh: Option<bool>,
    addNoisyBlenderMesh: Option<bool>,
    renderFilepath: Option<string>,
    renderFileformat: Option<string>,
    renderEngine: Option<string>)

  /** The object before `__init__` assigns anything. */
  function Blank(): Scanner {
    Scanner(None, None, None, None, None, None, None, None, None, None, None)
  }

  /** The object after a setter call, and the exception the call raised. */
  datatype Update = Update(after: Scanner, raised: Option<ScanError>)

  function Refuse(s: Scanner, f: Field, why: Reason): Update {
    Update(s, Some(ScanError(f, why)))
  }

  function Store(s: Scanner): Update {
    Update(s, None)
  }

  predicate InAngleRange(x: real) {
    0.0 <= x <= 180.0
  }

  /** The cross-field guarantees the setters maintain. */
  predicate Inv(s: Scanner) {
    && (s.sceneSize.Some? ==> s.sceneSize.value > 0.0)
    && (s.frameStart.Some? && s.frameEnd.Some? ==> s.frameStart.value < s.frameEnd.value)
    && (s.minAngle.Some? ==> InAngleRange(s.minAngle.value))
    && (s.maxAngle.Some? ==> InAngleRange(s.maxAngle.value))
    && (s.minAngle.Some? && s.maxAngle.Some? ==> s.minAngle.value < s.maxAngle.value)
  }

  // ---------------------------------------------------------------------------
  // Setters

  function SetScannerObject(s: Scanner, v: Value): (u: Update)
    ensures u.raised.None? && u.after == s.(scannerObject := Some(v))
    ensures Inv(s) ==> Inv(u.after)
  {
    Store(s.(scannerObject := Some(v)))
  }

  function SetSceneSize(s: Scanner, v: Value): (u: Update)
    ensures u.raised.None? <==> PositiveNumber(v)
    ensures u.raised.None? ==> u.after == s.(sceneSize := Some(AsReal(v)))
    ensures u.raised.Some? ==> u.after == s && u.raised.value.field == SceneSize
    ensures u.raised.Some? ==> (Kind(u.raised.value) == TypeError <==> !IsNumber(v))
    ensures Inv(s) ==> Inv(u.after)
  {
    if !IsNumber(v) then Refuse(s, SceneSize, WrongType)
    else if !(AsReal(v) > 0.0) then Refuse(s, SceneSize, NotPositive)
    else Store(s.(sceneSize := Some(AsReal(v))))
  }

  function SetFrameStart(s: Scanner, v: Value): (u: Update)
    ensures u.raised.None? <==> v.Int? && (s.frameEnd.Some? ==> v.i < s.frameEnd.value)
    ensures u.raised.None? ==> u.after == s.(frameStart := Some(v.i))
    ensures u.raised.Some? ==> u.after == s && u.raised.value.field == FrameStart
    ensures u.raised.Some? ==> (Kind(u.raised.value) == TypeError <==> !v.Int?)
    ensures Inv(s) ==> Inv(u.after)
  {
    if !v.Int? then Refuse(s, FrameStart, WrongType)
    else if s.frameEnd.Some? && v.i >= s.frameEnd.value then Refuse(s, FrameStart, OrderViolated)
    else Store(s.(frameStart := Some(v.i)))
  }

  function SetFrameEnd(s: Scanner, v: Value): (u: Update)
    ensures u.raised.None? <==> v.Int? && (s.frameStart.Some? ==> s.frameStart.value < v.i)
    ensures u.raised.None? ==> u.after == s.(frameEnd := Some(v.i))
    ensures u.raised.Some? ==> u.after == s && u.raised.value.field == FrameEnd
    ensures u.raised.Some? ==> (Kind(u.raised.value) == TypeError <==> !v.Int?)
    ensures Inv(s) ==> Inv(u.after)
  {
    if !v.Int? then Refuse(s, FrameEnd, WrongType)
    else if s.frameStart.Some? && v.i <= s.frameStart.value then Refuse(s, FrameEnd, OrderViolated)
    else Store(s.(frameEnd := Some(v.i)))
  }

  /** The ordering check runs before the range check, so it decides when both fail. */
  function SetMinAngle(s: Scanner, v: Value): (u: Update)
    ensures u.raised.None? <==>
              IsNumber(v) && InAngleRange(AsReal(v)) && (s.maxAngle.Some? ==> AsReal(v) < s.maxAngle.value)
    ensures u.raised.None? ==> u.after == s.(minAngle := Some(AsReal(v)))
    ensures u.raised.Some? ==> u.after == s && u.raised.value.field == MinAngle
    ensures u.raised.Some? ==> (Kind(u.raised.value) == TypeError <==> !IsNumber(v))
    ensures u.raised.Some? ==> (u.raised.value.reason == OrderViolated <==>
              IsNumber(v) && s.maxAngle.Some? && AsReal(v) >= s.maxAngle.value)
    ensures Inv(s) ==> Inv(u.after)
  {
    if !IsNumber(v) then Refuse(s, MinAngle, WrongType)
    else if s.maxAngle.Some? && AsReal(v) >= s.maxAngle.value then Refuse(s, MinAngle, OrderViolated)
    else if AsReal(v) < 0.0 || AsReal(v) > 180.0 then Refuse(s, MinAngle, OutOfRange)
    else Store(s.(minAngle := Some(AsReal(v))))
  }

  /** The ordering check runs before the range check, so it decides when both fail. */
  function SetMaxAngle(s: Scanner, v: Value): (u: Update)
    ensures u.raised.None? <==>
              IsNumber(v) && InAngleRange(AsReal(v)) && (s.minAngle.Some? ==> s.minAngle.value < AsReal(v))
    ensures u.raised.None? ==> u.after == s.(maxAngle := Some(AsReal(v)))
    ensures u.raised.Some? ==> u.after == s && u.raised.value.field == MaxAngle
    ensures u.raised.Some? ==> (Kind(u.raised.value) == TypeError <==> !IsNumber(v))
    ensures u.raised.Some? ==> (u.raised.value.reason == OrderViolated <==>
              IsNumber(v) && s.minAngle.Some? && AsReal(v) <= s.minAngle.value)
    ensures Inv(s) ==> Inv(u.after)
  {
    if !IsNumber(v) then Refuse(s, MaxAngle, WrongType)
    else if s.minAngle.Some? && AsReal(v) <= s.minAngle.value then Refuse(s, MaxAngle, OrderViolated)
    else if AsReal(v) < 0.0 || AsReal(v) > 180.0 then Refuse(s, MaxAngle, OutOfRange)
    else Store(s.(maxAngle := Some(AsReal(v))))
  }

  predicate IsFlag(f: Field) {
    f == AddBlenderMesh || f == AddNoisyBlenderMesh
  }

  predicate IsText(f: Field) {
    f == RenderFilepath || f == RenderFileformat || f == RenderEngine
  }

  /** `add_blender_mesh` and `add_noisy_blender_mesh` accept only a `bool`. */
  function SetFlag(s: Scanner, f: Field, v: Value): (u: Update)
    requires IsFlag(f)
    ensures u.raised.None? <==> v.Bool?
    ensures u.raised.None? && f == AddBlenderMesh ==> u.after == s.(addBlenderMesh := Some(v.b))
    ensures u.raised.None? && f == AddNoisyBlenderMesh ==> u.after == s.(addNoisyBlenderMesh := Some(v.b))
    ensures u.raised.Some? ==> u.after == s && u.raised.value == ScanError(f, WrongType)
    ensures Inv(s) ==> Inv(u.after)
  {
    if !v.Bool? then Refuse(s, f, WrongType)
    else if f == AddBlenderMesh then Store(s.(addBlenderMesh := Some(v.b)))
    else Store(s.(addNoisyBlenderMesh := Some(v.b)))
  }

  /** `render_filepath`, `render_fileformat` and `render_engine` accept only a `str`. */
  function SetText(s: Scanner, f: Field, v: Value): (u: Update)
    requires IsText(f)
    ensures u.raised.None? <==> v.Str?
    ensures u.raised.None? && f == RenderFilepath ==> u.after == s.(renderFilepath := Some(v.s))
    ensures u.raised.None? && f == RenderFileformat ==> u.after == s.(renderFileformat := Some(v.s))
    ensures u.raised.None? && f == RenderEngine ==> u.after == s.(renderEngine := Some(v.s))
    ensures u.raised.Some? ==> u.after == s && u.raised.value == ScanError(f, WrongType)
    ensures Inv(s) ==> Inv(u.after)
  {
    if !v.Str? then Refuse(s, f, WrongType)
    else if f == RenderFilepath then Store(s.(renderFilepath := Some(v.s)))
    else if f == RenderFileformat then Store(s.(renderFileformat := Some(v.s)))
    else Store(s.(renderEngine := Some(v.s)))
  }

  /** Assigning `v` to property `f`. */
  function Assign(s: Scanner, f: Field, v: Value): Update {
    match f
    case ScannerObject => SetScannerObject(s, v)
    case SceneSize => SetSceneSize(s, v)
    case FrameStart => SetFrameStart(s, v)
    case FrameEnd => SetFrameEnd(s, v)
    case MinAngle => SetMinAngle(s, v)
    case MaxAngle => SetMaxAngle(s, v)
    case AddBlenderMesh => SetFlag(s, f, v)
    case AddNoisyBlenderMesh => SetFlag(s, f, v)
    case RenderFilepath => SetText(s, f, v)
    case RenderFileformat => SetText(s, f, v)
    case RenderEngine => SetText(s, f, v)
  }

  datatype Assignment = Assignment(field: Field, value: Value)

  /** The object after a series of assignments whose exceptions the caller caught. */
  function Run(s: Scanner, script: seq<Assignment>): Scanner
    decreases |script|
  {
    if |script| == 0 then s
    else Run(Assign(s, script[0].field, script[0].value).after, script[1..])
  }

  /** Whatever is assigned, and whichever assignments are refused, the invariant survives. */
  lemma {:induction false} RunPreservesInv(s: Scanner, script: seq<Assignment>)
    requires Inv(s)
    ensures Inv(Run(s, script))
    decreases |script|
  {
    if |script| > 0 {
      var u := Assign(s, script[0].field, script[0].value);
      assert Inv(u.after);
      RunPreservesInv(u.after, script[1..]);
    }
  }

  /** A refused assignment of any property leaves every property as it was. */
  lemma RefusedSetChangesNothing(s: Scanner, f: Field, v: Value)
    ensures Assign(s, f, v).raised.Some? ==> Assign(s, f, v).after == s
  {
  }

  // ---------------------------------------------------------------------------
  // Construction

  /** The arguments of `ScannerParams(...)`. */
  datatype Args = Args(
    scannerObject: Value, sceneSize: Value, frameStart: Value, frameEnd: Value,
    minAngle: Value, maxAngle: Value, addBlenderMesh: Value, addNoisyBlenderMesh: Value,
    renderFilepath: Value, renderFileformat: Value, renderEngine: Value)

  /** The constructor call with the keyword arguments left at their defaults. */
  function WithDefaults(scannerObject: Value, sceneSize: Value, frameStart: Value, frameEnd: Value,
                        minAngle: Value, maxAngle: Value): Args
  {
    Args(scannerObject, sceneSize, frameStart, frameEnd, minAngle, maxAngle,
         Bool(false), Bool(false), Str(""), Str(""), Str("CYCLES"))
  }

  function Arg(a: Args, f: Field): Value {
    match f
    case ScannerObject => a.scannerObject
    case SceneSize => a.sceneSize
    case FrameStart => a.frameStart
    case FrameEnd => a.frameEnd
    case MinAngle => a.minAngle
    case MaxAngle => a.maxAngle
    case AddBlenderMesh => a.addBlenderMesh
    case AddNoisyBlenderMesh => a.addNoisyBlenderMesh
    case RenderFilepath => a.renderFilepath
    case RenderFileformat => a.renderFileformat
    case RenderEngine => a.renderEngine
  }

  /**
    The argument for `f` passes its setter, given that every earlier argument
    has been stored: the frame order is checked against `frame_start` and the
    angle order against `min_angle`, both already assigned.
   */
  predicate ArgOk(a: Args, f: Field) {
    var v := Arg(a, f);
    match f
    case ScannerObject => true
    case SceneSize => PositiveNumber(v)
    case FrameStart => v.Int?
    case FrameEnd => v.Int? && (a.frameStart.Int? ==> a.frameStart.i < v.i)
    case MinAngle => IsNumber(v) && InAngleRange(AsReal(v))
    case MaxAngle => IsNumber(v) && InAngleRange(AsReal(v)) && (IsNumber(a.minAngle) ==> AsReal(a.minAngle) < AsReal(v))
    case AddBlenderMesh => v.Bool?
    case AddNoisyBlenderMesh => v.Bool?
    case RenderFilepath => v.Str?
    case RenderFileformat => v.Str?
    case RenderEngine => v.Str?
  }

  /** The first six properties hold the constructor's arguments, at their checked types. */
  predicate GeometryStored(a: Args, s: Scanner) {
    && s.scannerObject == Some(a.scannerObject)
    && IsNumber(a.sceneSize) && s.sceneSize == Some(AsReal(a.sceneSize))
    && a.frameStart.Int? && s.frameStart == Some(a.frameStart.i)
    && a.frameEnd.Int? && s.frameEnd == Some(a.frameEnd.i)
    && IsNumber(a.minAngle) && s.minAngle == Some(AsReal(a.minAngle))
    && IsNumber(a.maxAngle) && s.maxAngle == Some(AsReal(a.maxAngle))
  }

  /** The last five properties hold the constructor's arguments, at their checked types. */
  predicate OutputStored(a: Args, s: Scanner) {
    && a.addBlenderMesh.Bool? && s.addBlenderMesh == Some(a.addBlenderMesh.b)
    && a.addNoisyBlenderMesh.Bool? && s.addNoisyBlenderMesh == Some(a.addNoisyBlenderMesh.b)
    && a.renderFilepath.Str? && s.renderFilepath == Some(a.renderFilepath.s)
    && a.renderFileformat.Str? && s.renderFileformat == Some(a.renderFileformat.s)
    && a.renderEngine.Str? && s.renderEngine == Some(a.renderEngine.s)
  }

  /** The type the setter of `f` demands; an argument of another type raises `TypeError`. */
  predicate TypeOk(a: Args, f: Field) {
    var v := Arg(a, f);
    match f
    case ScannerObject => true
    case SceneSize => IsNumber(v)
    case FrameStart => v.Int?
    case FrameEnd => v.Int?
    case MinAngle => IsNumber(v)
    case MaxAngle => IsNumber(v)
    case AddBlenderMesh => v.Bool?
    case AddNoisyBlenderMesh => v.Bool?
    case RenderFilepath => v.Str?
    case RenderFileformat => v.Str?
    case RenderEngine => v.Str?
  }

  /**
    Why the constructor's assignment of `f` is refused, once every earlier
    argument has been stored: a wrong type first; then, since `frame_end` and
    `max_angle` are assigned after their partners, the frame order for
    `frame_end` and the angle order before the range for `max_angle`.
   */
  function RefusalReason(a: Args, f: Field): Reason {
    if !TypeOk(a, f) then WrongType
    else match f
      case SceneSize => NotPositive
      case FrameEnd => OrderViolated
      case MinAngle => OutOfRange
      case MaxAngle =>
        if IsNumber(a.minAngle) && AsReal(a.maxAngle) <= AsReal(a.minAngle) then OrderViolated else OutOfRange
      case _ => WrongType
  }

  function Checked(u: Update): (r: Result<Scanner, ScanError>)
    ensures r.Success? <==> u.raised.None?
  {
    if u.raised.None? then Success(u.after) else Failure(u.raised.value)
  }

  /** The first six assignments of `__init__`: the object, the scene size, the frames and the angles. */
  function ConstructGeometry(a: Args): (r: Result<Scanner, ScanError>)
    ensures r.Failure? ==> !ArgOk(a, r.error.field) && Rank(r.error.field) <= Rank(MaxAngle)
    ensures r.Failure? ==> forall f :: Rank(f) < Rank(r.error.field) ==> ArgOk(a, f)
    ensures r.Success? <==> forall f :: Rank(f) <= Rank(MaxAngle) ==> ArgOk(a, f)
    ensures r.Failure? && r.error.reason == OrderViolated ==> r.error.field in {FrameEnd, MaxAngle}
    ensures r.Success? ==> Inv(r.value) && r.value.addBlenderMesh.None? && r.value.addNoisyBlenderMesh.None?
    ensures r.Success? ==> && a.frameStart.Int? && r.value.frameStart == Some(a.frameStart.i)
                           && a.frameEnd.Int? && r.value.frameEnd == Some(a.frameEnd.i)
    ensures r.Success? ==> && IsNumber(a.minAngle) && r.value.minAngle == Some(AsReal(a.minAngle))
                           && IsNumber(a.maxAngle) && r.value.maxAngle == Some(AsReal(a.maxAngle))
    ensures r.Success? ==> GeometryStored(a, r.value)
    ensures r.Failure? ==> (r.error.reason == WrongType <==> !TypeOk(a, r.error.field))
    ensures r.Failure? ==> r.error.reason == RefusalReason(a, r.error.field)
  {
    var s0 := SetScannerObject(Blank(), Arg(a, ScannerObject)).after;
    var s1 :- Checked(SetSceneSize(s0, Arg(a, SceneSize)));
    var s2 :- Checked(SetFrameStart(s1, Arg(a, FrameStart)));
    var s3 :- Checked(SetFrameEnd(s2, Arg(a, FrameEnd)));
    var s4 :- Checked(SetMinAngle(s3, Arg(a, MinAngle)));
    var s5 :- Checked(SetMaxAngle(s4, Arg(a, MaxAngle)));
    EveryGeometryArgOk(a);
    Success(s5)
  }

  /** The last five assignments of `__init__`: the mesh flags and the render settings. */
  function ConstructOutput(s: Scanner, a: Args): (r: Result<Scanner, ScanError>)
    ensures r.Failure? ==> !ArgOk(a, r.error.field) && Rank(r.error.field) > Rank(MaxAngle)
    ensures r.Failure? ==> forall f :: Rank(MaxAngle) < Rank(f) < Rank(r.error.field) ==> ArgOk(a, f)
    ensures r.Success? <==> forall f :: Rank(f) > Rank(MaxAngle) ==> ArgOk(a, f)
    ensures r.Failure? ==> r.error.reason == WrongType
    ensures r.Success? ==> r.value.(addBlenderMesh := s.addBlenderMesh, addNoisyBlenderMesh := s.addNoisyBlenderMesh,
                                    renderFilepath := s.renderFilepath, renderFileformat := s.renderFileformat,
                                    renderEngine := s.renderEngine) == s
    ensures r.Success? ==> OutputStored(a, r.value)
    ensures r.Failure? ==> (r.error.reason == WrongType <==> !TypeOk(a, r.error.field))
    ensures r.Failure? ==> r.error.reason == RefusalReason(a, r.error.field)
  {
    var s6 :- Checked(SetFlag(s, AddBlenderMesh, Arg(a, AddBlenderMesh)));
    var s7 :- Checked(SetFlag(s6, AddNoisyBlenderMesh, Arg(a, AddNoisyBlenderMesh)));
    var s8 :- Checked(SetText(s7, RenderFilepath, Arg(a, RenderFilepath)));
    var s9 :- Checked(SetText(s8, RenderFileformat, Arg(a, RenderFileformat)));
    var s10 :- Checked(SetText(s9, RenderEngine, Arg(a, RenderEngine)));
    EveryOutputArgOk(a);
    Success(s10)
  }

  /** `__init__`: assigns every property in parameter order; the first refusal propagates. */
  function Construct(a: Args): (r: Result<Scanner, ScanError>)
    ensures r.Failure? ==> !ArgOk(a, r.error.field)
    ensures r.Failure? ==> forall f :: Rank(f) < Rank(r.error.field) ==> ArgOk(a, f)
    ensures r.Success? <==> forall f :: ArgOk(a, f)
    ensures r.Failure? && r.error.reason == OrderViolated ==> r.error.field in {FrameEnd, MaxAngle}
    ensures r.Success? ==> Inv(r.value)
    ensures r.Success? ==> && a.frameStart.Int? && r.value.frameStart == Some(a.frameStart.i)
                           && a.frameEnd.Int? && r.value.frameEnd == Some(a.frameEnd.i)
    ensures r.Success? ==> && IsNumber(a.minAngle) && r.value.minAngle == Some(AsReal(a.minAngle))
                           && IsNumber(a.maxAngle) && r.value.maxAngle == Some(AsReal(a.maxAngle))
    ensures r.Success? ==> GeometryStored(a, r.value) && OutputStored(a, r.value)
    ensures r.Failure? ==> (r.error.reason == WrongType <==> !TypeOk(a, r.error.field))
    ensures r.Failure? ==> r.error.reason == RefusalReason(a, r.error.field)
  {
    var s :- ConstructGeometry(a);
    ConstructOutput(s, a)
  }

  lemma EveryGeometryArgOk(a: Args)
    requires ArgOk(a, ScannerObject) && ArgOk(a, SceneSize) && ArgOk(a, FrameStart) && ArgOk(a, FrameEnd)
    requires ArgOk(a, MinAngle) && ArgOk(a, MaxAngle)
    ensures forall f :: Rank(f) <= Rank(MaxAngle) ==> ArgOk(a, f)
  {
  }

  lemma EveryOutputArgOk(a: Args)
    requires ArgOk(a, AddBlenderMesh) && ArgOk(a, AddNoisyBlenderMesh)
    requires ArgOk(a, RenderFilepath) && ArgOk(a, RenderFileformat) && ArgOk(a, RenderEngine)
    ensures forall f :: Rank(f) > Rank(MaxAngle) ==> ArgOk(a, f)
  {
  }

  // ---------------------------------------------------------------------------
  // Consequences

  /** Frame and angle order violations are reported by the second setter of each pair. */
  lemma FrameOrderReportedAtEnd()
    ensures Construct(WithDefaults(Other, Int(10), Int(20), Int(5), Int(0), Int(90)))
            == Failure(ScanError(FrameEnd, OrderViolated))
  {
  }

  lemma AngleOrderReportedAtMax()
    ensures Construct(WithDefaults(Other, Int(10), Int(1), Int(5), Int(60), Float(30.0)))
            == Failure(ScanError(MaxAngle, OrderViolated))
  {
  }

  /** Out-of-range and non-positive values are caught by their own setter. */
  lemma RangeErrors()
    ensures Construct(WithDefaults(Other, Int(10), Int(1), Int(5), Int(-1), Int(90)))
            == Failure(ScanError(MinAngle, OutOfRange))
    ensures Construct(WithDefaults(Other, Int(0), Float(1.0), Int(5), Int(0), Int(90)))
            == Failure(ScanError(SceneSize, NotPositive))
  {
  }

  /** A wrong type is reported as such by its own setter, whatever comes after it. */
  lemma TypeErrors()
    ensures Construct(WithDefaults(Other, Str("10"), Int(1), Int(5), Int(0), Int(90)))
            == Failure(ScanError(SceneSize, WrongType))
    ensures Construct(WithDefaults(Other, Int(10), Int(1), Float(5.0), Int(0), Int(90)))
            == Failure(ScanError(FrameEnd, WrongType))
  {
  }

  lemma RenderEngineTypeError()
    ensures Construct(WithDefaults(Other, Int(10), Int(1), Int(5), Int(0), Int(90)).(renderEngine := Other))
            == Failure(ScanError(RenderEngine, WrongType))
  {
  }

  /** On a constructed object, moving `frame_start` to or past `frame_end` is refused. */
  lemma FrameOrderGuarded(s: Scanner, v: int)
    requires s.frameEnd.Some? && v >= s.frameEnd.value
    ensures SetFrameStart(s, Int(v)) == Refuse(s, FrameStart, OrderViolated)
  {
  }
}
