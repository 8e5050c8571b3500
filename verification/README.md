# Scene generation core of BlenderDataGenerationTool, in Dafny

The repository builds synthetic 3D scenes inside Blender. Most of it calls into
the host. This model covers the parts that are pure logic:

- **Overlap classification of axis-aligned bounding boxes** (`aabb.dfy`, module `Aabb`).
  `are_two_aabbs_overlapping` returns `COMPLETE_OVERLAP`, `PARTIAL_OVERLAP` or
  `NO_OVERLAP`. `is_aabb_overlapping_with_any_aabb` lifts it to a list.
  Coordinates are `real`, because the classifier only compares them.
- **Bounded random draws** (`draws.dfy`, module `Draws`). This covers
  `generate_random_height` and the size arithmetic of the mesh helpers.
  Each value from `random()` is passed in as a parameter.
- **`SceneGeneratorParams` validation** (`scene_params.dfy`, module `SceneParams`).
  The untyped constructor arguments are checked field by field in declaration
  order. The result is either a typed, frozen record or the `TypeError`/`ValueError`
  of the first bad field. `primitives.dfy` holds the `PrimitiveObjects` enum.
  `values.dfy` reduces Python values to the tags that `isinstance` looks at.
- **The placement loop of `SceneGenerator.generate_scene`** (`placement.dfy`, module `Placement`).
  It chooses a mesh primitive for each kind and computes each location.
  When overlap is not allowed, it keeps a box only if that box overlaps no box kept
  earlier. Rejected objects are deleted and never retried.
- **`ScannerParams`** (`scanner_params.dfy`, module `ScannerParams`). Every
  property setter is a function from the object before the assignment to the
  object after it, paired with the exception it raised. The constructor runs the
  setters in parameter order.

`wrappers.dfy` defines the `Result`/`Option` types that stand in for raised exceptions.

Some behaviour of the code is easy to misread. The model follows the code:

- A planar location is `random()*s - s/2` (scene_generator/main.py:31-32). Because `random()`
  is below 1, the location lies in the half-open interval `[-s/2, s/2)`.
- With `allow_overlap`, the loop `continue`s before it asks for any box
  (scene_generator/main.py:52-53). So `aabbs` stays empty, no object is deleted, and
  every object stays in the scene.
- `generate_scene` returns nothing. The model returns three things: the mesh creation
  calls, the method's local `aabbs` list, and the indices of the objects still in the scene.
- `scene_generator/main.py` multiplies `scene_params.scene_size` like a scalar,
  but `SceneGeneratorParams` requires it to be a list. `Placement.GenerateScene`
  therefore takes the scalar extent `extent` as its own parameter.

## Model

| member | source | states |
|---|---|---|
| `Aabb.Classify` | gen_module/scene_generator/utils.py:80-125 | The result is COMPLETE exactly when one box lies inside the other on all three axes, with inclusive bounds; for well-formed boxes that means every point of one box is a point of the other. It is NO exactly when neither holds and some axis separates the boxes, touching included. For boxes of positive extent it is PARTIAL exactly when neither box covers the other and some point lies strictly inside both, and NO exactly when neither covers the other and no such point exists. |
| `Aabb.SeparatedIffInteriorsApart` | gen_module/scene_generator/utils.py:118-122 | For boxes of positive extent, the separation test on some axis holds exactly when no point lies strictly inside both boxes. |
| `Aabb.PointFacts` | gen_module/scene_generator/utils.py:109-122 | Whenever the boxes are well-formed, the containment test means point-set covering. Whenever they have positive extent, the separation test means that the interiors are disjoint. |
| `Aabb.ContainsIffCovers` | gen_module/scene_generator/utils.py:110-113 | For a well-formed inner box, the corner-wise containment test holds exactly when every point of the inner box is a point of the outer box. |
| `Aabb.OverlapIffInteriorsMeet` | gen_module/scene_generator/utils.py:109-125 | For boxes of positive extent, the result is PARTIAL or COMPLETE exactly when some point lies strictly inside both boxes. So touching boxes are not overlapping. |
| `Aabb.ClassifyMatchesGeometry` | gen_module/scene_generator/utils.py:80-125 | For boxes of positive extent, the classifier gives the same result as a definition over point sets. That definition says COMPLETE when one box's points are all points of the other, PARTIAL when some point lies strictly inside both, and NO otherwise. |
| `Aabb.ClassifySymmetric` | gen_module/scene_generator/utils.py:110-121 | Swapping the two boxes does not change the result. |
| `Aabb.ClassifyReflexive` | gen_module/scene_generator/tests/test_utils.py:123-135 | A box compared with itself is COMPLETE_OVERLAP. |
| `Aabb.ClassifyTranslationInvariant` | gen_module/scene_generator/tests/test_utils.py:137-150 | Shifting both boxes by the same vector leaves the result unchanged. |
| `Aabb.TouchingIsNoOverlap` | gen_module/scene_generator/utils.py:118-122 | If two boxes meet at a face plane on some axis and neither contains the other, the result is NO_OVERLAP. |
| `Aabb.ContainmentPrecedence` | gen_module/scene_generator/utils.py:109-116 | A point-sized box anywhere in a box, its boundary included, is COMPLETE_OVERLAP. The containment check wins over the separation check. |
| `Aabb.CompleteOverlapScenarios` | gen_module/scene_generator/tests/test_utils.py:44-60 | The three nested-box cases and the identical-box case are COMPLETE_OVERLAP under any shift. |
| `Aabb.NoOverlapScenarios` | gen_module/scene_generator/tests/test_utils.py:62-83 | The six disjoint cases are NO_OVERLAP under any shift. |
| `Aabb.PartialOverlapScenarios` | gen_module/scene_generator/tests/test_utils.py:85-103 | The five partly overlapping cases are PARTIAL_OVERLAP under any shift. |
| `Aabb.TouchingScenarios` | gen_module/scene_generator/tests/test_utils.py:105-121 | The shared-edge, shared-corner and shared-face cases are NO_OVERLAP under any shift. |
| `Aabb.OverlapsAny` | gen_module/scene_generator/utils.py:128-133 | Returns true exactly when some box of the list classifies as PARTIAL or COMPLETE against the candidate. It is false on an empty list. |
| `Draws.Jitter` | gen_module/scene_generator/utils.py:38 | `mean + uniform(-std, std)` lies within `|std|` of the mean, endpoints included. |
| `Draws.GenerateRandomHeight` | gen_module/scene_generator/utils.py:15-38 | It succeeds exactly when both arguments are numbers. Otherwise the TypeError names `mean` when `mean` is not a number, and `std` otherwise. On success the height is within `|std|` of the mean. |
| `Draws.RandomExtent` | gen_module/scene_generator/utils.py:148 | `random()*(b-a)+a` lies in `[a, b]`, and below `b` when `a < b`. |
| `Primitives.NameInjective` | gen_module/scene_generator/scene_generator_params.py:5-10 | Distinct enum members have distinct values. So the value comparisons in the kind branch identify the member. |
| `SceneParams.CheckSceneSize` | gen_module/scene_generator/scene_generator_params.py:22-28 | The check accepts exactly a list of length 1 or 3 whose elements are all positive numbers. A non-list gives TypeError and every other fault gives ValueError. On success the result holds those numbers in order. |
| `SceneParams.CheckObjects` | gen_module/scene_generator/scene_generator_params.py:30-36 | The check accepts exactly a non-empty list of enum members. A non-list gives TypeError, and an empty list or a foreign element gives ValueError. |
| `SceneParams.CheckCountRange` | gen_module/scene_generator/scene_generator_params.py:38-46 | The check accepts exactly a 2-tuple of ints with `0 <= lo <= hi`. A wrong container or element type gives TypeError. A wrong length or order gives ValueError. |
| `SceneParams.CheckNumberPair` | gen_module/scene_generator/scene_generator_params.py:58-64 | The check accepts exactly a 2-tuple of numbers, with no sign or order constraint. A wrong container, or a pair with a non-number, gives TypeError. A wrong length gives ValueError. |
| `SceneParams.CheckSizeRange` | gen_module/scene_generator/scene_generator_params.py:48-56 | The check accepts exactly a numeric 2-tuple with `0 <= lo <= hi`. The error kinds are split as for the count range. |
| `SceneParams.CheckAllowOverlap` | gen_module/scene_generator/scene_generator_params.py:66-68 | The check accepts exactly a bool and returns it. Anything else gives TypeError. |
| `SceneParams.Construct` | gen_module/scene_generator/scene_generator_params.py:12-68 | Construction succeeds exactly when every field is acceptable. A failure names a field that is not acceptable, with every earlier field acceptable, and its kind is TypeError exactly on a type fault. A built record satisfies every range invariant. Every field holds its argument: the scene size element by element, the kinds in list order, and both components of each pair. |
| `SceneParams.NegativeHeightSpreadAccepted` | gen_module/scene_generator/scene_generator_params.py:58-64 | A height distribution with a negative second component is accepted. |
| `SceneParams.CountRangeErrorKinds` | gen_module/scene_generator/scene_generator_params.py:38-46 | A list, or a float element, gives TypeError. Length 3, reversed bounds, or a negative lower bound gives ValueError. |
| `SceneParams.FirstFieldDecides` | gen_module/scene_generator/scene_generator_params.py:21-28 | When several fields are wrong, the error is the one for `scene_size`. |
| `SceneParams.DriverCallRejected` | gen_module/main.py:35-48 | The driver's arguments fail with TypeError on `scene_size`. With a list there instead, they fail with TypeError on `objects_to_generate`, because a set of kinds is not a list. |
| `Placement.ShapeOf` | gen_module/scene_generator/main.py:36-50 | Boxes and cylinders get their own primitive, and cylinders get 32 vertices. Every other kind is a cone with 3, 4 or 32 base vertices, so the fallback count of 0 never occurs. |
| `Placement.ShapeOfInjective` | gen_module/scene_generator/main.py:36-50 | Different kinds are created as different primitives. |
| `Placement.PlanarCoord` | gen_module/scene_generator/main.py:31-32 | With `r` in `[0, 1)` and a positive scene size `s`, the coordinate lies in `[-s/2, s/2)`. |
| `Placement.PlanarCoordOnto` | gen_module/scene_generator/main.py:31-32 | Every coordinate in `[-s/2, s/2)` comes from some draw in `[0, 1)`. |
| `Placement.KeepApart` | gen_module/scene_generator/main.py:57-61 | Appending a box that overlaps no kept box keeps the kept list pairwise NO_OVERLAP. |
| `Placement.KeepStep` | gen_module/scene_generator/main.py:60-61 | Accepting an object that overlaps nothing kept preserves every loop guarantee on kept boxes. |
| `Placement.RejectStep` | gen_module/scene_generator/main.py:57-59 | Deleting an object that overlaps a kept box preserves every loop guarantee, and records the box it overlapped. |
| `Placement.GenerateScene` | gen_module/scene_generator/main.py:22-61 | There is one creation per drawn object, with the right primitive and size range. Its location is computed from that object's own draws: `random()*s - s/2` on each planar axis and the jittered height, so it lies inside the scene square and within the jitter of the mean height. With `allow_overlap`, `aabbs` stays empty and every object survives. Otherwise the kept boxes are the survivors' boxes in input order and pairwise NO_OVERLAP. Every deleted object overlaps a box kept before it. At most the drawn count survive. That count is at most `hi` only because the `randint` draw is required to lie in `[lo, hi]`. |
| `ScannerParams.SetScannerObject` | gen_module/scanner/scanner_params.py:55-57 | Any value is stored, and the invariant is kept. |
| `ScannerParams.SetSceneSize` | gen_module/scanner/scanner_params.py:40-47 | The setter stores exactly a positive number. A non-number gives TypeError and a non-positive number gives ValueError. On refusal the object is unchanged. |
| `ScannerParams.SetFrameStart` | gen_module/scanner/scanner_params.py:65-72 | The setter stores exactly an int that is below `frame_end` when `frame_end` is set. On refusal the object is unchanged. The frame order is kept. |
| `ScannerParams.SetFrameEnd` | gen_module/scanner/scanner_params.py:80-87 | The setter stores exactly an int that is above `frame_start` when `frame_start` is set. On refusal the object is unchanged. The frame order is kept. |
| `ScannerParams.SetMinAngle` | gen_module/scanner/scanner_params.py:95-104 | The setter stores exactly a number in `[0, 180]` that is below `max_angle` when `max_angle` is set. The order check is reported before the range check. On refusal the object is unchanged. |
| `ScannerParams.SetMaxAngle` | gen_module/scanner/scanner_params.py:112-121 | The setter stores exactly a number in `[0, 180]` that is above `min_angle` when `min_angle` is set. The order check is reported before the range check. On refusal the object is unchanged. |
| `ScannerParams.SetFlag` | gen_module/scanner/scanner_params.py:129-145 | The two mesh flags accept only a bool. Anything else raises TypeError and leaves the object unchanged. |
| `ScannerParams.SetText` | gen_module/scanner/scanner_params.py:153-181 | The three render settings accept only a str. Anything else raises TypeError and leaves the object unchanged. |
| `ScannerParams.RunPreservesInv` | gen_module/scanner/scanner_params.py:65-121 | After any series of assignments, with refusals caught, the invariant still holds. The invariant is: scene size positive, `frame_start < frame_end`, and `0 <= min_angle < max_angle <= 180` for whichever of these are set. |
| `ScannerParams.RefusedSetChangesNothing` | gen_module/scanner/scanner_params.py:40-181 | A refused assignment to any property leaves the whole object as it was. |
| `ScannerParams.ConstructGeometry` | gen_module/scanner/scanner_params.py:22-27 | The first six assignments succeed exactly when their arguments pass in order. An order error can only come from `frame_end` or `max_angle`. A failure is a TypeError exactly when the argument has the wrong type. Otherwise the reason is: non-positive for `scene_size`, order for `frame_end`, range for `min_angle`, and for `max_angle` order when it is not above `min_angle` and range otherwise. On success the invariant holds, the six properties hold their arguments, and the flags are still unset. |
| `ScannerParams.ConstructOutput` | gen_module/scanner/scanner_params.py:28-32 | The flag and render assignments succeed exactly when each argument has its type. Any failure is a TypeError, raised because the argument has the wrong type. On success the five properties hold their arguments, and the geometry stored before is untouched. |
| `ScannerParams.Construct` | gen_module/scanner/scanner_params.py:8-32 | Construction succeeds exactly when every argument passes its setter in parameter order, and then the invariant holds. A failure names the first argument that fails. An ordering failure is reported by `frame_end` or `max_angle`. The failure's exception is TypeError exactly when the argument has the wrong type, and its reason is the one that argument's setter gives. A constructed object holds every argument in its property. |
| `ScannerParams.FrameOrderReportedAtEnd` | gen_module/scanner/scanner_params.py:84-86 | `frame_start=20, frame_end=5` fails in the `frame_end` setter with an order error. |
| `ScannerParams.AngleOrderReportedAtMax` | gen_module/scanner/scanner_params.py:116-118 | `min_angle=60, max_angle=30` fails in the `max_angle` setter with an order error. |
| `ScannerParams.RangeErrors` | gen_module/scanner/scanner_params.py:102-103 | A negative `min_angle` fails with a range error, and a zero `scene_size` fails as non-positive. |
| `ScannerParams.FrameOrderGuarded` | gen_module/scanner/scanner_params.py:69-71 | Once `frame_end` is set, a `frame_start` at or above it is refused and the object is unchanged. |
| `ScannerParams.TypeErrors` | gen_module/scanner/scanner_params.py:40-87 | `scene_size="10"` fails in the `scene_size` setter with TypeError, and a float `frame_end` fails in the `frame_end` setter with TypeError. |
| `ScannerParams.RenderEngineTypeError` | gen_module/scanner/scanner_params.py:175-179 | A non-str `render_engine` fails in its own setter with TypeError, after every earlier argument has been stored. |

## Left out

- `get_aabb` (scene_generator/utils.py:41-77) depends on the host's scene update and world matrices. The box it would return arrives as `Draw.aabb`.
- The `create_random_*` mesh helpers (scene_generator/utils.py:136-200) are host calls. Only the size arithmetic `random()*(b-a)+a` is modelled, as `Draws.RandomExtent`. The halving into a radius is not modelled.
- Selecting and deleting a rejected object are host side effects. A deleted object is simply missing from `survivors`.
- Randomness: `randint`, `choice`, `random` and `uniform` are replaced by the draws they return. The preconditions state their ranges: the drawn count is in `[lo, hi]`, each kind comes from the requested list, `random()` is in `[0, 1)` and the `uniform` fraction is in `[0, 1]`.
- Floating point is replaced by exact reals. The classifier only compares, and the shift tests with offsets of 1e6 and 1e-6 assume exact arithmetic.
- Python's `bool` is a subclass of `int`, so `isinstance(True, int)` holds. The model tags values instead, so a bool is never accepted where an int or a number is required.
- Exception messages are not modelled. Errors carry the exception kind, the field, and for `ScannerParams` the reason.
- Property getters raise `AttributeError` on a property never assigned. The model shows this as `None` and does not model the getter call.
- `scanner_object` holds a Blender object. The model stores it as an uninterpreted value.
- Failures raised by the host while an object is created are not modelled.
- `scene_generator/main.py` imports `create_box`, `create_cylinder` and `create_pyramid`, which `scene_generator/utils.py` does not define, and it calls them without a rotation. `Placement.Creation` records the intended call abstractly.
- The tests call `utils.are_aabbs_overlapping`, but the function is `are_two_aabbs_overlapping`. The scenario lemmas are stated for `Aabb.Classify`.
- gen_module/main.py passes `scene_size=10` and a set of kinds, so validation rejects its call with a TypeError on `scene_size` (`SceneParams.DriverCallRejected`). The rest of the driver is not part of this model, and neither are scanner/utils.py, scanner/main.py or system_parameters.py. They are host calls, file I/O and a process-wide configuration singleton. scanner/main.py imports a function `camera_setup` from scanner/utils.py, which does not define it.
- Placement.ShapeOf: its contract says that the vertex count of a cone-built kind is one of 3, 4 or 32. The exact count per kind is the body's table: 32 for CONE, 3 for TRIANGULAR_PYRAMID and 4 for RECTANGULAR_PYRAMID.
- Draws.Jitter: states the bound of the draw, not that it is uniform.
- ScannerParams.RunPreservesInv: proved for exact reals, which have no NaN. In Python every comparison with NaN is false, so a NaN `min_angle` or `max_angle` passes both the order check and the range check (scanner/scanner_params.py:99-103 and 116-120) and is stored. After that the angles are not ordered, and the invariant does not hold.
- ScannerParams.SetMinAngle: a NaN value is stored in Python, although it is not in `[0, 180]`. The model has no NaN.
- ScannerParams.SetMaxAngle: a NaN value is stored in Python, although it is not in `[0, 180]`. The model has no NaN.
- ScannerParams.Construct: `ScannerParams(obj, 10, 1, 5, float('nan'), 90)` succeeds in Python with unordered angles. The model's promise that a constructed object satisfies the invariant holds only without NaN.
- SceneParams.Construct: `object_size_range=(nan, 1.0)` passes both the order and the sign check (scene_generator/scene_generator_params.py:55), so `0 <= lo <= hi` is not guaranteed in Python. The model's `Valid` holds only without NaN. NaN scene sizes are rejected, because that check is `n > 0`.
