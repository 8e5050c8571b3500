/** The kinds of primitive solid a scene may contain (`PrimitiveObjects`). */
module Primitives {

  datatype PrimitiveObject = Box | Cone | TriangularPyramid | RectangularPyramid | Cylinder

  /** The enum member's value, as the Python enum declares it. */
  function Name(k: PrimitiveObject): string {
    match k
    case Box => "box"
    case Cone => "cone"
    case TriangularPyramid => "triangular_pyramid"
    case RectangularPyramid => "rectangular_pyramid"
    case Cylinder => "cylinder"
  }

  /** Distinct members carry distinct values, as a Python `Enum` requires. */
  lemma NameInjective(j: PrimitiveObject, k: PrimitiveObject)
    ensures Name(j) == Name(k) ==> j == k
  {
  }
}
