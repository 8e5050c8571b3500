/**
  The dynamically typed values that the validators inspect with `isinstance`.
  Each Python value is reduced to the tag the checks look at.
 */
module Values {
  import opened Primitives

  datatype Value =
    | Int(i: int)
    | Float(f: real)
    | Bool(b: bool)
    | Str(s: string)
    | List(items: seq<Value>)
    | Tuple(items: seq<Value>)
    | Set(items: seq<Value>)
    | Member(kind: PrimitiveObject)
    | Other

  /** `isinstance(v, (float, int))` */
  predicate IsNumber(v: Value) {
    v.Int? || v.Float?
  }

  /** The numeric value of an `int` or `float`. */
  function AsReal(v: Value): real
    requires IsNumber(v)
  {
    if v.Int? then v.i as real else v.f
  }

  predicate PositiveNumber(v: Value) {
    IsNumber(v) && AsReal(v) > 0.0
  }

  /** Python's `all(p(v) for v in vs)`, evaluated front to back. */
  function All(vs: seq<Value>, p: Value -> bool): (b: bool)
    ensures b <==> forall i :: 0 <= i < |vs| ==> p(vs[i])
  {
    if |vs| == 0 then true
    else p(vs[0]) && All(vs[1..], p)
  }

  /** The numbers of `vs`, in order. */
  function Reals(vs: seq<Value>): (r: seq<real>)
    requires forall i :: 0 <= i < |vs| ==> IsNumber(vs[i])
    ensures |r| == |vs|
    ensures forall i :: 0 <= i < |vs| ==> r[i] == AsReal(vs[i])
  {
    if |vs| == 0 then []
    else [AsReal(vs[0])] + Reals(vs[1..])
  }

  /** The enum members of `vs`, in order. */
  function Kinds(vs: seq<Value>): (r: seq<PrimitiveObject>)
    requires forall i :: 0 <= i < |vs| ==> vs[i].Member?
    ensures |r| == |vs|
    ensures forall i :: 0 <= i < |vs| ==> r[i] == vs[i].kind
  {
    if |vs| == 0 then []
    else [vs[0].kind] + Kinds(vs[1..])
  }
}
