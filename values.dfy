/** Runtime Python values, their runtime classes, and type hints, as far as
    the conversion closures look at them. */
module Values {

  datatype Option<+T> = None | Some(value: T)

  /** The runtime class of a value: `type(v)`. */
  datatype PyType =
    | NoneType
    | BoolType
    | IntType
    | FloatType
    | StrType
    | ListType
    | EnumType(enumCls: nat)
    | ClassType(cls: nat)

  /** A runtime value that reaches a loader or a dumper. */
  datatype Value =
    | VNone
    | VBool(b: bool)
    | VInt(i: int)
    | VFloat(f: real)                  // a finite float, by its exact value
    | VStr(s: string)
    | VList(items: seq<Value>)         // a list: compared item by item, and unhashable
    | VEnum(enumCls: nat, member: string)
    | VObj(cls: nat, id: nat)

  /** A type hint as written by the user; only its identity matters here.
      `Subscripted(base, args)` is `base[args]`. */
  datatype TypeHint =
    | AnyHint
    | Hint(id: nat)
    | Subscripted(base: TypeHint, args: seq<TypeHint>)

  function TypeOf(v: Value): PyType
  {
    match v
    case VNone => NoneType
    case VBool(_) => BoolType
    case VInt(_) => IntType
    case VFloat(_) => FloatType
    case VStr(_) => StrType
    case VList(_) => ListType
    case VEnum(c, _) => EnumType(c)
    case VObj(c, _) => ClassType(c)
  }

  /** The number a `bool`, `int` or `float` stands for (`bool` is a subclass of `int`). */
  function Numeric(v: Value): Option<real>
  {
    match v
    case VBool(x) => Some(if x then 1.0 else 0.0)
    case VInt(i) => Some(i as real)
    case VFloat(f) => Some(f)
    case _ => None
  }

  /** Python's `==` on these values: numbers compare by value across `bool`, `int` and
      `float` (`True == 1 == 1.0`), lists item by item, anything else structurally. */
  predicate PyEq(a: Value, b: Value)
    decreases a
  {
    if a.VList? && b.VList? then
      |a.items| == |b.items| && forall i :: 0 <= i < |a.items| ==> PyEq(a.items[i], b.items[i])
    else if Numeric(a).Some? && Numeric(b).Some? then Numeric(a) == Numeric(b)
    else a == b
  }

  /** `hash(v)` succeeds: lists are unhashable. */
  predicate Hashable(v: Value)
  {
    !v.VList?
  }

  /** The representative a hash-based set keeps for the class of hashable values `==` to
      `v`: numbers with an integral value are represented by that `int`. */
  function Canon(v: Value): (r: Value)
    ensures !r.VBool?
    ensures r.VFloat? ==> r.f != r.f.Floor as real
  {
    match v
    case VBool(x) => VInt(if x then 1 else 0)
    case VFloat(f) => if f == f.Floor as real then VInt(f.Floor) else v
    case _ => v
  }

  /** On hashable values, `==` is exactly "same representative", which is what makes a hash
      set and a linear scan agree. A list is never `==` to a hashable value. */
  lemma PyEqIffSameCanon(a: Value, b: Value)
    requires Hashable(a) || Hashable(b)
    ensures PyEq(a, b) <==> Canon(a) == Canon(b)
  {
  }

  /** Pairs `(type(v), v)` are `==` only when the values are structurally equal. */
  lemma TypedEqIsIdentity(a: Value, b: Value)
    requires Hashable(a) || Hashable(b)
    ensures (TypeOf(a) == TypeOf(b) && PyEq(a, b)) <==> a == b
  {
  }
}
