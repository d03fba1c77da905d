/**
 * The closed catalog of value kinds that cross the boundary, the native
 * values of each kind, and the fallback value `SetFallbackReturn` writes
 * when a call fails.
 */
module Kinds {
  import opened Ranges
  import Python

  /** `plugify::ValueType`; `ArrayOf(e)` stands for `ArrayBool` ... `ArrayMatrix4x4`. */
  datatype ValueType =
    | Invalid | Void | Bool | Char8 | Char16
    | Int8 | Int16 | Int32 | Int64 | UInt8 | UInt16 | UInt32 | UInt64
    | Pointer | Float | Double | Function | String | Any
    | Vector2 | Vector3 | Vector4 | Matrix4x4
    | ArrayOf(elem: ValueType)

  predicate IsIntKind(k: ValueType)
  {
    k in {Int8, Int16, Int32, Int64, UInt8, UInt16, UInt32, UInt64}
  }

  function IntTypeOf(k: ValueType): IntType
    requires IsIntKind(k)
  {
    match k
    case Int8 => I8
    case Int16 => I16
    case Int32 => I32
    case Int64 => I64
    case UInt8 => U8
    case UInt16 => U16
    case UInt32 => U32
    case UInt64 => U64
  }

  /** The kinds a native function receives by value in a register or stack slot. */
  predicate IsScalar(k: ValueType)
  {
    k in {Bool, Char8, Char16, Pointer, Float, Double} || IsIntKind(k)
  }

  predicate IsAggregate(k: ValueType)
  {
    k in {Vector2, Vector3, Vector4, Matrix4x4}
  }

  /** The kinds that have an array form `plg::vector<T>`. */
  predicate IsElementKind(k: ValueType)
  {
    IsScalar(k) || k == String || k == Any || IsAggregate(k)
  }

  /** The enumerators of `ValueType` this encoding can spell. */
  predicate IsKind(k: ValueType)
  {
    k.ArrayOf? ==> IsElementKind(k.elem)
  }

  /** The kinds the native side always receives through a pointer, even by value. */
  predicate IsObjectKind(k: ValueType)
  {
    k == String || k == Any || IsAggregate(k) || (k.ArrayOf? && IsElementKind(k.elem))
  }

  /** The kinds `ArgsScope` knows how to delete. */
  predicate IsStorable(k: ValueType)
  {
    IsScalar(k) || IsObjectKind(k)
  }

  const PointerLimit: nat := 0x1_0000_0000_0000_0000

  /** A native value of some kind. Function values are code addresses (`VPointer`). */
  datatype NativeValue =
    | VNone
    | VBool(b: bool)
    | VChar8(c8: bv8)
    | VChar16(c16: bv16)
    | VInt(ty: IntType, i: int)
    | VPointer(addr: nat)
    | VFloat(f: Python.FloatBits)
    | VDouble(d: Python.FloatBits)
    | VString(bytes: seq<bv8>)
    | VArray(elem: ValueType, items: seq<NativeValue>)
    | VVector(comps: seq<Python.FloatBits>)
    | VMatrix(data: seq<Python.FloatBits>)

  function VectorSize(k: ValueType): nat
    requires k in {Vector2, Vector3, Vector4}
  {
    match k
    case Vector2 => 2
    case Vector3 => 3
    case Vector4 => 4
  }

  /** v is a well-formed native value of kind k. */
  predicate OfKind(v: NativeValue, k: ValueType)
    decreases v, 1
  {
    match k
    case Invalid => false
    case Void => v.VNone?
    case Bool => v.VBool?
    case Char8 => v.VChar8?
    case Char16 => v.VChar16?
    case Pointer => v.VPointer? && v.addr < PointerLimit
    case Function => v.VPointer? && v.addr < PointerLimit
    case Float => v.VFloat?
    case Double => v.VDouble?
    case String => v.VString?
    case Any => AnyValue(v)
    case Matrix4x4 => v.VMatrix? && |v.data| == 16
    case ArrayOf(e) =>
      IsElementKind(e) && v.VArray? && v.elem == e &&
      forall i :: 0 <= i < |v.items| ==> OfKind(v.items[i], e)
    case Vector2 | Vector3 | Vector4 => v.VVector? && |v.comps| == VectorSize(k)
    case Int8 | Int16 | Int32 | Int64 | UInt8 | UInt16 | UInt32 | UInt64 =>
      v.VInt? && v.ty == IntTypeOf(k) && InRange(v.ty, v.i)
  }

  /** A value a `plg::any` can hold: empty, or any well-formed value of an element or array kind. */
  predicate AnyValue(v: NativeValue)
    decreases v, 0
  {
    match v
    case VNone => true
    case VInt(t, i) => InRange(t, i)
    case VPointer(a) => a < PointerLimit
    case VArray(e, items) =>
      IsElementKind(e) && forall i :: 0 <= i < |items| ==> OfKind(items[i], e)
    case VVector(c) => 2 <= |c| <= 4
    case VMatrix(d) => |d| == 16
    case _ => true
  }

  const ZeroFloat: Python.FloatBits := Python.FloatBits(0)

  /** The all-zero / empty value of each shape. */
  predicate IsZero(v: NativeValue)
  {
    match v
    case VNone => true
    case VBool(b) => !b
    case VChar8(c) => c == 0
    case VChar16(c) => c == 0
    case VInt(_, i) => i == 0
    case VPointer(a) => a == 0
    case VFloat(f) => f == ZeroFloat
    case VDouble(d) => d == ZeroFloat
    case VString(s) => s == []
    case VArray(_, items) => items == []
    case VVector(c) => forall i :: 0 <= i < |c| ==> c[i] == ZeroFloat
    case VMatrix(d) => forall i :: 0 <= i < |d| ==> d[i] == ZeroFloat
  }

  /**
   * `SetFallbackReturn`: the value written into the return slot when a call
   * fails. For `Invalid` the source logs a fatal error and terminates.
   */
  function FallbackReturn(k: ValueType): (v: NativeValue)
    requires k != Invalid && IsKind(k)
    ensures OfKind(v, k) && IsZero(v)
  {
    match k
    case Void => VNone
    case Bool => VBool(false)
    case Char8 => VChar8(0)
    case Char16 => VChar16(0)
    case Pointer => VPointer(0)
    case Function => VPointer(0)
    case Float => VFloat(ZeroFloat)
    case Double => VDouble(ZeroFloat)
    case String => VString([])
    case Any => VNone
    case Vector2 => VVector([ZeroFloat, ZeroFloat])
    case Vector3 => VVector([ZeroFloat, ZeroFloat, ZeroFloat])
    case Vector4 => VVector([ZeroFloat, ZeroFloat, ZeroFloat, ZeroFloat])
    case Matrix4x4 => VMatrix(seq(16, _ => ZeroFloat))
    case ArrayOf(e) => VArray(e, [])
    case Int8 | Int16 | Int32 | Int64 | UInt8 | UInt16 | UInt32 | UInt64 => VInt(IntTypeOf(k), 0)
  }

  /**
   * The fallback is the only zero value of its kind, so a failed call always
   * leaves the same, fully initialised value in the return slot. (For `Any`
   * every zero alternative is a value of the kind; the fallback is the empty one.)
   */
  lemma FallbackIsTheZeroOfItsKind(k: ValueType, v: NativeValue)
    requires k != Invalid && k != Any && IsKind(k)
    ensures OfKind(v, k) && IsZero(v) <==> v == FallbackReturn(k)
  {
    if OfKind(v, k) && IsZero(v) {
      match k
      case Vector2 =>
        assert v.comps == [ZeroFloat, ZeroFloat];
      case Vector3 =>
        assert v.comps == [ZeroFloat, ZeroFloat, ZeroFloat];
      case Vector4 =>
        assert v.comps == [ZeroFloat, ZeroFloat, ZeroFloat, ZeroFloat];
      case Matrix4x4 =>
        assert v.data == seq(16, _ => ZeroFloat);
      case ArrayOf(e) =>
        assert v.items == [];
      case _ =>
    }
  }
}
