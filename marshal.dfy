/**
 * The per-parameter conversions the two call directions share: native
 * value to Python object (`ParamToObject`, `ParamRefToObject`,
 * `ParamToEnumObject`, `StorageValueToObject`, `MakeExternalCallWithObject`)
 * and Python object to native value (`SetRefParam`, `SetReturn`,
 * `CreateValue`, `CreateArray`). The function cache and the enum tables are
 * consulted through `Env`, whose answers are parameters of the model.
 */
module Marshal {
  import opened Python
  import opened Ranges
  import opened Kinds
  import opened Convert
  import opened Create

  /** A code address. */
  type Address = a: nat | a < PointerLimit

  /** A parameter or return type: its kind, whether it is passed by reference, and its enumeration if any. */
  datatype ParamDesc = ParamDesc(kind: ValueType, isRef: bool, enumId: Option<nat>)

  /**
   * The answers of the module's tables: `GetOrCreateFunctionObject` for a
   * native code address, `GetOrCreateFunctionValue` for a Python object, and
   * `GetEnumObject` for an enumeration and an int64 value.
   */
  datatype Env = Env(
    functionObject: Address -> Result<PyObj>,
    functionValue: PyObj -> Result<Address>,
    enumObject: (nat, int) -> Result<PyObj>)

  /** The kinds an enumeration can be carried in: an integer or an array of integers. */
  predicate IsEnumKind(k: ValueType)
  {
    IsIntKind(k) || (k.ArrayOf? && IsIntKind(k.elem))
  }

  /** The kinds with a value conversion and an array conversion. */
  predicate IsValueKind(k: ValueType)
  {
    IsElementKind(k) || (k.ArrayOf? && IsElementKind(k.elem))
  }

  /**
   * `ValueUtils::IsHiddenParam` on the System V x86-64 convention: the kinds
   * returned through a caller-allocated slot passed as a hidden first argument.
   */
  predicate IsHiddenParam(k: ValueType)
  {
    k == String || k == Any || k == ValueType.Matrix4x4 || (k.ArrayOf? && IsElementKind(k.elem))
  }

  // ---- Native to Python ----

  /** `CreatePyEnumObject`: the enumeration's member for the value as an int64. */
  function EnumMember(env: Env, id: nat, i: int): (r: Result<PyObj>)
    ensures InRange(I64, i) ==> r == env.enumObject(id, i)
    ensures InRange(IntType(W64, false), i) && !InRange(I64, i) ==> r == env.enumObject(id, i - 0x1_0000_0000_0000_0000)
  {
    env.enumObject(id, Cast(I64, i))
  }

  lemma IntKindValues(k: ValueType, items: seq<NativeValue>)
    requires IsIntKind(k) && forall i :: 0 <= i < |items| ==> OfKind(items[i], k)
    ensures forall i :: 0 <= i < |items| ==> items[i].VInt?
  {
  }

  /** `CreatePyEnumObjectList`: one member per element, or the first failure. */
  function EnumMembers(env: Env, id: nat, items: seq<NativeValue>): (r: Result<seq<PyObj>>)
    requires forall i :: 0 <= i < |items| ==> items[i].VInt?
    ensures r.Ok? <==> forall i :: 0 <= i < |items| ==> EnumMember(env, id, items[i].i).Ok?
    ensures r.Ok? ==> |r.value| == |items| && forall i :: 0 <= i < |items| ==> Ok(r.value[i]) == EnumMember(env, id, items[i].i)
  {
    if |items| == 0 then Ok([])
    else
      match EnumMember(env, id, items[0].i)
      case Err(e) => Err(e)
      case Ok(m) =>
        assert forall i :: 1 <= i < |items| ==> items[i] == items[1..][i - 1];
        match EnumMembers(env, id, items[1..])
        case Err(e) => Err(e)
        case Ok(rest) => Ok([m] + rest)
  }

  /** `ParamToEnumObject` and its by-reference and storage forms. */
  function EnumToObject(env: Env, id: nat, k: ValueType, v: NativeValue): (r: Result<PyObj>)
    requires IsEnumKind(k) && OfKind(v, k)
    ensures IsIntKind(k) ==> r == EnumMember(env, id, v.i)
    ensures k.ArrayOf? ==> (IntKindValues(k.elem, v.items);
      (r.Ok? <==> EnumMembers(env, id, v.items).Ok?))
    ensures k.ArrayOf? ==> (IntKindValues(k.elem, v.items);
      (r.Ok? ==> r.value == MakeList(EnumMembers(env, id, v.items).value)) &&
      (r.Err? ==> r == Err(EnumMembers(env, id, v.items).error)))
    ensures k.ArrayOf? && r.Ok? ==> (IntKindValues(k.elem, v.items);
      r.value.tag == List && r.value.body.ListBody? && r.value.body.exact && |r.value.body.items| == |v.items| &&
      forall i :: 0 <= i < |v.items| ==> Ok(r.value.body.items[i]) == EnumMember(env, id, v.items[i].i))
  {
    if IsIntKind(k) then EnumMember(env, id, v.i)
    else
      IntKindValues(k.elem, v.items);
      match EnumMembers(env, id, v.items)
      case Err(e) => Err(e)
      case Ok(ms) => Ok(MakeList(ms))
  }

  /**
   * The object for a native value of kind k: a function address goes
   * through the function cache, every other value through `CreatePyObject`.
   */
  function NativeToObject(env: Env, k: ValueType, v: NativeValue): (r: Result<PyObj>)
    requires OfKind(v, k)
    ensures k == ValueType.Function ==> r == env.functionObject(v.addr)
    ensures k != ValueType.Function ==> r == CreatePyObject(v)
  {
    if k == ValueType.Function then env.functionObject(v.addr) else CreatePyObject(v)
  }

  /** The object a parameter of the native signature becomes, enumeration or not. */
  function ParamObject(env: Env, p: ParamDesc, v: NativeValue): (r: Result<PyObj>)
    requires OfKind(v, p.kind) && (p.enumId.Some? ==> IsEnumKind(p.kind))
    ensures p.enumId.Some? ==> r == EnumToObject(env, p.enumId.value, p.kind, v)
    ensures p.enumId.NoValue? ==> r == NativeToObject(env, p.kind, v)
    ensures p.enumId.Some? && IsIntKind(p.kind) ==> r == EnumMember(env, p.enumId.value, v.i)
    ensures p.enumId.NoValue? && p.kind != ValueType.Function ==> r == CreatePyObject(v)
  {
    match p.enumId
    case Some(id) => EnumToObject(env, id, p.kind, v)
    case NoValue => NativeToObject(env, p.kind, v)
  }

  // ---- Python to native ----

  /**
   * `CreateValue<T>` / `CreateArray<T>` / `GetOrCreateFunctionValue`: the native
   * value of kind k for an object, as `PushObjectAsParam`,
   * `PushObjectAsRefParam`, `SetRefParam` and `SetReturn` compute it.
   */
  function ObjectToNative(env: Env, k: ValueType, o: PyObj): (r: Result<NativeValue>)
    requires IsValueKind(k) || k == ValueType.Function
    ensures r.Ok? ==> OfKind(r.value, k)
    ensures k == ValueType.Function ==> (r.Ok? <==> env.functionValue(o).Ok?)
    ensures IsValueKind(k) ==> r == FromObject(k, o)
  {
    if k == ValueType.Function then
      match env.functionValue(o)
      case Err(e) => Err(e)
      case Ok(a) => Ok(VPointer(a))
    else FromObject(k, o)
  }

  /**
   * A value can go to Python and come back: every value of a kind other than
   * `any` and `Function` whose object creation succeeds converts back to itself.
   */
  lemma NativeRoundTrip(env: Env, k: ValueType, v: NativeValue)
    requires IsValueKind(k) && k != Any && !(k.ArrayOf? && k.elem == Any)
    requires OfKind(v, k) && NativeToObject(env, k, v).Ok?
    ensures ObjectToNative(env, k, NativeToObject(env, k, v).value) == Ok(v)
  {
    if k.ArrayOf? {
      ArrayRoundTrip(k.elem, v);
    } else {
      ValueRoundTrip(k, v);
    }
  }
}
