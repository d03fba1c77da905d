/**
 * Native value to Python object: the `CreatePyObject` overloads and
 * `CreatePyObjectList`, and the round trip with the conversions in `Convert`.
 *
 * The vector and matrix objects are built by calling the plugify classes
 * `Vector2` ... `Matrix4x4`, whose constructors are Python code outside this
 * model. What those calls are taken to return is stated once, by
 * `VectorConstructed` and `Matrix4x4Constructed`; the argument tuples the
 * module builds for them are modelled as written (`VectorArgs`,
 * `MatrixElements`). README's "Left out" section lists the members whose
 * vector and matrix cases rest on that assumption.
 */
module Create {
  import opened Python
  import opened Ranges
  import opened Kinds
  import opened Convert
  import Utf

  /**
   * `PyUnicode_FromStringAndSize`: CPython decodes the bytes as strict UTF-8
   * and fails with a UnicodeDecodeError (a ValueError) when they are not.
   */
  function StrFromBytes(b: seq<bv8>): (r: Result<PyObj>)
    ensures r.Ok? <==> Utf.DecodeStrict(b).Some?
    ensures r.Ok? ==> r.value == MakeStr(Utf.DecodeStrict(b).value, b)
    ensures r.Err? ==> r.error.kind == ValueError
  {
    match Utf.DecodeStrict(b)
    case Some(n) => Ok(MakeStr(n, b))
    case NoValue => Err(PyError(ValueError, "'utf-8' codec can't decode bytes"))
  }

  function ObjFloat(f: FloatBits): PyObj
  {
    MakeFloat(f)
  }

  const AxisNames: seq<string> := ["x", "y", "z", "w"]

  /** The component attributes of a vector instance, one per component, in axis order. */
  function VectorAttrs(c: seq<FloatBits>): (attrs: seq<Attr>)
    requires |c| <= 4
    ensures |attrs| == |c| && forall i :: 0 <= i < |c| ==> attrs[i] == Attr(AxisNames[i], MakeFloat(c[i]))
  {
    seq(|c|, i requires 0 <= i < |c| => Attr(AxisNames[i], MakeFloat(c[i])))
  }

  /** The argument tuple `CreateVector2Object` ... `CreateVector4Object` builds: one float object per component. */
  function VectorArgs(c: seq<FloatBits>): (args: seq<PyObj>)
    ensures |args| == |c| && forall i :: 0 <= i < |c| ==> args[i] == MakeFloat(c[i])
  {
    seq(|c|, i requires 0 <= i < |c| => MakeFloat(c[i]))
  }

  /**
   * What `PyObject_CallObject` on the class `Vector2`, `Vector3` or `Vector4`
   * with args is taken to return: an instance of the class of that arity
   * holding argument i as its attribute `x`, `y`, `z` or `w`.
   */
  function VectorConstructed(args: seq<PyObj>): (o: PyObj)
    requires 2 <= |args| <= 4
    ensures o.body.InstanceBody? && TagAgrees(o) && |o.body.attrs| == |args|
    ensures o.body.cls == (if |args| == 2 then Vec2Class else if |args| == 3 then Vec3Class else Vec4Class)
    ensures o.tag == (if |args| == 2 then PyType.Vector2 else if |args| == 3 then PyType.Vector3 else PyType.Vector4)
    ensures forall i :: 0 <= i < |args| ==> o.body.attrs[i] == Attr(AxisNames[i], args[i])
  {
    var attrs := seq(|args|, i requires 0 <= i < |args| => Attr(AxisNames[i], args[i]));
    if |args| == 2 then PyObj(PyType.Vector2, "Vector2", InstanceBody(Vec2Class, attrs))
    else if |args| == 3 then PyObj(PyType.Vector3, "Vector3", InstanceBody(Vec3Class, attrs))
    else PyObj(PyType.Vector4, "Vector4", InstanceBody(Vec4Class, attrs))
  }

  /** The instance `CreateVector2Object` ... `CreateVector4Object` returns. */
  function VectorObject(c: seq<FloatBits>): (o: PyObj)
    requires 2 <= |c| <= 4
    ensures o.body.InstanceBody? && TagAgrees(o) && o.body.attrs == VectorAttrs(c)
  {
    VectorConstructed(VectorArgs(c))
  }

  /** The one argument `CreateMatrix4x4Object` passes: a list of the 16 element objects, row by row. */
  function MatrixElements(d: seq<FloatBits>): (elems: PyObj)
    requires |d| == 16
    ensures elems.tag == List && elems.body.ListBody? && elems.body.exact && |elems.body.items| == 16
    ensures forall k :: 0 <= k < 16 ==> elems.body.items[k] == MakeFloat(d[k])
  {
    MakeList(seq(16, k requires 0 <= k < 16 => MakeFloat(d[k])))
  }

  /** Sixteen objects regrouped into the 4x4 list of rows a matrix is exposed through. */
  function MatrixRows(items: seq<PyObj>): (rows: seq<PyObj>)
    requires |items| == 16
    ensures |rows| == 4 && forall i :: 0 <= i < 4 ==> IsQuad(rows[i])
    ensures forall i, j :: 0 <= i < 4 && 0 <= j < 4 ==> IsQuad(rows[i]) && rows[i].body.items[j] == items[i * 4 + j]
  {
    seq(4, i requires 0 <= i < 4 => MakeList(seq(4, j requires 0 <= j < 4 => items[i * 4 + j])))
  }

  /**
   * What `PyObject_CallObject` on the class `Matrix4x4` with a list of 16
   * elements is taken to return: an instance whose one attribute `m` holds
   * the elements as four rows of four.
   */
  function Matrix4x4Constructed(elems: PyObj): (o: PyObj)
    requires elems.body.ListBody? && |elems.body.items| == 16
    ensures o.body.InstanceBody? && TagAgrees(o) && o.body.cls == Mat4x4Class
    ensures o.body.attrs == [Attr("m", MakeList(MatrixRows(elems.body.items)))]
  {
    PyObj(PyType.Matrix4x4, "Matrix4x4", InstanceBody(Mat4x4Class, [Attr("m", MakeList(MatrixRows(elems.body.items)))]))
  }

  /** The instance `CreateMatrix4x4Object` returns. */
  function MatrixObject(d: seq<FloatBits>): (o: PyObj)
    requires |d| == 16
    ensures o.body.InstanceBody? && TagAgrees(o)
  {
    Matrix4x4Constructed(MatrixElements(d))
  }

  const EmptyStr: PyObj := MakeStr(0, [])

  /**
   * `CreatePyObject` for each native value, as `ParamToObject` and the `any`
   * visitor use it: the empty `any` is `None`, NUL characters are the empty
   * string, a character that does not encode is an error, and an array is a
   * list of its elements' objects.
   */
  function CreatePyObject(v: NativeValue): (r: Result<PyObj>)
    ensures r.Ok? ==> TagAgrees(r.value)
    ensures v.VChar16? && Utf.IsSurrogate(v.c16) ==> r == Err(PyError(ValueError, "Surrogate pair"))
    ensures v.VArray? ==> r == CreatePyObjectList(v.items)
    ensures (v.VInt? || v.VPointer? || v.VBool? || v.VFloat? || v.VDouble? || v.VNone?) ==> r.Ok?
    ensures v.VVector? && 2 <= |v.comps| <= 4 ==> r == Ok(VectorObject(v.comps))
    ensures v.VMatrix? && |v.data| == 16 ==> r == Ok(MatrixObject(v.data))
    decreases v, 2
  {
    match v
    case VNone => Ok(PyNone)
    case VBool(b) => Ok(MakeBool(b))
    case VChar8(c) => if c == 0 then Ok(EmptyStr) else StrFromBytes([c])
    case VChar16(c) =>
      if c == 0 then Ok(EmptyStr)
      else
        var e := Utf.ConvertUtf16ToUtf8(c);
        if e.rc == -1 then Err(PyError(ValueError, "Surrogate pair"))
        else StrFromBytes(e.bytes[..e.rc])
    case VInt(_, i) => Ok(MakeInt(i))
    case VPointer(a) => Ok(MakeInt(a))
    case VFloat(f) => Ok(MakeFloat(f))
    case VDouble(f) => Ok(MakeFloat(f))
    case VString(b) => StrFromBytes(b)
    case VArray(_, items) => CreatePyObjectList(items)
    case VVector(c) => if 2 <= |c| <= 4 then Ok(VectorObject(c)) else Err(PyError(RuntimeError, "vector size"))
    case VMatrix(d) => if |d| == 16 then Ok(MatrixObject(d)) else Err(PyError(RuntimeError, "matrix size"))
  }

  /**
   * `CreatePyObjectList`: a list with one object per element, or the first
   * element's failure.
   */
  function CreatePyObjectList(items: seq<NativeValue>): (r: Result<PyObj>)
    ensures r.Ok? <==> forall i :: 0 <= i < |items| ==> CreatePyObject(items[i]).Ok?
    ensures r.Ok? ==> (r.value.tag == List && r.value.body.ListBody? && r.value.body.exact &&
                       |r.value.body.items| == |items| &&
                       forall i :: 0 <= i < |items| ==> Ok(r.value.body.items[i]) == CreatePyObject(items[i]))
    decreases items, 1
  {
    match CreateObjects(items)
    case Err(e) => Err(e)
    case Ok(objs) => Ok(MakeList(objs))
  }

  function CreateObjects(items: seq<NativeValue>): (r: Result<seq<PyObj>>)
    ensures r.Ok? <==> forall i :: 0 <= i < |items| ==> CreatePyObject(items[i]).Ok?
    ensures r.Ok? ==> |r.value| == |items| && forall i :: 0 <= i < |items| ==> Ok(r.value[i]) == CreatePyObject(items[i])
    decreases items, 0
  {
    if |items| == 0 then Ok([])
    else
      match CreatePyObject(items[0])
      case Err(e) => Err(e)
      case Ok(o) =>
        assert forall i :: 1 <= i < |items| ==> items[i] == items[1..][i - 1];
        match CreateObjects(items[1..])
        case Err(e) => Err(e)
        case Ok(rest) => Ok([o] + rest)
  }

  // ---- Which values can be created ----

  /** A `char` becomes a string exactly when it is NUL or ASCII: `PyUnicode_FromStringAndSize` refuses a lone byte of 80 or more. */
  lemma Char8Creatable(c: bv8)
    ensures CreatePyObject(VChar8(c)).Ok? <==> c < 0x80
    ensures c != 0 && c < 0x80 ==> CreatePyObject(VChar8(c)) == Ok(MakeStr(1, [c]))
  {
    if c != 0 {
      assert [c][1..] == [];
      if c < 0x80 {
        assert Utf.SequenceLength([c]) == 1;
      } else {
        assert Utf.SequenceLength([c]) == 0;
      }
    }
  }

  /** A `char16_t` becomes a string exactly when it is not a surrogate, a one-character string. */
  lemma Char16Creatable(c: bv16)
    ensures CreatePyObject(VChar16(c)).Ok? <==> !Utf.IsSurrogate(c)
    ensures c != 0 && !Utf.IsSurrogate(c) ==>
      var e := Utf.ConvertUtf16ToUtf8(c);
      CreatePyObject(VChar16(c)) == Ok(MakeStr(1, e.bytes[..e.rc]))
  {
    if c != 0 && !Utf.IsSurrogate(c) {
      Utf.EncodedIsWellFormed(c);
    }
  }

  // ---- Round trips: native value to object and back ----

  lemma Char8RoundTrip(c: bv8)
    requires c < 0x80
    ensures CharFromObject(CreatePyObject(VChar8(c)).value) == Ok(VChar8(c))
  {
    Char8Creatable(c);
  }

  lemma Char16RoundTrip(c: bv16)
    requires !Utf.IsSurrogate(c)
    ensures Char16FromObject(CreatePyObject(VChar16(c)).value) == Ok(VChar16(c))
  {
    if c != 0 {
      Char16Creatable(c);
      Utf.Utf16RoundTrip(c);
    }
  }

  lemma IntRoundTrip(k: ValueType, i: int)
    requires IsIntKind(k) && InRange(IntTypeOf(k), i)
    ensures ValueFromObject(k, CreatePyObject(VInt(IntTypeOf(k), i)).value) == Ok(VInt(IntTypeOf(k), i))
  {
  }

  /** An attribute whose name no earlier attribute has is the one the lookup finds. */
  lemma {:induction false} GetAttrFindsFirst(attrs: seq<Attr>, i: nat)
    requires i < |attrs| && forall j :: 0 <= j < i ==> attrs[j].name != attrs[i].name
    ensures GetAttr(attrs, attrs[i].name) == Some(attrs[i].value)
  {
    if i > 0 {
      assert attrs[1..][i - 1] == attrs[i];
      GetAttrFindsFirst(attrs[1..], i - 1);
    }
  }

  /** Each component is found under its own axis name. */
  lemma VectorLookup(c: seq<FloatBits>, i: nat)
    requires |c| <= 4 && i < |c|
    ensures GetAttr(VectorAttrs(c), AxisNames[i]) == Some(MakeFloat(c[i]))
  {
    var attrs := VectorAttrs(c);
    assert forall j :: 0 <= j < i ==> AxisNames[j] != AxisNames[i];
    GetAttrFindsFirst(attrs, i);
  }

  lemma VectorRoundTrip(k: ValueType, c: seq<FloatBits>)
    requires k in {ValueType.Vector2, ValueType.Vector3, ValueType.Vector4} && |c| == VectorSize(k)
    ensures VectorFromObject(k, VectorObject(c)) == Ok(VVector(c))
  {
    var o := VectorObject(c);
    var names := ComponentNames(k);
    assert o.body.attrs == VectorAttrs(c);
    assert names == AxisNames[..|c|];
    forall i | 0 <= i < |names|
      ensures GetAttr(o.body.attrs, names[i]) == Some(MakeFloat(c[i]))
    {
      VectorLookup(c, i);
    }
    var r := ReadComponents(o, o.body.attrs, names);
    assert r.value == c;
    assert o.body.InstanceBody? && o.body.cls == VectorClass(k);
  }

  lemma MatrixRoundTrip(d: seq<FloatBits>)
    requires |d| == 16
    ensures Matrix4x4FromObject(MatrixObject(d)) == Ok(VMatrix(d))
  {
    var rows := MatrixRows(MatrixElements(d).body.items);
    forall i, j | 0 <= i < 4 && 0 <= j < 4
      ensures rows[i].body.items[j] == MakeFloat(d[i * 4 + j])
    {
    }
    var r := ReadRows(rows);
    assert r.Ok?;
    forall n | 0 <= n < 16
      ensures r.value[n] == d[n]
    {
      var i, j := n / 4, n % 4;
      assert n == i * 4 + j;
      assert RowAt(rows, r.value, i);
      assert rows[i].body.items[j].body == FloatBody(r.value[i * 4 + j]);
    }
    assert r.value == d;
  }

  /**
   * Every value of an element kind other than `any` that `CreatePyObject`
   * accepts converts back to itself with `ValueFromObject`: the two
   * directions of the marshaller are inverse on what they both accept.
   */
  lemma ValueRoundTrip(k: ValueType, v: NativeValue)
    requires IsElementKind(k) && k != Any && OfKind(v, k) && CreatePyObject(v).Ok?
    ensures ValueFromObject(k, CreatePyObject(v).value) == Ok(v)
  {
    match k
    case Char8 => Char8Creatable(v.c8); Char8RoundTrip(v.c8);
    case Char16 => Char16Creatable(v.c16); Char16RoundTrip(v.c16);
    case Vector2 => VectorRoundTrip(k, v.comps);
    case Vector3 => VectorRoundTrip(k, v.comps);
    case Vector4 => VectorRoundTrip(k, v.comps);
    case Matrix4x4 => MatrixRoundTrip(v.data);
    case String =>
    case Int8 | Int16 | Int32 | Int64 | UInt8 | UInt16 | UInt32 | UInt64 => IntRoundTrip(k, v.i);
    case _ =>
  }

  /** The same for arrays: a list built by `CreatePyObjectList` converts back element by element. */
  lemma {:induction false} ArrayRoundTrip(e: ValueType, v: NativeValue)
    requires IsElementKind(e) && e != Any && OfKind(v, ArrayOf(e)) && CreatePyObject(v).Ok?
    ensures ArrayFromObject(e, CreatePyObject(v).value) == Ok(v)
  {
    var o := CreatePyObject(v).value;
    var items := v.items;
    forall i | 0 <= i < |items|
      ensures ValueFromObject(e, o.body.items[i]) == Ok(items[i])
    {
      ValueRoundTrip(e, items[i]);
    }
    var conv := ElementsOf(e, o);
    MapPrefixElements(conv, o.body.items, |o.body.items|);
    var r := MapPrefix(conv, o.body.items, |o.body.items|);
    assert r.value == items;
  }

  lemma VectorObjectTag(k: ValueType, c: seq<FloatBits>)
    requires k in {ValueType.Vector2, ValueType.Vector3, ValueType.Vector4} && |c| == VectorSize(k)
    ensures VectorObject(c).tag == VectorTag(k)
  {
    assert VectorObject(c) == VectorConstructed(VectorArgs(c));
  }

  /**
   * A vector object converts back to its vector through `any` with the
   * vector classes as the type map's keys, and is refused as unsupported
   * under the map as written.
   */
  lemma VectorThroughAny(k: ValueType, c: seq<FloatBits>)
    requires k in {ValueType.Vector2, ValueType.Vector3, ValueType.Vector4} && |c| == VectorSize(k)
    ensures VectorObject(c).tag == VectorTag(k)
    ensures AnyFromObject(VectorObject(c)) == Ok(VVector(c))
    ensures AnyFromObjectAsWritten(VectorObject(c)) == Err(Unsupported(VectorObject(c)))
  {
    var o := VectorObject(c);
    VectorObjectTag(k, c);
    VectorRoundTrip(k, c);
    AnyVectorIsVectorRead(k, o);
    AggregateRefusedAsWritten(o);
  }

  /** The list `CreatePyObject` builds for an array of vectors: every item carries the vector class's tag. */
  lemma VectorListTags(k: ValueType, v: NativeValue)
    requires k in {ValueType.Vector2, ValueType.Vector3, ValueType.Vector4} && OfKind(v, ArrayOf(k))
    ensures CreatePyObject(v).Ok?
    ensures var o := CreatePyObject(v).value;
      o.tag == List && PyListCheck(o) && |o.body.items| == |v.items| &&
      forall i :: 0 <= i < |o.body.items| ==> o.body.items[i].tag == VectorTag(k)
  {
    var items := v.items;
    forall i | 0 <= i < |items|
      ensures CreatePyObject(items[i]) == Ok(VectorObject(items[i].comps))
      ensures VectorObject(items[i].comps).tag == VectorTag(k)
    {
      VectorObjectTag(k, items[i].comps);
    }
  }

  /**
   * The same for a non-empty array of vectors: the list `CreatePyObject`
   * builds converts back through `any` to the array, and under the map as
   * written it is the list TypeError.
   */
  lemma VectorArrayThroughAny(k: ValueType, v: NativeValue)
    requires k in {ValueType.Vector2, ValueType.Vector3, ValueType.Vector4}
    requires OfKind(v, ArrayOf(k)) && |v.items| > 0
    ensures CreatePyObject(v).Ok?
    ensures AnyFromObject(CreatePyObject(v).value) == Ok(v)
    ensures AnyFromObjectAsWritten(CreatePyObject(v).value) ==
      Err(ListTypeError(CreatePyObject(v).value.body.items))
  {
    VectorListTags(k, v);
    var o := CreatePyObject(v).value;
    var t := VectorTag(k);
    assert o.body.items[0].tag == t;
    assert AllTagged(o.body.items, t);
    HomogeneousListIsArray(o, t);
    ArrayRoundTrip(k, v);
    AnyListBranch(o);
    assert AggregateList(o);
    AggregateListRefusedAsWritten(o);
  }

  /** A Python string whose bytes are well-formed UTF-8 survives the trip to a native string and back. */
  lemma StringRoundTrip(o: PyObj)
    requires o.tag == Unicode && o.typeName == "Unicode" && PyUnicodeCheck(o)
    requires Utf.DecodeStrict(o.body.utf8) == Some(o.body.length)
    ensures CreatePyObject(StringFromObject(o).value) == Ok(o)
  {
  }
}
