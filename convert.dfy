/**
 * Python object to native value: the `ValueFromObject<T>` specialisations,
 * `ValueFromNumberObject`, the aggregate readers (`Vector2ValueFromObject`
 * ... `Matrix4x4ValueFromObject`) and `ArrayFromObject<T>`, as total
 * functions from an object to a value or the error the source raises.
 */
module Convert {
  import opened Python
  import opened Ranges
  import opened Kinds
  import Utf

  // ---- The C-API type checks, on the object model ----

  predicate PyLongCheck(o: PyObj) { o.body.IntBody? }
  predicate PyBoolCheck(o: PyObj) { o.tag == PyType.Bool && o.body.IntBody? }
  predicate PyFloatCheck(o: PyObj) { o.body.FloatBody? }
  predicate PyUnicodeCheck(o: PyObj) { o.body.StrBody? }
  predicate PyListCheck(o: PyObj) { o.body.ListBody? }

  /** The byte at offset 0 of a NUL-terminated UTF-8 view: the terminator when the view is empty. */
  function FirstByte(b: seq<bv8>): bv8
  {
    if |b| == 0 then 0 else b[0]
  }

  /** `ValueFromObject<bool>`: only a bool is accepted, and its truth is kept. */
  function BoolFromObject(o: PyObj): (r: Result<NativeValue>)
    ensures r.Ok? <==> PyBoolCheck(o)
    ensures r.Ok? ==> r.value == VBool(o.body.value != 0)
    ensures r.Err? ==> r.error == TypeErrorFor("Expected boolean", o)
  {
    if PyBoolCheck(o) then Ok(VBool(o.body.value != 0))
    else Err(TypeErrorFor("Expected boolean", o))
  }

  /**
   * `ValueFromObject<char>`: an empty string gives NUL, a one-character string
   * gives its byte when that is ASCII; anything else is an error.
   */
  function CharFromObject(o: PyObj): (r: Result<NativeValue>)
    ensures r.Ok? <==> (PyUnicodeCheck(o) &&
      (o.body.length == 0 || (o.body.length == 1 && FirstByte(o.body.utf8) < 0x80)))
    ensures r.Ok? ==> r.value.VChar8? && r.value.c8 < 0x80
    ensures r.Ok? ==> r.value.c8 == (if o.body.length == 0 then 0 else FirstByte(o.body.utf8))
    ensures !PyUnicodeCheck(o) ==> r == Err(TypeErrorFor("Expected string", o))
    ensures PyUnicodeCheck(o) && o.body.length > 1 ==> r == Err(PyError(ValueError, "Length bigger than 1"))
    ensures PyUnicodeCheck(o) && o.body.length == 1 && FirstByte(o.body.utf8) >= 0x80 ==>
      r == Err(PyError(ValueError, "Multibyte character"))
  {
    if !PyUnicodeCheck(o) then Err(TypeErrorFor("Expected string", o))
    else if o.body.length == 0 then Ok(VChar8(0))
    else if o.body.length == 1 then
      var ch := FirstByte(o.body.utf8);
      if ch & 0x80 == 0 then Ok(VChar8(ch))
      else Err(PyError(ValueError, "Multibyte character"))
    else Err(PyError(ValueError, "Length bigger than 1"))
  }

  /**
   * `ValueFromObject<char16_t>`: a one-character string is decoded with
   * `ConvertUtf8ToUtf16`, and each failure class of the decoder has its own
   * error, stated here by the bytes that cause it.
   */
  function Char16FromObject(o: PyObj): (r: Result<NativeValue>)
    ensures r.Ok? ==> r.value.VChar16?
    ensures !PyUnicodeCheck(o) ==> r == Err(TypeErrorFor("Expected string", o))
    ensures PyUnicodeCheck(o) && o.body.length == 0 ==> r == Ok(VChar16(0))
    ensures PyUnicodeCheck(o) && o.body.length > 1 ==> r == Err(PyError(ValueError, "Length bigger than 1"))
    ensures PyUnicodeCheck(o) && o.body.length == 1 ==>
      var s := o.body.utf8;
      (r.Ok? <==> Utf.ConvertUtf8ToUtf16(s).rc >= 0) &&
      (r.Ok? ==> r.value.c16 == Utf.ConvertUtf8ToUtf16(s).ch) &&
      (r == Err(PyError(ValueError, "Surrogate pair")) <==> |s| > 0 && 0xF0 <= s[0] < 0xF8) &&
      (r == Err(PyError(ValueError, "Invalid multibyte character")) <==>
        |s| == 0 || (0xE0 <= s[0] < 0xF0 && !Utf.Is3ByteForm(s)) || (0xC0 <= s[0] < 0xE0 && !Utf.Is2ByteForm(s))) &&
      (r == Err(PyError(RuntimeError, "Encoding error")) <==>
        |s| > 0 && ((0x80 <= s[0] < 0xC0) || 0xF8 <= s[0] ||
          (Utf.Is3ByteForm(s) && Utf.IsSurrogate(Utf.Value3(s[0], s[1], s[2])))))
  {
    if !PyUnicodeCheck(o) then Err(TypeErrorFor("Expected string", o))
    else if o.body.length == 0 then Ok(VChar16(0))
    else if o.body.length == 1 then
      var d := Utf.ConvertUtf8ToUtf16(o.body.utf8);
      if 0 <= d.rc <= 3 then Ok(VChar16(d.ch))
      else if d.rc == -3 then Err(PyError(ValueError, "Surrogate pair"))
      else if d.rc == -2 then Err(PyError(ValueError, "Invalid multibyte character"))
      else Err(PyError(RuntimeError, "Encoding error"))
    else Err(PyError(ValueError, "Length bigger than 1"))
  }

  /**
   * `PyLong_AsLong`, `PyLong_AsLongLong`, `PyLong_AsUnsignedLong` and
   * `PyLong_AsUnsignedLongLong` on an int: the value when the C type `via`
   * holds it, otherwise CPython's OverflowError.
   */
  function PyLongAs(via: IntType, v: int): (r: Result<int>)
    ensures r.Ok? <==> InRange(via, v)
    ensures r.Ok? ==> r.value == v
    ensures r.Err? ==> r.error.kind == OverflowError
  {
    if InRange(via, v) then Ok(v)
    else if !via.signed && v < 0 then Err(PyError(OverflowError, "can't convert negative int to unsigned"))
    else Err(PyError(OverflowError, "Python int too large to convert to C integer"))
  }

  /** The accessor `ValueFromObject<T>` uses for each integer kind (LP64: `long` is 64 bits). */
  function Via(k: ValueType): (t: IntType)
    requires IsIntKind(k)
    ensures Contains(t, IntTypeOf(k))
  {
    match k
    case Int8 | Int16 | Int32 => CLong
    case Int64 => CLongLong
    case UInt8 | UInt16 | UInt32 => CULong
    case UInt64 => CULongLong
  }

  /**
   * What `ValueFromNumberObject` does with a Python int v: read it as the C
   * type `via`, then narrow to `target` with `IsInRange`. The value is kept
   * unchanged or refused with an OverflowError; it is never truncated.
   */
  function NarrowPyLong(target: IntType, via: IntType, v: int): (r: Result<NativeValue>)
    requires Contains(via, target)
    ensures r.Ok? <==> InRange(target, v)
    ensures r.Ok? ==> r.value == VInt(target, v)
    ensures r.Err? ==> r.error.kind == OverflowError
  {
    ContainsIsWider(via, target);
    match PyLongAs(via, v)
    case Err(e) => Err(e)
    case Ok(c) =>
      if IsInRange(via, target, c) then Ok(VInt(target, Cast(target, c)))
      else Err(PyError(OverflowError, ""))
  }

  /**
   * `ValueFromNumberObject<T, CType, ConvertFunc>`, with the enumeration
   * branch testing for members of Python's `enum.Enum` (see the as-written
   * form below): an int, or an enumeration member whose value is an int, is
   * narrowed; a member with another value fails without an exception.
   */
  function ValueFromNumberObject(target: IntType, via: IntType, o: PyObj): (r: Result<NativeValue>)
    requires Contains(via, target)
    ensures PyLongCheck(o) ==> r == NarrowPyLong(target, via, o.body.value)
    ensures o.body.EnumMemberBody? && PyLongCheck(o.body.enumValue) ==>
      r == NarrowPyLong(target, via, o.body.enumValue.body.value)
    ensures r.Ok? ==> r.value.VInt? && r.value.ty == target && InRange(target, r.value.i)
    ensures !PyLongCheck(o) && !o.body.EnumMemberBody? ==> r == Err(TypeErrorFor("Expected integer", o))
  {
    match o.body
    case IntBody(v) => NarrowPyLong(target, via, v)
    case EnumMemberBody(m) =>
      if PyLongCheck(m) then NarrowPyLong(target, via, m.body.value)
      else Err(PyError(NoException, ""))
    case _ => Err(TypeErrorFor("Expected integer", o))
  }

  /**
   * `ValueFromNumberObject` as written: its second branch tests
   * `PyObject_TypeCheck(object, &PyEnum_Type)`, and `PyEnum_Type` is the type
   * of `enumerate` objects, not `enum.Enum`.
   */
  function ValueFromNumberObjectAsWritten(target: IntType, via: IntType, o: PyObj): (r: Result<NativeValue>)
    requires Contains(via, target)
    ensures PyLongCheck(o) ==> r == NarrowPyLong(target, via, o.body.value)
    ensures o.body.EnumMemberBody? ==> r == Err(TypeErrorFor("Expected integer", o))
    ensures o.body.EnumerateBody? && o.body.valueAttr.NoValue? ==>
      r == Err(TypeErrorFor("Expected enum with 'value' attribute", o))
  {
    match o.body
    case IntBody(v) => NarrowPyLong(target, via, v)
    case EnumerateBody(attr) =>
      (match attr
       case NoValue => Err(TypeErrorFor("Expected enum with 'value' attribute", o))
       case Some(m) =>
         if PyLongCheck(m) then NarrowPyLong(target, via, m.body.value)
         else Err(PyError(NoException, "")))
    case _ => Err(TypeErrorFor("Expected integer", o))
  }

  /**
   * As written, a plain `enum.Enum` member with an int value is refused as
   * "Expected integer", where the enumeration branch evidently meant to accept it.
   */
  lemma EnumMemberRefusedAsWritten()
    ensures var m := PyObj(Other(0), "Color", EnumMemberBody(MakeInt(3)));
      ValueFromNumberObjectAsWritten(I32, CLong, m) == Err(TypeErrorFor("Expected integer", m)) &&
      ValueFromNumberObject(I32, CLong, m) == Ok(VInt(I32, 3))
  {
  }

  /**
   * `ValueFromObject<void*>`: an int that `PyLong_AsVoidPtr` accepts (from
   * -2^63 to 2^64-1, negatives wrapping) becomes an address; everything else,
   * including an int out of that range, is "Expected integer".
   */
  function PointerFromObject(o: PyObj): (r: Result<NativeValue>)
    ensures r.Ok? <==> PyLongCheck(o) && Min(I64) <= o.body.value <= Max(U64)
    ensures r.Ok? ==> (r.value.VPointer? && r.value.addr < PointerLimit &&
      (r.value.addr - o.body.value) % PointerLimit == 0)
    ensures PyLongCheck(o) && 0 <= o.body.value < PointerLimit ==> r == Ok(VPointer(o.body.value))
    ensures r.Err? ==> r.error == TypeErrorFor("Expected integer", o)
  {
    match o.body
    case IntBody(v) =>
      if Min(I64) <= v <= Max(U64) then Ok(VPointer(Cast(U64, v)))
      else Err(TypeErrorFor("Expected integer", o))
    case _ => Err(TypeErrorFor("Expected integer", o))
  }

  /** `ValueFromFloatObject<float>` and `<double>`: only a Python float is accepted. */
  function FloatFromObject(k: ValueType, o: PyObj): (r: Result<NativeValue>)
    requires k == ValueType.Float || k == Double
    ensures r.Ok? <==> PyFloatCheck(o)
    ensures r.Ok? ==> OfKind(r.value, k) && r.value == (if k == ValueType.Float then VFloat(o.body.f) else VDouble(o.body.f))
    ensures r.Err? ==> r.error == TypeErrorFor("Expected float", o)
  {
    match o.body
    case FloatBody(f) => if k == ValueType.Float then Ok(VFloat(f)) else Ok(VDouble(f))
    case _ => Err(TypeErrorFor("Expected float", o))
  }

  /** `ValueFromObject<plg::string>`: a string's UTF-8 bytes. */
  function StringFromObject(o: PyObj): (r: Result<NativeValue>)
    ensures r.Ok? <==> PyUnicodeCheck(o)
    ensures r.Ok? ==> r.value == VString(o.body.utf8)
    ensures r.Err? ==> r.error == TypeErrorFor("Expected string", o)
  {
    match o.body
    case StrBody(_, utf8) => Ok(VString(utf8))
    case _ => Err(TypeErrorFor("Expected string", o))
  }

  /**
   * A str with no UTF-8 encoding, such as a lone surrogate, has an empty
   * view: it converts to the empty native string, and as a `char16_t` it is
   * the decoder's error for an empty input.
   */
  lemma UnencodableString(n: nat)
    requires n > 0
    ensures StringFromObject(MakeStr(n, [])) == Ok(VString([]))
    ensures n == 1 ==> Char16FromObject(MakeStr(n, [])) == Err(PyError(ValueError, "Invalid multibyte character"))
  {
  }

  // ---- Aggregates ----

  function VectorClass(k: ValueType): Aggregate
    requires k in {ValueType.Vector2, ValueType.Vector3, ValueType.Vector4}
  {
    match k
    case Vector2 => Vec2Class
    case Vector3 => Vec3Class
    case Vector4 => Vec4Class
  }

  /** The TypeError message for an object that is not an instance of the vector class. */
  function ExpectedVector(k: ValueType): string
    requires k in {ValueType.Vector2, ValueType.Vector3, ValueType.Vector4}
  {
    match k
    case Vector2 => "Expected Vector2"
    case Vector3 => "Expected Vector3"
    case Vector4 => "Expected Vector4"
  }

  /** The attributes each vector class is read through, in the order they are read. */
  function ComponentNames(k: ValueType): (names: seq<string>)
    requires k in {ValueType.Vector2, ValueType.Vector3, ValueType.Vector4}
    ensures |names| == VectorSize(k)
  {
    match k
    case Vector2 => ["x", "y"]
    case Vector3 => ["x", "y", "z"]
    case Vector4 => ["x", "y", "z", "w"]
  }

  /** The object's attribute holds a Python float with these bits. */
  predicate AttrIsFloat(attrs: seq<Attr>, name: string, f: FloatBits)
  {
    var a := GetAttr(attrs, name);
    a.Some? && a.value.body == FloatBody(f)
  }

  /**
   * `GetObjectAttrAsValue<float>` for each name in turn, stopping at the first
   * missing attribute (AttributeError) or non-float (TypeError).
   */
  function ReadComponents(o: PyObj, attrs: seq<Attr>, names: seq<string>): (r: Result<seq<FloatBits>>)
    ensures r.Ok? <==> forall i :: 0 <= i < |names| ==>
      GetAttr(attrs, names[i]).Some? && PyFloatCheck(GetAttr(attrs, names[i]).value)
    ensures r.Ok? ==> (|r.value| == |names| &&
      forall i :: 0 <= i < |names| ==> AttrIsFloat(attrs, names[i], r.value[i]))
    decreases |names|
  {
    if |names| == 0 then Ok([])
    else
      match GetAttr(attrs, names[0])
      case NoValue => Err(MissingAttr(o, names[0]))
      case Some(a) =>
        match FloatFromObject(ValueType.Float, a)
        case Err(e) => Err(e)
        case Ok(v) =>
          match ReadComponents(o, attrs, names[1..])
          case Err(e) => Err(e)
          case Ok(rest) =>
            assert forall i :: 1 <= i < |names| ==> names[i] == names[1..][i - 1];
            Ok([v.f] + rest)
  }

  /**
   * `Vector2ValueFromObject` ... `Vector4ValueFromObject`: an instance of the
   * vector class whose components are all floats gives those components.
   */
  function VectorFromObject(k: ValueType, o: PyObj): (r: Result<NativeValue>)
    requires k in {ValueType.Vector2, ValueType.Vector3, ValueType.Vector4}
    ensures r.Ok? ==> OfKind(r.value, k)
  {
    if !(o.body.InstanceBody? && o.body.cls == VectorClass(k)) then Err(TypeErrorFor(ExpectedVector(k), o))
    else
      match ReadComponents(o, o.body.attrs, ComponentNames(k))
      case Err(e) => Err(e)
      case Ok(c) => Ok(VVector(c))
  }

  /** A vector read succeeds only on an instance of its class, and gives the float bits of its attributes in order. */
  lemma VectorComponents(k: ValueType, o: PyObj)
    requires k in {ValueType.Vector2, ValueType.Vector3, ValueType.Vector4}
    ensures !(o.body.InstanceBody? && o.body.cls == VectorClass(k)) ==>
      VectorFromObject(k, o) == Err(TypeErrorFor(ExpectedVector(k), o))
    ensures var r := VectorFromObject(k, o);
      r.Ok? ==> (o.body.InstanceBody? && o.body.cls == VectorClass(k) && r.value.VVector? &&
        |r.value.comps| == VectorSize(k) &&
        forall i :: 0 <= i < VectorSize(k) ==> AttrIsFloat(o.body.attrs, ComponentNames(k)[i], r.value.comps[i]))
  {
  }

  /** An exact list of four elements, the shape every level of a matrix's `m` must have. */
  predicate IsQuad(o: PyObj)
  {
    o.body.ListBody? && o.body.exact && |o.body.items| == 4
  }

  const MatrixShapeError: PyError := PyError(ValueError, "Elements must be a 4x4 list")

  /** The float conversion of a row's elements in order, stopping at the first non-float. */
  function ReadFloats(items: seq<PyObj>): (r: Result<seq<FloatBits>>)
    ensures r.Ok? <==> forall j :: 0 <= j < |items| ==> PyFloatCheck(items[j])
    ensures r.Ok? ==> |r.value| == |items| && forall j :: 0 <= j < |items| ==> items[j].body == FloatBody(r.value[j])
    decreases |items|
  {
    if |items| == 0 then Ok([])
    else
      match FloatFromObject(ValueType.Float, items[0])
      case Err(e) => Err(e)
      case Ok(v) =>
        match ReadFloats(items[1..])
        case Err(e) => Err(e)
        case Ok(rest) =>
          assert forall j :: 1 <= j < |items| ==> items[j] == items[1..][j - 1];
          Ok([v.f] + rest)
  }

  /** Row i of a matrix's `m` is an exact list of four floats, stored at `data[i*4] .. data[i*4+3]`. */
  predicate RowAt(rows: seq<PyObj>, data: seq<FloatBits>, i: nat)
    requires i < |rows| && |data| == 4 * |rows|
  {
    IsQuad(rows[i]) && forall j :: 0 <= j < 4 ==> rows[i].body.items[j].body == FloatBody(data[i * 4 + j])
  }

  /**
   * The row loop of `Matrix4x4ValueFromObject`: each row is checked for shape,
   * then its elements read, and element j of row i lands at `data[i*4+j]`.
   */
  function ReadRows(rows: seq<PyObj>): (r: Result<seq<FloatBits>>)
    ensures r.Ok? <==> forall i :: 0 <= i < |rows| ==> (IsQuad(rows[i]) &&
      forall j :: 0 <= j < 4 ==> PyFloatCheck(rows[i].body.items[j]))
    ensures r.Ok? ==> |r.value| == 4 * |rows| && forall i :: 0 <= i < |rows| ==> RowAt(rows, r.value, i)
    decreases |rows|
  {
    if |rows| == 0 then Ok([])
    else if !IsQuad(rows[0]) then Err(MatrixShapeError)
    else
      match ReadFloats(rows[0].body.items)
      case Err(e) => Err(e)
      case Ok(row) =>
        match ReadRows(rows[1..])
        case Err(e) =>
          assert forall i :: 1 <= i < |rows| ==> rows[i] == rows[1..][i - 1];
          Err(e)
        case Ok(rest) =>
          RowsFlatten(rows, row, rest);
          Ok(row + rest)
  }

  lemma RowsFlatten(rows: seq<PyObj>, row: seq<FloatBits>, rest: seq<FloatBits>)
    requires |rows| > 0 && |row| == 4 && IsQuad(rows[0])
    requires forall j :: 0 <= j < 4 ==> rows[0].body.items[j].body == FloatBody(row[j])
    requires |rest| == 4 * (|rows| - 1)
    requires forall i :: 0 <= i < |rows| - 1 ==> RowAt(rows[1..], rest, i)
    ensures forall i :: 0 <= i < |rows| ==> RowAt(rows, row + rest, i)
  {
    forall i | 0 <= i < |rows|
      ensures RowAt(rows, row + rest, i)
    {
      if i > 0 {
        assert RowAt(rows[1..], rest, i - 1);
        assert rows[i] == rows[1..][i - 1];
        forall j | 0 <= j < 4
          ensures rows[i].body.items[j].body == FloatBody((row + rest)[i * 4 + j])
        {
          assert (row + rest)[i * 4 + j] == rest[(i - 1) * 4 + j];
        }
      }
    }
  }

  /**
   * `Matrix4x4ValueFromObject`: an instance of the matrix class whose `m` is a
   * 4x4 list of floats gives the 16 floats row by row.
   */
  function Matrix4x4FromObject(o: PyObj): (r: Result<NativeValue>)
    ensures r.Ok? ==> OfKind(r.value, ValueType.Matrix4x4)
  {
    match o.body
    case InstanceBody(cls, attrs) =>
      if cls != Mat4x4Class then Err(TypeErrorFor("Expected Matrix4x4", o))
      else
        (match GetAttr(attrs, "m")
         case NoValue => Err(MissingAttr(o, "m"))
         case Some(m) =>
           if !IsQuad(m) then Err(MatrixShapeError)
           else
             match ReadRows(m.body.items)
             case Err(e) => Err(e)
             case Ok(data) => Ok(VMatrix(data)))
    case _ => Err(TypeErrorFor("Expected Matrix4x4", o))
  }

  /** A matrix read succeeds only on an instance whose `m` is a 4x4 list of floats, giving them row by row. */
  lemma MatrixFromObjectRows(o: PyObj)
    ensures !(o.body.InstanceBody? && o.body.cls == Mat4x4Class) ==>
      Matrix4x4FromObject(o) == Err(TypeErrorFor("Expected Matrix4x4", o))
    ensures (o.body.InstanceBody? && o.body.cls == Mat4x4Class && GetAttr(o.body.attrs, "m").Some? &&
      !IsQuad(GetAttr(o.body.attrs, "m").value)) ==> Matrix4x4FromObject(o) == Err(MatrixShapeError)
    ensures var r := Matrix4x4FromObject(o);
      r.Ok? ==> (o.body.InstanceBody? && o.body.cls == Mat4x4Class && r.value.VMatrix? &&
        var m := GetAttr(o.body.attrs, "m");
        m.Some? && IsQuad(m.value) &&
        forall i :: 0 <= i < 4 ==> RowAt(m.value.body.items, r.value.data, i))
  {
  }

  // ---- plg::any, arrays, and the dispatch over kinds ----

  /** `ValueFromObject<plg::any>` for an int, with CPython's overflow honoured. */
  function AnyLong(v: int): (r: Result<NativeValue>)
    ensures r.Ok? <==> InRange(I64, v)
    ensures r.Ok? ==> r.value == VInt(I64, v)
    ensures r.Err? ==> r.error.kind == OverflowError
  {
    match PyLongAs(CLongLong, v)
    case Err(e) => Err(e)
    case Ok(c) => Ok(VInt(I64, c))
  }

  /**
   * `ValueFromObject<plg::any>` for an int as written: the result of
   * `PyLong_AsLongLong` is used without checking for its error, so an int
   * outside int64 is stored as -1 and reported as a success.
   */
  function AnyLongAsWritten(v: int): (r: Result<NativeValue>)
    ensures r.Ok? && r.value.VInt? && r.value.ty == I64
    ensures InRange(I64, v) ==> r.value.i == v
    ensures !InRange(I64, v) ==> r.value.i == -1
  {
    var c := PyLongAs(CLongLong, v);
    Ok(VInt(I64, if c.Ok? then c.value else -1))
  }

  /** 2^63 passed as an `any` arrives as -1, without an error. */
  lemma AnyLongAsWrittenLosesValue()
    ensures AnyLongAsWritten(0x8000_0000_0000_0000) == Ok(VInt(I64, -1))
    ensures AnyLong(0x8000_0000_0000_0000).Err?
  {
  }

  /** The array kind a homogeneous list becomes, by its one element tag. */
  function ArrayElemFor(t: PyType): (e: Option<ValueType>)
    ensures e.Some? ==> IsElementKind(e.value) && e.value != Any && t != PyType.Invalid
    ensures e.Some? <==> (t == PyType.Long || t == PyType.Bool || t == PyType.Float || t == PyType.Unicode ||
      AggregateTag(t))
  {
    match t
    case Long => Some(Int64)
    case Bool => Some(ValueType.Bool)
    case Float => Some(Double)
    case Unicode => Some(String)
    case Vector2 => Some(ValueType.Vector2)
    case Vector3 => Some(ValueType.Vector3)
    case Vector4 => Some(ValueType.Vector4)
    case Matrix4x4 => Some(ValueType.Matrix4x4)
    case _ => NoValue
  }

  /** The tag of the first element the type map knows. */
  function FirstTag(items: seq<PyObj>): (t: Option<PyType>)
    ensures t.Some? <==> exists i :: 0 <= i < |items| && items[i].tag != PyType.Invalid
    ensures t.Some? ==> t.value != PyType.Invalid
    ensures t.Some? ==> exists i :: (0 <= i < |items| && items[i].tag == t.value &&
      forall j :: 0 <= j < i ==> items[j].tag == PyType.Invalid)
  {
    if |items| == 0 then NoValue
    else if items[0].tag != PyType.Invalid then Some(items[0].tag)
    else
      var t := FirstTag(items[1..]);
      assert forall i :: 1 <= i < |items| ==> items[i] == items[1..][i - 1];
      t
  }

  /** Every element the type map knows has tag t. */
  predicate AllTagged(items: seq<PyObj>, t: PyType)
  {
    forall i :: 0 <= i < |items| ==> items[i].tag == PyType.Invalid || items[i].tag == t
  }

  /** The type names of the elements, in order. */
  function TypeNames(items: seq<PyObj>): (names: seq<string>)
    ensures |names| == |items| && forall i :: 0 <= i < |items| ==> names[i] == items[i].typeName
  {
    seq(|items|, i requires 0 <= i < |items| => items[i].typeName)
  }

  /** names[0] + sep + names[1] + ... + sep + names[n-1]. */
  function Join(names: seq<string>, sep: string): string
  {
    if |names| == 0 then ""
    else if |names| == 1 then names[0]
    else Join(names[..|names| - 1], sep) + sep + names[|names| - 1]
  }

  const ListPrefix := "List should contains supported types, but contains: ["

  /** The TypeError for a list that cannot be an array: every element's type name, quoted, in order. */
  function ListTypeError(items: seq<PyObj>): (err: PyError)
    ensures err.kind == TypeError
    ensures |items| == 1 ==> err.msg == ListPrefix + "'" + items[0].typeName + "']"
    ensures |err.msg| >= |ListPrefix| + 2 && err.msg[..|ListPrefix|] == ListPrefix && err.msg[|err.msg| - 2..] == "']"
  {
    PyError(TypeError, ListPrefix + "'" + Join(TypeNames(items), "', '") + "'" + "]")
  }

  /** The default branch of `ValueFromObject<plg::any>`. */
  function Unsupported(o: PyObj): PyError
  {
    PyError(TypeError, "Any argument not supports python type: " + o.typeName + " for marshalling.")
  }

  /**
   * `ValueFromObject<T>` for every kind that has one, dispatched on the kind.
   * A successful conversion always yields a well-formed value of that kind.
   */
  function ValueFromObject(k: ValueType, o: PyObj): (r: Result<NativeValue>)
    requires IsElementKind(k)
    ensures r.Ok? ==> OfKind(r.value, k)
    decreases o, 4
  {
    match k
    case Bool => BoolFromObject(o)
    case Char8 => CharFromObject(o)
    case Char16 => Char16FromObject(o)
    case Pointer => PointerFromObject(o)
    case Float | Double => FloatFromObject(k, o)
    case String => StringFromObject(o)
    case Any => AnyFromObject(o)
    case Vector2 | Vector3 | Vector4 => VectorFromObject(k, o)
    case Matrix4x4 => Matrix4x4FromObject(o)
    case Int8 | Int16 | Int32 | Int64 | UInt8 | UInt16 | UInt32 | UInt64 =>
      ValueFromNumberObject(IntTypeOf(k), Via(k), o)
  }

  /**
   * `ValueFromObject<plg::any>`, switched on the object's tag: ints become
   * int64, bools bool, floats double, strings string, lists a homogeneous
   * array, vectors a vector; every other tag is refused.
   */
  function AnyFromObject(o: PyObj): (r: Result<NativeValue>)
    ensures r.Ok? ==> AnyValue(r.value)
    decreases o, 3
  {
    match o.tag
    case Long => (match o.body case IntBody(v) => AnyLong(v) case _ => Err(Unsupported(o)))
    case Bool => (match o.body case IntBody(v) => Ok(VBool(v != 0)) case _ => Err(Unsupported(o)))
    case Float => (match o.body case FloatBody(f) => Ok(VDouble(f)) case _ => Err(Unsupported(o)))
    case Unicode => (match o.body case StrBody(_, utf8) => Ok(VString(utf8)) case _ => Err(Unsupported(o)))
    case List => (match o.body case ListBody(_, _) => AnyList(o) case _ => Err(Unsupported(o)))
    case Vector2 => VectorFromObject(ValueType.Vector2, o)
    case Vector3 => VectorFromObject(ValueType.Vector3, o)
    case Vector4 => VectorFromObject(ValueType.Vector4, o)
    case _ => Err(Unsupported(o))
  }

  /**
   * The `List` branch of `ValueFromObject<plg::any>`: an empty list is an
   * empty int64 array; a list whose known tags are all one supported tag is
   * converted as that array kind; anything else is the list TypeError.
   */
  function AnyList(o: PyObj): (r: Result<NativeValue>)
    requires PyListCheck(o)
    ensures r.Ok? ==> AnyValue(r.value)
    ensures |o.body.items| == 0 ==> r == Ok(VArray(Int64, []))
    decreases o, 2
  {
    var items := o.body.items;
    if |items| == 0 then Ok(VArray(Int64, []))
    else
      var t := FirstTag(items);
      if t.Some? && AllTagged(items, t.value) && ArrayElemFor(t.value).Some? then
        ArrayFromObject(ArrayElemFor(t.value).value, o)
      else Err(ListTypeError(items))
  }

  /**
   * `ArrayFromObject<T>`: a list converts element by element into an array of
   * the same length, or fails with the first failing element's error.
   */
  function ArrayFromObject(e: ValueType, o: PyObj): (r: Result<NativeValue>)
    requires IsElementKind(e)
    ensures r.Ok? ==> OfKind(r.value, ArrayOf(e))
    decreases o, 1
  {
    if !PyListCheck(o) then Err(TypeErrorFor("Expected list", o))
    else
      var conv := ElementsOf(e, o);
      MapPrefixElements(conv, o.body.items, |o.body.items|);
      match MapPrefix(conv, o.body.items, |o.body.items|)
      case Err(err) => Err(err)
      case Ok(vs) => Ok(VArray(e, vs))
  }

  /** `ValueFromObject<T>` for the elements of the list o. */
  function ElementsOf(e: ValueType, o: PyObj): (conv: PyObj --> Result<NativeValue>)
    requires IsElementKind(e) && PyListCheck(o)
    ensures forall x :: x in o.body.items ==> conv.requires(x) && conv(x) == ValueFromObject(e, x)
    decreases o, 0
  {
    x requires x in o.body.items => ValueFromObject(e, x)
  }

  /** The first n items converted left to right with conv, stopping at the first failure. */
  function MapPrefix(conv: PyObj --> Result<NativeValue>, items: seq<PyObj>, n: nat): (r: Result<seq<NativeValue>>)
    requires n <= |items| && forall x :: x in items ==> conv.requires(x)
    ensures r.Ok? ==> |r.value| == n
  {
    if n == 0 then Ok([])
    else
      match MapPrefix(conv, items, n - 1)
      case Err(err) => Err(err)
      case Ok(vs) =>
        match conv(items[n - 1])
        case Err(err) => Err(err)
        case Ok(v) => Ok(vs + [v])
  }

  /**
   * The prefix converts exactly when each of its items does; it then holds
   * their values in order, and otherwise the error of the first that fails.
   */
  lemma {:induction false} MapPrefixElements(conv: PyObj --> Result<NativeValue>, items: seq<PyObj>, n: nat)
    requires n <= |items| && forall x :: x in items ==> conv.requires(x)
    ensures MapPrefix(conv, items, n).Ok? <==> forall i :: 0 <= i < n ==> conv(items[i]).Ok?
    ensures MapPrefix(conv, items, n).Ok? ==> forall i :: 0 <= i < n ==> conv(items[i]) == Ok(MapPrefix(conv, items, n).value[i])
    ensures MapPrefix(conv, items, n).Err? ==> exists i :: (0 <= i < n && conv(items[i]) == Err(MapPrefix(conv, items, n).error) &&
      forall j :: 0 <= j < i ==> conv(items[j]).Ok?)
  {
    if n > 0 {
      MapPrefixElements(conv, items, n - 1);
      var r := MapPrefix(conv, items, n);
      if r.Err? && MapPrefix(conv, items, n - 1).Ok? {
        assert conv(items[n - 1]) == Err(r.error);
      }
    }
  }

  /**
   * A non-empty list whose known elements all carry one supported tag
   * converts as the array of that tag's kind.
   */
  lemma HomogeneousListIsArray(o: PyObj, t: PyType)
    requires PyListCheck(o) && ArrayElemFor(t).Some? && AllTagged(o.body.items, t)
    requires exists i :: 0 <= i < |o.body.items| && o.body.items[i].tag == t
    ensures AnyList(o) == ArrayFromObject(ArrayElemFor(t).value, o)
  {
    var items := o.body.items;
    var f := FirstTag(items);
    assert f.Some?;
    var k :| 0 <= k < |items| && items[k].tag == f.value;
    assert f.value == t;
  }

  /** An empty list given for `any` is an empty int64 array. */
  lemma EmptyListIsInt64Array(o: PyObj)
    requires PyListCheck(o) && |o.body.items| == 0
    ensures AnyList(o) == Ok(VArray(Int64, []))
    ensures o.tag == PyType.List ==> AnyFromObject(o) == Ok(VArray(Int64, []))
  {
  }

  /** Two elements with different known tags make the list the TypeError, whatever the tags. */
  lemma MixedTagsRefused(o: PyObj, i: nat, j: nat)
    requires PyListCheck(o) && i < |o.body.items| && j < |o.body.items|
    requires o.body.items[i].tag != PyType.Invalid && o.body.items[j].tag != PyType.Invalid
    requires o.body.items[i].tag != o.body.items[j].tag
    ensures AnyList(o) == Err(ListTypeError(o.body.items))
  {
    var items := o.body.items;
    assert FirstTag(items).Some?;
    var t := FirstTag(items).value;
    assert items[i].tag != t || items[j].tag != t;
    assert !AllTagged(items, t);
  }

  /** A non-empty list with no element the type map knows, or only a tag with no array kind, is the TypeError. */
  lemma NoArrayKindRefused(o: PyObj)
    requires PyListCheck(o) && |o.body.items| > 0
    requires forall i :: 0 <= i < |o.body.items| ==>
      o.body.items[i].tag == PyType.Invalid || ArrayElemFor(o.body.items[i].tag).NoValue?
    ensures AnyList(o) == Err(ListTypeError(o.body.items))
  {
    var items := o.body.items;
    var f := FirstTag(items);
    if f.Some? {
      var k :| 0 <= k < |items| && items[k].tag == f.value;
      assert ArrayElemFor(f.value).NoValue?;
    }
  }

  /** The tags of the four plugify aggregate classes. */
  predicate AggregateTag(t: PyType)
  {
    t == PyType.Vector2 || t == PyType.Vector3 || t == PyType.Vector4 || t == PyType.Matrix4x4
  }

  /**
   * The tag `GetObjectType` gives under the type map as `InitializeModule`
   * writes it. The four aggregate classes are registered under
   * `Py_TYPE(_Vector2TypeObject)` ..., the metaclass of each class rather
   * than the class, and that key is already taken by `Type`; so an instance
   * of an aggregate class is not found and comes back `Invalid`. The other
   * tags of the model are unchanged.
   */
  function TagAsWritten(t: PyType): (u: PyType)
    ensures u == PyType.Invalid <==> (t == PyType.Invalid || AggregateTag(t))
    ensures u != PyType.Invalid ==> u == t
  {
    match t
    case Vector2 | Vector3 | Vector4 | Matrix4x4 => PyType.Invalid
    case _ => t
  }

  /**
   * An object as the type map written by `InitializeModule` sees it: its own
   * tag and, for a list, its items' tags, the only tags the `any` conversion
   * asks for. Type names and bodies are unchanged, because an unregistered
   * type is named by `PyType_GetName`, the class's own name.
   */
  function RetagAsWritten(o: PyObj): (w: PyObj)
    ensures w.tag == TagAsWritten(o.tag) && w.typeName == o.typeName
    ensures !o.body.ListBody? ==> w.body == o.body
    ensures o.body.ListBody? ==>
      (w.body.ListBody? && w.body.exact == o.body.exact && |w.body.items| == |o.body.items| &&
       forall i :: 0 <= i < |o.body.items| ==>
         w.body.items[i] == o.body.items[i].(tag := TagAsWritten(o.body.items[i].tag)))
  {
    var body := match o.body
      case ListBody(items, exact) =>
        ListBody(seq(|items|, i requires 0 <= i < |items| => items[i].(tag := TagAsWritten(items[i].tag))), exact)
      case _ => o.body;
    o.(tag := TagAsWritten(o.tag), body := body)
  }

  /** `ValueFromObject<plg::any>` under the type map as written. */
  function AnyFromObjectAsWritten(o: PyObj): (r: Result<NativeValue>)
    ensures r.Ok? ==> AnyValue(r.value)
  {
    AnyFromObject(RetagAsWritten(o))
  }

  /** A non-empty list of aggregate instances. */
  predicate AggregateList(o: PyObj)
  {
    o.tag == PyType.List && o.body.ListBody? && |o.body.items| > 0 &&
    forall i :: 0 <= i < |o.body.items| ==> AggregateTag(o.body.items[i].tag)
  }

  /** Under the type map as written an aggregate instance given for `any` is refused as unsupported. */
  lemma AggregateRefusedAsWritten(o: PyObj)
    requires AggregateTag(o.tag)
    ensures AnyFromObjectAsWritten(o) == Err(Unsupported(o))
  {
  }

  /** Under the type map as written a non-empty list of aggregate instances given for `any` is the list TypeError. */
  lemma AggregateListRefusedAsWritten(o: PyObj)
    requires AggregateList(o)
    ensures AnyFromObjectAsWritten(o) == Err(ListTypeError(o.body.items))
  {
    var w := RetagAsWritten(o);
    assert AnyFromObject(w) == AnyList(w);
    NoArrayKindRefused(w);
    assert TypeNames(w.body.items) == TypeNames(o.body.items);
  }

  /** A vector kind's tag: with it, an object given for `any` is read as that vector. */
  function VectorTag(k: ValueType): (t: PyType)
    requires k in {ValueType.Vector2, ValueType.Vector3, ValueType.Vector4}
    ensures AggregateTag(t) && ArrayElemFor(t) == Some(k)
  {
    match k
    case Vector2 => PyType.Vector2
    case Vector3 => PyType.Vector3
    case Vector4 => PyType.Vector4
  }

  lemma AnyVectorIsVectorRead(k: ValueType, o: PyObj)
    requires k in {ValueType.Vector2, ValueType.Vector3, ValueType.Vector4} && o.tag == VectorTag(k)
    ensures AnyFromObject(o) == VectorFromObject(k, o)
  {
    match k
    case Vector2 =>
    case Vector3 =>
    case Vector4 =>
  }

  /** A list tagged `List` given for `any` takes the list branch. */
  lemma AnyListBranch(o: PyObj)
    requires o.tag == PyType.List && PyListCheck(o)
    ensures AnyFromObject(o) == AnyList(o)
  {
  }

  /**
   * `ArrayFromObject<T>` on a list: it succeeds exactly when every element
   * converts, giving an array of the list's length whose element i is the
   * conversion of item i. Anything else is "Expected list".
   */
  lemma ArrayFromObjectElements(e: ValueType, o: PyObj)
    requires IsElementKind(e)
    ensures !PyListCheck(o) ==> ArrayFromObject(e, o) == Err(TypeErrorFor("Expected list", o))
    ensures PyListCheck(o) ==> (ArrayFromObject(e, o).Ok? <==>
      forall i :: 0 <= i < |o.body.items| ==> ValueFromObject(e, o.body.items[i]).Ok?)
    ensures PyListCheck(o) && ArrayFromObject(e, o).Ok? ==>
      var vs := ArrayFromObject(e, o).value.items;
      |vs| == |o.body.items| && forall i :: 0 <= i < |vs| ==> ValueFromObject(e, o.body.items[i]) == Ok(vs[i])
  {
    if PyListCheck(o) {
      var items := o.body.items;
      var conv := ElementsOf(e, o);
      MapPrefixElements(conv, items, |items|);
      var r := MapPrefix(conv, items, |items|);
      assert ArrayFromObject(e, o) == if r.Ok? then Ok(VArray(e, r.value)) else Err(r.error);
      assert forall i :: 0 <= i < |items| ==> conv(items[i]) == ValueFromObject(e, items[i]);
    }
  }

  /** A list that does not convert fails with the error of its first element that does not. */
  lemma ArrayFromObjectFirstError(e: ValueType, o: PyObj)
    requires IsElementKind(e) && PyListCheck(o) && ArrayFromObject(e, o).Err?
    ensures exists i :: (0 <= i < |o.body.items| && ValueFromObject(e, o.body.items[i]) == Err(ArrayFromObject(e, o).error) &&
      forall j :: 0 <= j < i ==> ValueFromObject(e, o.body.items[j]).Ok?)
  {
    var items := o.body.items;
    var conv := ElementsOf(e, o);
    MapPrefixElements(conv, items, |items|);
    var r := MapPrefix(conv, items, |items|);
    assert ArrayFromObject(e, o) == Err(r.error);
    assert forall i :: 0 <= i < |items| ==> conv(items[i]) == ValueFromObject(e, items[i]);
  }

  /** The conversion a by-reference or by-pointer slot of kind k uses: `CreateValue` or `CreateArray`. */
  function FromObject(k: ValueType, o: PyObj): (r: Result<NativeValue>)
    requires IsElementKind(k) || (k.ArrayOf? && IsElementKind(k.elem))
    ensures r.Ok? ==> OfKind(r.value, k)
  {
    if k.ArrayOf? then ArrayFromObject(k.elem, o) else ValueFromObject(k, o)
  }
}
