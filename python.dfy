/**
 * The scripted (CPython) side of the bridge, as values.
 *
 * A Python object carries the abstract type tag and type name that the
 * language module's type map gives it (`GetObjectType`), and a body that says
 * which C-API checks it passes (`PyLong_Check`, `PyUnicode_Check`, ...) and
 * what those accessors return. Reference counts and the interpreter's error
 * indicator are not modelled: an error is a value returned beside the result.
 */
module Python {

  /** A floating-point number, carried as its IEEE-754 bits; no arithmetic is done on it. */
  datatype FloatBits = FloatBits(bits: bv64)

  /** The other entries of the type catalog (`Dict`, `Set`, `Bytes`, ...), by number. */
  type OtherId = x: nat | x < 64

  /**
   * The abstract type tags the core branches on (`PyAbstractType`): the rest of
   * the catalog is `Other(id)`. `Invalid` is the tag of a type missing from the type map.
   */
  datatype PyType =
    | Invalid | Type | Long | Bool | Float | Unicode | List | Tuple | None | Function
    | Vector2 | Vector3 | Vector4 | Matrix4x4
    | Other(id: OtherId)

  /** The aggregate classes of the plugify package. */
  datatype Aggregate = Vec2Class | Vec3Class | Vec4Class | Mat4x4Class

  datatype Attr = Attr(name: string, value: PyObj)

  /** What the C-API checks and accessors say about an object. */
  datatype Body =
    | IntBody(value: int)                       // PyLong_Check: int, bool, IntEnum members
    | FloatBody(f: FloatBits)                   // PyFloat_Check
    | StrBody(length: nat, utf8: seq<bv8>)      // PyUnicode_Check: code-point length, and the UTF-8 view
                                                // `PyUnicode_AsString` gives, empty when the str has no
                                                // UTF-8 encoding (a lone surrogate)
    | ListBody(items: seq<PyObj>, exact: bool)  // PyList_Check; exact is PyList_CheckExact
    | TupleBody(items: seq<PyObj>, exact: bool) // PyTuple_Check; exact is PyTuple_CheckExact
    | NoneBody                                  // Py_None
    | CallableBody(id: nat)                     // PyCallable_Check, with the object's identity
    | EnumerateBody(valueAttr: Option<PyObj>)   // passes PyObject_TypeCheck(o, &PyEnum_Type): an `enumerate`
    | EnumMemberBody(enumValue: PyObj)            // a member of a Python `enum.Enum` that is not an int
    | InstanceBody(cls: Aggregate, attrs: seq<Attr>) // isinstance of an aggregate class
    | OpaqueBody(id: nat)                       // anything else

  datatype PyObj = PyObj(tag: PyType, typeName: string, body: Body)

  /**
   * The tag the type map gives an object agrees with what the C-API checks say
   * about it: the type map is keyed by exact type, so an object tagged `Long` is an
   * int, one tagged `List` an exact list, and so on.
   */
  predicate TagAgrees(o: PyObj)
  {
    match o.tag
    case Long => o.body.IntBody?
    case Bool => o.body.IntBody? && (o.body.value == 0 || o.body.value == 1)
    case Float => o.body.FloatBody?
    case Unicode => o.body.StrBody?
    case List => o.body.ListBody? && o.body.exact
    case Tuple => o.body.TupleBody? && o.body.exact
    case None => o.body.NoneBody?
    case Function => o.body.CallableBody?
    case Vector2 => o.body.InstanceBody? && o.body.cls == Vec2Class
    case Vector3 => o.body.InstanceBody? && o.body.cls == Vec3Class
    case Vector4 => o.body.InstanceBody? && o.body.cls == Vec4Class
    case Matrix4x4 => o.body.InstanceBody? && o.body.cls == Mat4x4Class
    case _ => true
  }

  datatype Option<T> = NoValue | Some(value: T)

  /** The exception classes the core raises; `NoException` is a failure that leaves none set. */
  datatype ErrKind = TypeError | ValueError | OverflowError | RuntimeError | AttributeError | NoException

  datatype PyError = PyError(kind: ErrKind, msg: string)

  datatype Result<T> = Ok(value: T) | Err(error: PyError)

  /** The message `SetTypeError` builds: "<message>, but <type name> provided". */
  function TypeErrorFor(message: string, o: PyObj): (e: PyError)
    ensures e.kind == TypeError
  {
    PyError(TypeError, message + ", but " + o.typeName + " provided")
  }

  /** The attribute lookup `PyObject_GetAttrString`: the first attribute with that name. */
  function GetAttr(attrs: seq<Attr>, name: string): (r: Option<PyObj>)
    ensures r.Some? <==> exists i :: 0 <= i < |attrs| && attrs[i].name == name
    ensures r.Some? ==> exists i :: 0 <= i < |attrs| && attrs[i].name == name && attrs[i].value == r.value
  {
    if |attrs| == 0 then NoValue
    else if attrs[0].name == name then Some(attrs[0].value)
    else GetAttr(attrs[1..], name)
  }

  /** The AttributeError CPython raises for a missing attribute. */
  function MissingAttr(o: PyObj, name: string): (e: PyError)
    ensures e.kind == AttributeError
  {
    PyError(AttributeError, "'" + o.typeName + "' object has no attribute '" + name + "'")
  }

  /** The objects the marshaller creates, with the names the type map gives their types. */
  function MakeInt(v: int): PyObj
  {
    PyObj(Long, "Long", IntBody(v))
  }

  function MakeBool(b: bool): PyObj
  {
    PyObj(Bool, "Bool", IntBody(if b then 1 else 0))
  }

  function MakeStr(length: nat, utf8: seq<bv8>): PyObj
  {
    PyObj(Unicode, "Unicode", StrBody(length, utf8))
  }

  function MakeFloat(f: FloatBits): PyObj
  {
    PyObj(Float, "Float", FloatBody(f))
  }

  function MakeList(items: seq<PyObj>): PyObj
  {
    PyObj(List, "List", ListBody(items, true))
  }

  function MakeTuple(items: seq<PyObj>): PyObj
  {
    PyObj(Tuple, "Tuple", TupleBody(items, true))
  }

  const PyNone: PyObj := PyObj(None, "None", NoneBody)
}
