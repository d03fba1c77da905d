/**
 * `ArgsScope`: the argument list a call into native code is assembled in,
 * and the storage of every value the native side receives through a
 * pointer (strings, `any`, arrays, vectors, matrices, and every
 * by-reference argument), which the scope owns and deletes when it ends.
 */
module Scope {
  import opened Python
  import opened Kinds
  import opened Convert
  import opened Marshal

  /** One argument slot: a value passed directly, or the address of a storage cell. */
  datatype Arg = Direct(value: NativeValue) | Indirect(cell: nat)

  /** A storage entry: the heap value and the kind it was allocated as. */
  datatype Cell = Cell(value: NativeValue, kind: ValueType)

  predicate CellOk(c: Cell)
  {
    IsStorable(c.kind) && OfKind(c.value, c.kind)
  }

  /** Where a pushed argument lives: in its slot, or in a new storage cell the slot points to. */
  datatype Pushed = InSlot(value: NativeValue) | InCell(value: NativeValue)

  /**
   * `PushObjectAsParam`: scalars and function addresses go in the slot,
   * the kinds passed through a pointer get a cell; any other kind is the
   * "unsupported type" RuntimeError.
   */
  function PushedByValue(env: Env, k: ValueType, o: PyObj): (r: Result<Pushed>)
    ensures r.Ok? && r.value.InSlot? ==> (IsScalar(k) || k == ValueType.Function) && OfKind(r.value.value, k)
    ensures r.Ok? && r.value.InCell? ==> IsObjectKind(k) && OfKind(r.value.value, k)
    ensures !IsStorable(k) && k != ValueType.Function ==> r == Err(PyError(RuntimeError, "PushObjectAsParam unsupported type"))
    ensures (IsScalar(k) || k == ValueType.Function || IsObjectKind(k)) ==> (r.Ok? <==> ObjectToNative(env, k, o).Ok?)
  {
    if IsScalar(k) || k == ValueType.Function then
      match ObjectToNative(env, k, o)
      case Err(e) => Err(e)
      case Ok(v) => Ok(InSlot(v))
    else if IsObjectKind(k) then
      match ObjectToNative(env, k, o)
      case Err(e) => Err(e)
      case Ok(v) => Ok(InCell(v))
    else Err(PyError(RuntimeError, "PushObjectAsParam unsupported type"))
  }

  /**
   * `PushObjectAsRefParam`: every storable kind gets a cell holding the
   * converted value; functions, `void` and `invalid` are refused.
   */
  function PushedByRef(env: Env, k: ValueType, o: PyObj): (r: Result<Pushed>)
    ensures r.Ok? ==> r.value.InCell? && IsStorable(k) && OfKind(r.value.value, k)
    ensures IsStorable(k) ==> (r.Ok? <==> FromObject(k, o).Ok?)
    ensures !IsStorable(k) ==> r == Err(PyError(RuntimeError, "PushObjectAsRefParam unsupported type"))
  {
    if IsStorable(k) then
      match ObjectToNative(env, k, o)
      case Err(e) => Err(e)
      case Ok(v) => Ok(InCell(v))
    else Err(PyError(RuntimeError, "PushObjectAsRefParam unsupported type"))
  }

  /** The native side writes, through a pointer, only values of the pointee's own kind. */
  function ApplyWrites(storage: seq<Cell>, writes: map<nat, NativeValue>): (s: seq<Cell>)
    ensures |s| == |storage|
    ensures forall j :: 0 <= j < |s| ==> s[j].kind == storage[j].kind
    ensures forall j :: 0 <= j < |s| && CellOk(storage[j]) ==> CellOk(s[j])
    ensures forall j :: 0 <= j < |s| && j !in writes ==> s[j] == storage[j]
    ensures forall j :: 0 <= j < |s| && j in writes && OfKind(writes[j], storage[j].kind) ==> s[j].value == writes[j]
  {
    seq(|storage|, j requires 0 <= j < |storage| =>
      if j in writes && OfKind(writes[j], storage[j].kind) then Cell(writes[j], storage[j].kind) else storage[j])
  }

  class ArgsScope {
    /** `JitCall::Parameters`: the arguments added so far. */
    var params: seq<Arg>
    /** The owned heap values, in allocation order. */
    var storage: seq<Cell>
    /** The cells the destructor has deleted, in order. */
    var released: seq<Cell>

    /** Every cell holds a value of a kind the destructor can delete, and every pointer slot names a cell. */
    ghost predicate Valid()
      reads this
    {
      (forall j :: 0 <= j < |storage| ==> CellOk(storage[j])) &&
      (forall i :: 0 <= i < |params| && params[i].Indirect? ==> params[i].cell < |storage|)
    }

    constructor ()
      ensures Valid() && params == [] && storage == [] && released == []
    {
      params := [];
      storage := [];
      released := [];
    }

    /**
     * `BeginExternalCall`: a default-constructed value of the return kind is
     * allocated and its address becomes the hidden first argument.
     */
    method BeginExternalCall(retType: ValueType)
      requires Valid() && IsObjectKind(retType)
      modifies this
      ensures Valid()
      ensures storage == old(storage) + [Cell(FallbackReturn(retType), retType)]
      ensures params == old(params) + [Indirect(|old(storage)|)]
      ensures released == old(released)
    {
      storage := storage + [Cell(FallbackReturn(retType), retType)];
      params := params + [Indirect(|storage| - 1)];
    }

    /** Records a converted argument: in its slot, or in a new cell of kind k. */
    method Add(p: Pushed, k: ValueType)
      requires Valid() && (p.InCell? ==> IsStorable(k) && OfKind(p.value, k))
      modifies this
      ensures Valid() && released == old(released)
      ensures p.InSlot? ==> params == old(params) + [Direct(p.value)] && storage == old(storage)
      ensures p.InCell? ==> (params == old(params) + [Indirect(|old(storage)|)] &&
                             storage == old(storage) + [Cell(p.value, k)])
    {
      match p
      case InSlot(v) =>
        params := params + [Direct(v)];
      case InCell(v) =>
        storage := storage + [Cell(v, k)];
        params := params + [Indirect(|storage| - 1)];
    }

    /** `PushObjectAsParam`: on failure nothing is added and the error is returned. */
    method PushObjectAsParam(env: Env, k: ValueType, o: PyObj) returns (error: Option<PyError>)
      requires Valid()
      modifies this
      ensures Valid() && released == old(released)
      ensures PushedByValue(env, k, o).Err? ==> (error == Some(PushedByValue(env, k, o).error) &&
                                                 params == old(params) && storage == old(storage))
      ensures PushedByValue(env, k, o).Ok? ==> (error == NoValue &&
        var p := PushedByValue(env, k, o).value;
        (p.InSlot? ==> params == old(params) + [Direct(p.value)] && storage == old(storage)) &&
        (p.InCell? ==> params == old(params) + [Indirect(|old(storage)|)] && storage == old(storage) + [Cell(p.value, k)]))
    {
      var r := PushedByValue(env, k, o);
      if r.Err? {
        return Some(r.error);
      }
      Add(r.value, k);
      return NoValue;
    }

    /** `PushObjectAsRefParam`: a successful push always adds one cell and points the new slot at it. */
    method PushObjectAsRefParam(env: Env, k: ValueType, o: PyObj) returns (error: Option<PyError>)
      requires Valid()
      modifies this
      ensures Valid() && released == old(released)
      ensures PushedByRef(env, k, o).Err? ==> (error == Some(PushedByRef(env, k, o).error) &&
                                               params == old(params) && storage == old(storage))
      ensures PushedByRef(env, k, o).Ok? ==> (error == NoValue &&
        params == old(params) + [Indirect(|old(storage)|)] &&
        storage == old(storage) + [Cell(PushedByRef(env, k, o).value.value, k)])
    {
      var r := PushedByRef(env, k, o);
      if r.Err? {
        return Some(r.error);
      }
      Add(r.value, k);
      return NoValue;
    }

    /** The native function stores values through the pointers it was given. */
    method NativeWrites(writes: map<nat, NativeValue>)
      requires Valid()
      modifies this
      ensures Valid() && released == old(released) && params == old(params)
      ensures storage == ApplyWrites(old(storage), writes)
    {
      storage := ApplyWrites(storage, writes);
    }

    /**
     * The destructor: each cell is deleted once, in order, as the kind it
     * was allocated with. `Valid` keeps every kind among those the switch
     * handles, so the fatal default is never reached.
     */
    method Release()
      requires Valid()
      modifies this
      ensures released == old(released) + storage
      ensures storage == old(storage) && params == old(params)
      ensures forall j :: |old(released)| <= j < |released| ==> CellOk(released[j])
    {
      var j := 0;
      while j < |storage|
        invariant 0 <= j <= |storage|
        invariant released == old(released) + storage[..j]
        invariant storage == old(storage) && params == old(params) && Valid()
      {
        var cell := storage[j];
        assert IsStorable(cell.kind);
        released := released + [cell];
        assert storage[..j + 1] == storage[..j] + [cell];
        j := j + 1;
      }
      assert storage[..j] == storage;
    }
  }
}
