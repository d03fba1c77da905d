/**
 * `InternalCall`: native code calling a Python function through a callback
 * trampoline. Each native argument becomes a Python object, the function
 * is called with the tuple of them, and its result goes back to the native
 * side: straight into the return slot, or, when the signature has
 * reference parameters, as a tuple `(ret, ref1, ..., refR)` whose elements
 * are written through the reference pointers in declaration order. Any
 * failure leaves the `SetFallbackReturn` value in the return slot.
 *
 * The call is stated over the per-parameter conversions (`Converter`,
 * `Setter`) and the Python function (`Callee`); `ConvFor` and `SetFor` are
 * the module's own `ParamToObject`/`ParamRefToObject`/`ParamTo*EnumObject`
 * and `SetRefParam`/`SetReturn`.
 */
module Internal {
  import opened Python
  import opened Kinds
  import opened Convert
  import opened Marshal
  import opened External

  /** Native argument to Python object, for its parameter. */
  type Converter = (ParamDesc, NativeValue) -> Result<PyObj>

  /** Python object to native value of a kind. */
  type Setter = (ValueType, PyObj) -> Result<NativeValue>

  /** The Python function: the argument objects in, a result object or the exception it raised out. */
  type Callee = seq<PyObj> -> Result<PyObj>

  /**
   * A parameter the conversions handle: a reference to a storable kind, or a
   * value of a storable kind or a function; enumerations only on integer kinds.
   * Any other descriptor reaches a fatal default.
   */
  predicate ParamOk(p: ParamDesc)
  {
    (IsStorable(p.kind) || (p.kind == ValueType.Function && !p.isRef)) &&
    (p.enumId.Some? ==> IsEnumKind(p.kind))
  }

  predicate CallbackSignature(m: MethodDesc)
  {
    m.ret.kind != ValueType.Invalid && IsKind(m.ret.kind) &&
    forall i :: 0 <= i < |m.params| ==> ParamOk(m.params[i])
  }

  /** The native arguments are values of their parameters' kinds. */
  predicate WellKinded(params: seq<ParamDesc>, args: seq<NativeValue>)
  {
    |args| == |params| && forall i :: 0 <= i < |args| ==> OfKind(args[i], params[i].kind)
  }

  /** `ParamToObject` and its reference and enumeration forms; a descriptor they do not handle is refused. */
  function ConvFor(env: Env): Converter
  {
    (p: ParamDesc, v: NativeValue) =>
      if OfKind(v, p.kind) && (p.enumId.Some? ==> IsEnumKind(p.kind)) then ParamObject(env, p, v)
      else Err(PyError(RuntimeError, "ParamToObject unsupported type"))
  }

  /** `SetRefParam` and `SetReturn` for a kind other than `void`. */
  function SetFor(env: Env): Setter
  {
    (k: ValueType, o: PyObj) =>
      if IsValueKind(k) || k == ValueType.Function then ObjectToNative(env, k, o)
      else Err(PyError(RuntimeError, "SetReturn unsupported type"))
  }

  /** A setter that succeeds gives a value of the kind asked for. */
  ghost predicate SetsOwnKind(store: Setter)
  {
    forall k, o :: store(k, o).Ok? ==> OfKind(store(k, o).value, k)
  }

  lemma SetForSetsOwnKind(env: Env)
    ensures SetsOwnKind(SetFor(env))
  {
    forall k, o | SetFor(env)(k, o).Ok?
      ensures OfKind(SetFor(env)(k, o).value, k)
    {
      assert SetFor(env)(k, o) == ObjectToNative(env, k, o);
    }
  }

  /** What `LogError` reports for a failure: the pending exception, if the failure set one. */
  function Logged(e: PyError): (log: seq<PyError>)
    ensures |log| <= 1 && (log == [] <==> e.kind == NoException)
  {
    if e.kind == NoException then [] else [e]
  }

  // ---- The argument tuple ----

  /** The objects for the first n arguments, or the first conversion's failure. */
  function ArgObjects(conv: Converter, params: seq<ParamDesc>, args: seq<NativeValue>, n: nat): (r: Result<seq<PyObj>>)
    requires n <= |params| == |args|
    ensures r.Ok? ==> |r.value| == n
  {
    if n == 0 then Ok([])
    else
      match ArgObjects(conv, params, args, n - 1)
      case Err(e) => Err(e)
      case Ok(objs) =>
        match conv(params[n - 1], args[n - 1])
        case Err(e) => Err(e)
        case Ok(o) => Ok(objs + [o])
  }

  /** The tuple holds each argument's own object, in order; it fails exactly when some argument's conversion does. */
  lemma {:induction false} ArgObjectsElements(conv: Converter, params: seq<ParamDesc>, args: seq<NativeValue>, n: nat)
    requires n <= |params| == |args|
    ensures ArgObjects(conv, params, args, n).Ok? <==> forall i :: 0 <= i < n ==> conv(params[i], args[i]).Ok?
    ensures ArgObjects(conv, params, args, n).Ok? ==>
      forall i :: 0 <= i < n ==> conv(params[i], args[i]) == Ok(ArgObjects(conv, params, args, n).value[i])
  {
    if n > 0 {
      ArgObjectsElements(conv, params, args, n - 1);
    }
  }

  lemma {:induction false} ArgErrorPersists(conv: Converter, params: seq<ParamDesc>, args: seq<NativeValue>, i: nat, n: nat)
    requires i <= n <= |params| == |args| && ArgObjects(conv, params, args, i).Err?
    ensures ArgObjects(conv, params, args, n) == ArgObjects(conv, params, args, i)
    decreases n
  {
    if n > i {
      ArgErrorPersists(conv, params, args, i, n - 1);
    }
  }

  // ---- Writing the reference results back ----

  lemma {:induction false} RefsBeforeGrows(params: seq<ParamDesc>, i: nat, n: nat)
    requires i <= n <= |params|
    ensures RefsBefore(params, i) <= RefsBefore(params, n)
    ensures i < n && params[i].isRef ==> RefsBefore(params, i) < RefsBefore(params, n)
    decreases n
  {
    if i < n {
      RefsBeforeGrows(params, i, n - 1);
    }
  }

  /** The native arguments after the write-back, and what was logged on the way. */
  datatype Writes = Writes(args: seq<NativeValue>, logged: seq<PyError>)

  /**
   * The first n parameters' write-back: the k-th reference parameter gets
   * tuple element 1 + k when it converts; a failing one is logged and left as it was.
   */
  function WriteBack(store: Setter, params: seq<ParamDesc>, items: seq<PyObj>, args: seq<NativeValue>, n: nat): (r: Writes)
    requires n <= |params| == |args| && RefsBefore(params, n) < |items|
    ensures |r.args| == |args|
  {
    if n == 0 then Writes(args, [])
    else
      var w := WriteBack(store, params, items, args, n - 1);
      var p := params[n - 1];
      if !p.isRef then w
      else
        match store(p.kind, items[1 + RefsBefore(params, n - 1)])
        case Ok(v) => Writes(w.args[n - 1 := v], w.logged)
        case Err(e) => Writes(w.args, w.logged + Logged(e))
  }

  /** Element 1 + k of the tuple is the one the k-th reference parameter is set from. */
  function RefItem(params: seq<ParamDesc>, items: seq<PyObj>, n: nat, i: nat): (o: PyObj)
    requires i < n <= |params| && params[i].isRef && RefsBefore(params, n) < |items|
  {
    RefsBeforeGrows(params, i, n);
    items[1 + RefsBefore(params, i)]
  }

  /**
   * After the write-back, each reference parameter among the first n holds
   * the value converted from its tuple element, when that conversion
   * succeeded; every other argument is unchanged.
   */
  lemma {:induction false} WriteBackWrites(store: Setter, params: seq<ParamDesc>, items: seq<PyObj>, args: seq<NativeValue>, n: nat)
    requires n <= |params| == |args| && RefsBefore(params, n) < |items|
    ensures forall i :: 0 <= i < |args| ==>
      WriteBack(store, params, items, args, n).args[i] ==
        if i < n && params[i].isRef && store(params[i].kind, RefItem(params, items, n, i)).Ok?
        then store(params[i].kind, RefItem(params, items, n, i)).value
        else args[i]
  {
    if n > 0 {
      WriteBackWrites(store, params, items, args, n - 1);
      forall i | 0 <= i < |args| && i < n - 1 && params[i].isRef
        ensures RefItem(params, items, n, i) == RefItem(params, items, n - 1, i)
      {
      }
    }
  }

  /** The write-back never puts a value of the wrong kind into a reference slot. */
  lemma {:induction false} WriteBackKeepsKinds(store: Setter, params: seq<ParamDesc>, items: seq<PyObj>, args: seq<NativeValue>, n: nat)
    requires n <= |params| == |args| && RefsBefore(params, n) < |items|
    requires SetsOwnKind(store) && WellKinded(params, args)
    ensures WellKinded(params, WriteBack(store, params, items, args, n).args)
  {
    if n > 0 {
      WriteBackKeepsKinds(store, params, items, args, n - 1);
    }
  }

  /** Past the last reference parameter nothing more is written: the loop may stop there. */
  lemma {:induction false} WriteBackDone(store: Setter, params: seq<ParamDesc>, items: seq<PyObj>, args: seq<NativeValue>, i: nat, n: nat)
    requires i <= n <= |params| == |args| && RefsBefore(params, n) < |items|
    requires RefsBefore(params, i) == RefsBefore(params, n)
    ensures WriteBack(store, params, items, args, n) == WriteBack(store, params, items, args, i)
    decreases n
  {
    if n > i {
      RefsBeforeGrows(params, i, n - 1);
      WriteBackDone(store, params, items, args, i, n - 1);
    }
  }

  // ---- The call ----

  /** The outcome of a callback: the return slot, the native arguments and what was logged. */
  datatype CallbackResult = CallbackResult(ret: NativeValue, args: seq<NativeValue>, logged: seq<PyError>)

  /** The TypeError for a result tuple of the wrong size. */
  function WrongSize(size: nat, expected: nat): PyError
  {
    PyError(TypeError, "Returned tuple wrong size " + NatToString(size) + ", expected " + NatToString(expected))
  }

  /** `SetReturn`: `void` accepts any result; otherwise a failed conversion is logged and the fallback is returned. */
  function Returned(store: Setter, k: ValueType, o: PyObj, args: seq<NativeValue>, logged: seq<PyError>): (r: CallbackResult)
    requires k != ValueType.Invalid && IsKind(k)
    ensures r.args == args
    ensures |logged| <= |r.logged| <= |logged| + 1 && r.logged[..|logged|] == logged
    ensures |r.logged| > |logged| ==> r.ret == FallbackReturn(k)
    ensures SetsOwnKind(store) ==> OfKind(r.ret, k)
  {
    if k == Void then CallbackResult(VNone, args, logged)
    else
      match store(k, o)
      case Ok(v) => CallbackResult(v, args, logged)
      case Err(e) => CallbackResult(FallbackReturn(k), args, logged + Logged(e))
  }

  function InternalCallWith(conv: Converter, store: Setter, m: MethodDesc, callee: Callee, args: seq<NativeValue>): (r: CallbackResult)
    requires CallbackSignature(m) && |args| == |m.params|
    ensures |r.args| == |args|
  {
    var fallback := FallbackReturn(m.ret.kind);
    var refs := RefsBefore(m.params, |m.params|);
    match ArgObjects(conv, m.params, args, |m.params|)
    case Err(e) => CallbackResult(fallback, args, Logged(e))
    case Ok(objs) =>
      match callee(objs)
      case Err(e) => CallbackResult(fallback, args, [e])
      case Ok(result) =>
        if refs == 0 then Returned(store, m.ret.kind, result, args, [])
        else if !(result.body.TupleBody? && result.body.exact) then
          CallbackResult(fallback, args, [TypeErrorFor("Expected tuple as return value", result)])
        else if |result.body.items| != 1 + refs then
          CallbackResult(fallback, args, [WrongSize(|result.body.items|, 1 + refs)])
        else
          var w := WriteBack(store, m.params, result.body.items, args, |m.params|);
          Returned(store, m.ret.kind, result.body.items[0], w.args, w.logged)
  }

  /** `InternalCall` with the module's own conversions. */
  function InternalCallSpec(env: Env, m: MethodDesc, callee: Callee, args: seq<NativeValue>): (r: CallbackResult)
    requires CallbackSignature(m) && |args| == |m.params|
    ensures |r.args| == |args| && OfKind(r.ret, m.ret.kind)
    ensures WellKinded(m.params, args) ==> WellKinded(m.params, r.args)
  {
    SetForSetsOwnKind(env);
    ReturnSlotHoldsItsKind(ConvFor(env), SetFor(env), m, callee, args);
    InternalCallWith(ConvFor(env), SetFor(env), m, callee, args)
  }

  // ---- What the protocol promises ----

  /** The return slot always holds a value of the declared kind, and the arguments keep theirs. */
  lemma ReturnSlotHoldsItsKind(conv: Converter, store: Setter, m: MethodDesc, callee: Callee, args: seq<NativeValue>)
    requires CallbackSignature(m) && |args| == |m.params| && SetsOwnKind(store)
    ensures OfKind(InternalCallWith(conv, store, m, callee, args).ret, m.ret.kind)
    ensures WellKinded(m.params, args) ==> WellKinded(m.params, InternalCallWith(conv, store, m, callee, args).args)
  {
    var refs := RefsBefore(m.params, |m.params|);
    if ArgObjects(conv, m.params, args, |m.params|).Ok? {
      var objs := ArgObjects(conv, m.params, args, |m.params|).value;
      if callee(objs).Ok? && refs > 0 {
        var result := callee(objs).value;
        if result.body.TupleBody? && result.body.exact && |result.body.items| == 1 + refs && WellKinded(m.params, args) {
          WriteBackKeepsKinds(store, m.params, result.body.items, args, |m.params|);
        }
      }
    }
  }

  /**
   * With reference parameters, a result that is not an exact tuple of
   * 1 + R elements is a TypeError: the fallback is returned and no
   * reference slot is written.
   */
  lemma BadTupleWritesNothing(conv: Converter, store: Setter, m: MethodDesc, callee: Callee, args: seq<NativeValue>)
    requires CallbackSignature(m) && |args| == |m.params|
    requires RefsBefore(m.params, |m.params|) > 0
    requires ArgObjects(conv, m.params, args, |m.params|).Ok?
    requires callee(ArgObjects(conv, m.params, args, |m.params|).value).Ok?
    ensures var result := callee(ArgObjects(conv, m.params, args, |m.params|).value).value;
      var refs := RefsBefore(m.params, |m.params|);
      var r := InternalCallWith(conv, store, m, callee, args);
      (!(result.body.TupleBody? && result.body.exact) ==>
        r == CallbackResult(FallbackReturn(m.ret.kind), args, [TypeErrorFor("Expected tuple as return value", result)])) &&
      (result.body.TupleBody? && result.body.exact && |result.body.items| != 1 + refs ==>
        r == CallbackResult(FallbackReturn(m.ret.kind), args, [WrongSize(|result.body.items|, 1 + refs)]))
  {
  }

  /**
   * A reference slot changes only when every argument converted, the
   * function returned, and its result is an exact tuple of 1 + R elements.
   */
  lemma ArgsChangeOnlyThroughTheTuple(conv: Converter, store: Setter, m: MethodDesc, callee: Callee, args: seq<NativeValue>)
    requires CallbackSignature(m) && |args| == |m.params|
    ensures InternalCallWith(conv, store, m, callee, args).args != args ==>
      var objs := ArgObjects(conv, m.params, args, |m.params|);
      objs.Ok? && callee(objs.value).Ok? &&
      var result := callee(objs.value).value;
      RefsBefore(m.params, |m.params|) > 0 && result.body.TupleBody? && result.body.exact &&
      |result.body.items| == 1 + RefsBefore(m.params, |m.params|)
  {
  }

  /** The objects of the reference arguments among the first n, in declaration order. */
  function RefObjects(params: seq<ParamDesc>, objs: seq<PyObj>, n: nat): (refs: seq<PyObj>)
    requires n <= |params| == |objs|
    ensures |refs| == RefsBefore(params, n)
  {
    if n == 0 then []
    else if params[n - 1].isRef then RefObjects(params, objs, n - 1) + [objs[n - 1]]
    else RefObjects(params, objs, n - 1)
  }

  lemma {:induction false} RefObjectsAt(params: seq<ParamDesc>, objs: seq<PyObj>, n: nat, i: nat)
    requires i < n <= |params| == |objs| && params[i].isRef
    ensures RefsBefore(params, i) < RefsBefore(params, n)
    ensures RefObjects(params, objs, n)[RefsBefore(params, i)] == objs[i]
    decreases n
  {
    RefsBeforeGrows(params, i, n);
    if i < n - 1 {
      RefsBeforeGrows(params, i, n - 1);
      RefObjectsAt(params, objs, n - 1, i);
    }
  }

  /** A Python function that hands its reference arguments back unchanged, after the return object. */
  function Echo(m: MethodDesc, retObj: PyObj): Callee
  {
    (objs: seq<PyObj>) =>
      if |objs| == |m.params| then Ok(MakeTuple([retObj] + RefObjects(m.params, objs, |m.params|)))
      else Ok(retObj)
  }

  /** A reference parameter whose value survives the trip to Python and back. */
  predicate RoundTrips(p: ParamDesc)
  {
    p.isRef ==> (IsValueKind(p.kind) && p.kind != Any && !(p.kind.ArrayOf? && p.kind.elem == Any) && p.enumId.NoValue?)
  }

  /** The setter undoes the converter on every reference argument that converts. */
  ghost predicate UndoesOnRefs(conv: Converter, store: Setter, params: seq<ParamDesc>, args: seq<NativeValue>)
    requires |args| == |params|
  {
    forall i :: 0 <= i < |params| && params[i].isRef && conv(params[i], args[i]).Ok? ==>
      store(params[i].kind, conv(params[i], args[i]).value) == Ok(args[i])
  }

  /** With a setter that undoes the converter, an echoing function leaves every native argument as it was. */
  lemma EchoWith(conv: Converter, store: Setter, m: MethodDesc, retObj: PyObj, args: seq<NativeValue>)
    requires CallbackSignature(m) && |args| == |m.params| && UndoesOnRefs(conv, store, m.params, args)
    requires ArgObjects(conv, m.params, args, |m.params|).Ok?
    ensures InternalCallWith(conv, store, m, Echo(m, retObj), args).args == args
  {
    var objs := ArgObjects(conv, m.params, args, |m.params|).value;
    if RefsBefore(m.params, |m.params|) > 0 {
      var items := [retObj] + RefObjects(m.params, objs, |m.params|);
      assert Echo(m, retObj)(objs) == Ok(MakeTuple(items));
      EchoWrites(conv, store, m.params, items, args, objs);
    }
  }

  lemma EchoWrites(conv: Converter, store: Setter, params: seq<ParamDesc>, items: seq<PyObj>, args: seq<NativeValue>, objs: seq<PyObj>)
    requires |args| == |params| && UndoesOnRefs(conv, store, params, args)
    requires ArgObjects(conv, params, args, |params|) == Ok(objs)
    requires |items| > 0 && items[1..] == RefObjects(params, objs, |params|)
    ensures WriteBack(store, params, items, args, |params|).args == args
  {
    ArgObjectsElements(conv, params, args, |params|);
    WriteBackWrites(store, params, items, args, |params|);
    forall i | 0 <= i < |args| && params[i].isRef
      ensures RefItem(params, items, |params|, i) == objs[i]
    {
      RefObjectsAt(params, objs, |params|, i);
    }
  }

  /**
   * The round trip of the tuple protocol: when every argument converts and
   * the function echoes its reference arguments, each native reference
   * argument is written back with the value it already had.
   */
  lemma EchoLeavesArgs(env: Env, m: MethodDesc, retObj: PyObj, args: seq<NativeValue>)
    requires CallbackSignature(m) && WellKinded(m.params, args)
    requires forall i :: 0 <= i < |m.params| ==> RoundTrips(m.params[i])
    requires ArgObjects(ConvFor(env), m.params, args, |m.params|).Ok?
    ensures InternalCallSpec(env, m, Echo(m, retObj), args).args == args
  {
    forall i | 0 <= i < |m.params| && m.params[i].isRef && ConvFor(env)(m.params[i], args[i]).Ok?
      ensures SetFor(env)(m.params[i].kind, ConvFor(env)(m.params[i], args[i]).value) == Ok(args[i])
    {
      EchoSlot(env, m.params[i], args[i], ConvFor(env)(m.params[i], args[i]).value);
    }
    EchoWith(ConvFor(env), SetFor(env), m, retObj, args);
  }

  /** One reference argument: its object converts back to its value. */
  lemma EchoSlot(env: Env, p: ParamDesc, v: NativeValue, o: PyObj)
    requires p.isRef && RoundTrips(p) && OfKind(v, p.kind)
    requires ConvFor(env)(p, v) == Ok(o)
    ensures SetFor(env)(p.kind, o) == Ok(v)
  {
    assert ParamObject(env, p, v) == NativeToObject(env, p.kind, v) == Ok(o);
    NativeRoundTrip(env, p.kind, v);
  }

  // ---- The source's loops ----

  /** The argument loop: each argument converted in order, stopping at the first failure, counting the references. */
  method ConvertArgs(conv: Converter, params: seq<ParamDesc>, args: array<NativeValue>) returns (objs: Result<seq<PyObj>>, refs: nat)
    requires args.Length == |params|
    ensures objs == ArgObjects(conv, params, args[..], |params|)
    ensures objs.Ok? ==> refs == RefsBefore(params, |params|)
  {
    var tuple := [];
    refs := 0;
    var index := 0;
    while index < |params|
      invariant 0 <= index <= |params|
      invariant refs == RefsBefore(params, index)
      invariant ArgObjects(conv, params, args[..], index) == Ok(tuple)
    {
      var p := params[index];
      if p.isRef {
        refs := refs + 1;
      }
      var arg := conv(p, args[index]);
      if arg.Err? {
        ArgErrorPersists(conv, params, args[..], index + 1, |params|);
        return Err(arg.error), refs;
      }
      tuple := tuple + [arg.value];
      index := index + 1;
    }
    return Ok(tuple), refs;
  }

  /** Writes one reference result through its pointer, or logs why it could not. */
  method SetRefParam(store: Setter, p: ParamDesc, o: PyObj, args: array<NativeValue>, index: nat) returns (logged: seq<PyError>)
    requires index < args.Length
    modifies args
    ensures store(p.kind, o).Ok? ==> args[..] == old(args[..])[index := store(p.kind, o).value] && logged == []
    ensures store(p.kind, o).Err? ==> args[..] == old(args[..]) && logged == Logged(store(p.kind, o).error)
  {
    var value := store(p.kind, o);
    if value.Err? {
      return Logged(value.error);
    }
    args[index] := value.value;
    return [];
  }

  /** The write-back loop: the k-th reference parameter from tuple element 1 + k, stopping after the last one. */
  method WriteRefs(store: Setter, params: seq<ParamDesc>, items: seq<PyObj>, args: array<NativeValue>, refs: nat)
    returns (logged: seq<PyError>)
    requires args.Length == |params| && refs == RefsBefore(params, |params|) && |items| == 1 + refs
    modifies args
    ensures Writes(args[..], logged) == WriteBack(store, params, items, old(args[..]), |params|)
  {
    logged := [];
    var index, k := 0, 0;
    while index < |params|
      invariant 0 <= index <= |params| && k == RefsBefore(params, index)
      invariant RefsBefore(params, index) <= refs
      invariant Writes(args[..], logged) == WriteBack(store, params, items, old(args[..]), index)
    {
      RefsBeforeGrows(params, index + 1, |params|);
      var p := params[index];
      if p.isRef {
        var more := SetRefParam(store, p, items[1 + k], args, index);
        logged := logged + more;
        k := k + 1;
        if k == refs {
          WriteBackDone(store, params, items, old(args[..]), index + 1, |params|);
          return;
        }
      }
      index := index + 1;
    }
  }

  /**
   * `InternalCall`: the arguments are converted, the Python function is
   * called, and the reference results and the return value are written back.
   */
  method InternalCall(env: Env, m: MethodDesc, callee: Callee, args: array<NativeValue>) returns (ret: NativeValue, logged: seq<PyError>)
    requires CallbackSignature(m) && args.Length == |m.params|
    modifies args
    ensures CallbackResult(ret, args[..], logged) == InternalCallSpec(env, m, callee, old(args[..]))
  {
    var conv, store := ConvFor(env), SetFor(env);
    var fallback := FallbackReturn(m.ret.kind);
    var argTuple, refs := ConvertArgs(conv, m.params, args);
    if argTuple.Err? {
      return fallback, Logged(argTuple.error);
    }
    var result := callee(argTuple.value);
    if result.Err? {
      return fallback, [result.error];
    }
    var returnObject := result.value;
    logged := [];
    if refs != 0 {
      if !(returnObject.body.TupleBody? && returnObject.body.exact) {
        return fallback, [TypeErrorFor("Expected tuple as return value", returnObject)];
      }
      var items := returnObject.body.items;
      if |items| != 1 + refs {
        return fallback, [WrongSize(|items|, 1 + refs)];
      }
      logged := WriteRefs(store, m.params, items, args, refs);
      returnObject := items[0];
    }
    if m.ret.kind == Void {
      return VNone, logged;
    }
    var value := store(m.ret.kind, returnObject);
    if value.Err? {
      return fallback, logged + Logged(value.error);
    }
    return value.value, logged;
  }
}
