/**
 * `ExternalCall`: Python calling a native function. The argument tuple is
 * checked against the signature, each argument is pushed into an
 * `ArgsScope`, the native function runs, and its return value (with the
 * final values of the by-reference arguments, as a tuple, when there are
 * any) goes back to Python.
 *
 * The source picks a function per parameter, `PushObjectAsRefParam` or
 * `PushObjectAsParam` to push it and `StorageValueToEnumObject` or
 * `StorageValueToObject` to read its result back. The call is stated over
 * those two choices (`Pusher`, `Reader`) and the properties it needs of
 * them; `PushFor` and `ReaderFor` are the module's own.
 */
module External {
  import opened Python
  import opened Ranges
  import opened Kinds
  import opened Convert
  import opened Create
  import opened Marshal
  import opened Scope

  datatype MethodDesc = MethodDesc(funcName: string, params: seq<ParamDesc>, ret: ParamDesc)

  /**
   * What the native function does: the value it returns, and the values it
   * stores through the pointers it was given, by storage index.
   */
  datatype NativeResult = NativeResult(ret: NativeValue, writes: map<nat, NativeValue>)

  /** A reading that can be defined, or reinterprets memory as another type. */
  datatype Outcome<T> = Defined(result: Result<T>) | Undefined

  /**
   * A native function returns values of its declared kind (a hidden return
   * is read from its cell instead, and an invalid kind is never called).
   */
  ghost predicate HonoursSignature(native: (seq<Arg>, seq<Cell>) -> NativeResult, k: ValueType)
  {
    k == ValueType.Invalid || IsHiddenParam(k) || forall a, c :: OfKind(native(a, c).ret, k)
  }

  // ---- The storage layout ----

  /** A parameter whose push allocates a cell: every reference, and the pointer-passed kinds by value. */
  predicate HasCell(p: ParamDesc)
  {
    p.isRef || IsObjectKind(p.kind)
  }

  /** The number of reference parameters before position i. */
  function RefsBefore(params: seq<ParamDesc>, i: nat): (n: nat)
    requires i <= |params|
    ensures n <= i
  {
    if i == 0 then 0 else RefsBefore(params, i - 1) + (if params[i - 1].isRef then 1 else 0)
  }

  /** The number of cells allocated for the parameters before position i. */
  function CellsBefore(params: seq<ParamDesc>, i: nat): (n: nat)
    requires i <= |params|
    ensures n <= i
  {
    if i == 0 then 0 else CellsBefore(params, i - 1) + (if HasCell(params[i - 1]) then 1 else 0)
  }

  /** Cells are allocated at least once per reference, so the refs-so-far count never runs ahead of the cells-so-far count. */
  lemma {:induction false} RefsNoMoreThanCells(params: seq<ParamDesc>, i: nat)
    requires i <= |params|
    ensures RefsBefore(params, i) <= CellsBefore(params, i)
  {
    if i > 0 {
      RefsNoMoreThanCells(params, i - 1);
    }
  }

  /** Which storage cell the result of the reference parameter at position i is read from. */
  datatype Rule = AsWritten | Corrected

  function CellIndex(rule: Rule, hidden: nat, params: seq<ParamDesc>, i: nat): (c: nat)
    requires i <= |params|
    ensures hidden <= c <= hidden + i
    ensures rule == AsWritten ==> c <= hidden + CellsBefore(params, i)
  {
    RefsNoMoreThanCells(params, i);
    match rule
    case AsWritten => hidden + RefsBefore(params, i)
    case Corrected => hidden + CellsBefore(params, i)
  }

  // ---- The per-parameter functions ----

  /** The conversion that pushes one argument for its parameter. */
  type Pusher = (ParamDesc, PyObj) -> Result<Pushed>

  /** `PushObjectAsRefParam` for a reference parameter, `PushObjectAsParam` otherwise. */
  function PushedFor(env: Env, p: ParamDesc, o: PyObj): Result<Pushed>
  {
    if p.isRef then PushedByRef(env, p.kind, o) else PushedByValue(env, p.kind, o)
  }

  function PushFor(env: Env): Pusher
  {
    (p: ParamDesc, o: PyObj) => PushedFor(env, p, o)
  }

  /** A push puts the argument in a cell exactly when its parameter has one, and the cell holds a value of the parameter's kind. */
  ghost predicate PushesIntoCells(push: Pusher)
  {
    forall p, o :: push(p, o).Ok? ==>
      (push(p, o).value.InCell? <==> HasCell(p)) &&
      (push(p, o).value.InCell? ==> IsStorable(p.kind) && OfKind(push(p, o).value.value, p.kind))
  }

  lemma PushForPushesIntoCells(env: Env)
    ensures PushesIntoCells(PushFor(env))
  {
    forall p, o | PushFor(env)(p, o).Ok?
      ensures (PushFor(env)(p, o).value.InCell? <==> HasCell(p))
      ensures PushFor(env)(p, o).value.InCell? ==> IsStorable(p.kind) && OfKind(PushFor(env)(p, o).value.value, p.kind)
    {
      assert PushFor(env)(p, o) == PushedFor(env, p, o);
    }
  }

  /** The conversion that reads one reference result back from its cell. */
  type Reader = (ParamDesc, Cell) -> Outcome<PyObj>

  /**
   * `StorageValueToObject` / `StorageValueToEnumObject`: the cell read as the
   * parameter's own type. A cell allocated as another kind is read through
   * the wrong type, which is undefined.
   */
  function ReadCell(env: Env, p: ParamDesc, c: Cell): (r: Outcome<PyObj>)
    ensures CellOk(c) && c.kind == p.kind ==> r.Defined?
  {
    if c.kind != p.kind || !CellOk(c) then Undefined
    else
      match p.enumId
      case Some(id) =>
        if IsEnumKind(p.kind) then Defined(EnumToObject(env, id, p.kind, c.value))
        else Defined(Err(PyError(RuntimeError, "StorageValueToObject unsupported enum type")))
      case NoValue =>
        if p.kind == ValueType.Function then Defined(Err(PyError(RuntimeError, "StorageValueToObject unsupported type")))
        else Defined(CreatePyObject(c.value))
  }

  function ReaderFor(env: Env): Reader
  {
    (p: ParamDesc, c: Cell) => ReadCell(env, p, c)
  }

  /** A cell of the parameter's own kind is always read with a defined outcome. */
  ghost predicate ReadsOwnKind(read: Reader)
  {
    forall p: ParamDesc, c: Cell :: CellOk(c) && c.kind == p.kind ==> read(p, c).Defined?
  }

  lemma ReaderForReadsOwnKind(env: Env)
    ensures ReadsOwnKind(ReaderFor(env))
  {
    forall p: ParamDesc, c: Cell | CellOk(c) && c.kind == p.kind
      ensures ReaderFor(env)(p, c).Defined?
    {
      assert ReaderFor(env)(p, c) == ReadCell(env, p, c);
    }
  }

  // ---- Pushing the arguments ----

  datatype State = State(args: seq<Arg>, storage: seq<Cell>)

  predicate StateOk(st: State)
  {
    forall j :: 0 <= j < |st.storage| ==> CellOk(st.storage[j])
  }

  /** The scope after `BeginExternalCall`, or empty when the return is not hidden. */
  function Initial(ret: ValueType): (st: State)
    ensures StateOk(st)
    ensures |st.storage| == (if IsHiddenParam(ret) then 1 else 0)
    ensures IsHiddenParam(ret) ==> st.storage[0].kind == ret
  {
    if IsHiddenParam(ret) then State([Indirect(0)], [Cell(FallbackReturn(ret), ret)]) else State([], [])
  }

  /** One argument pushed: into its slot, or into a new cell its slot points to. */
  function Push(push: Pusher, p: ParamDesc, o: PyObj, st: State): (r: Result<State>)
    requires StateOk(st) && PushesIntoCells(push)
    ensures r.Ok? ==> StateOk(r.value)
    ensures r.Ok? ==> (|r.value.storage| == |st.storage| + (if HasCell(p) then 1 else 0) &&
                      r.value.storage[..|st.storage|] == st.storage)
    ensures r.Ok? && HasCell(p) ==> r.value.storage[|st.storage|].kind == p.kind
  {
    match push(p, o)
    case Err(e) => Err(e)
    case Ok(InSlot(v)) => Ok(State(st.args + [Direct(v)], st.storage))
    case Ok(InCell(v)) => Ok(State(st.args + [Indirect(|st.storage|)], st.storage + [Cell(v, p.kind)]))
  }

  /** The first n arguments pushed in order, stopping at the first failure. */
  function PushPrefix(push: Pusher, params: seq<ParamDesc>, items: seq<PyObj>, init: State, n: nat): (r: Result<State>)
    requires n <= |params| == |items| && StateOk(init) && PushesIntoCells(push)
    ensures r.Ok? ==> StateOk(r.value)
    ensures r.Ok? ==> (|r.value.storage| == |init.storage| + CellsBefore(params, n) &&
                      r.value.storage[..|init.storage|] == init.storage)
  {
    if n == 0 then Ok(init)
    else
      match PushPrefix(push, params, items, init, n - 1)
      case Err(e) => Err(e)
      case Ok(st) => Push(push, params[n - 1], items[n - 1], st)
  }

  /** Every parameter with a cell among the first n owns the cell at `CellIndex(Corrected, ...)`, allocated with its kind. */
  predicate OwnsCells(params: seq<ParamDesc>, base: nat, storage: seq<Cell>, n: nat)
    requires n <= |params|
  {
    forall i :: 0 <= i < n && HasCell(params[i]) ==>
      (base + CellsBefore(params, i) < |storage| && storage[base + CellsBefore(params, i)].kind == params[i].kind)
  }

  /** The cell owned by the parameter at position i. */
  lemma OwnedCell(params: seq<ParamDesc>, base: nat, storage: seq<Cell>, i: nat)
    requires i < |params| && OwnsCells(params, base, storage, |params|) && HasCell(params[i])
    ensures base + CellsBefore(params, i) < |storage| && storage[base + CellsBefore(params, i)].kind == params[i].kind
  {
  }

  /** One more push keeps the earlier cells where they were and puts the new one at the end. */
  lemma OwnsCellsStep(params: seq<ParamDesc>, base: nat, st: seq<Cell>, st': seq<Cell>, n: nat)
    requires 0 < n <= |params| && OwnsCells(params, base, st, n - 1)
    requires |st| == base + CellsBefore(params, n - 1)
    requires |st'| == |st| + (if HasCell(params[n - 1]) then 1 else 0) && st'[..|st|] == st
    requires HasCell(params[n - 1]) ==> st'[|st|].kind == params[n - 1].kind
    ensures OwnsCells(params, base, st', n)
  {
    forall i | 0 <= i < n && HasCell(params[i])
      ensures base + CellsBefore(params, i) < |st'|
      ensures st'[base + CellsBefore(params, i)].kind == params[i].kind
    {
      if i < n - 1 {
        assert st'[base + CellsBefore(params, i)] == st[base + CellsBefore(params, i)];
      }
    }
  }

  /** After a successful push, each parameter's cell sits where `CellIndex(Corrected, ...)` says. */
  lemma {:induction false} PushPrefixOwnsCells(push: Pusher, params: seq<ParamDesc>, items: seq<PyObj>, init: State, n: nat)
    requires n <= |params| == |items| && StateOk(init) && PushesIntoCells(push)
    requires PushPrefix(push, params, items, init, n).Ok?
    ensures OwnsCells(params, |init.storage|, PushPrefix(push, params, items, init, n).value.storage, n)
  {
    if n > 0 {
      PushPrefixOwnsCells(push, params, items, init, n - 1);
      var st := PushPrefix(push, params, items, init, n - 1).value;
      var st' := Push(push, params[n - 1], items[n - 1], st).value;
      assert PushPrefix(push, params, items, init, n).value == st';
      OwnsCellsStep(params, |init.storage|, st.storage, st'.storage, n);
    }
  }

  /** A failed push ends the pushing: the failure is the outcome of every longer prefix. */
  lemma {:induction false} PushErrorPersists(push: Pusher, params: seq<ParamDesc>, items: seq<PyObj>, init: State, i: nat, n: nat)
    requires i <= n <= |params| == |items| && StateOk(init) && PushesIntoCells(push)
    requires PushPrefix(push, params, items, init, i).Err?
    ensures PushPrefix(push, params, items, init, n) == PushPrefix(push, params, items, init, i)
    decreases n
  {
    if n > i {
      PushErrorPersists(push, params, items, init, i, n - 1);
    }
  }

  // ---- The results ----

  /** `MakeExternalCallWithEnumObject` and `MakeExternalCallWithObject` after the call returned v. */
  function ReturnObject(env: Env, ret: ParamDesc, v: NativeValue): (r: Result<PyObj>)
    requires OfKind(v, ret.kind) || ret.kind == ValueType.Invalid
    ensures ret.enumId.NoValue? && ret.kind == Void ==> r == Ok(PyNone)
    ensures ret.enumId.NoValue? && ret.kind == ValueType.Invalid ==> r.Err? && r.error.kind == RuntimeError
    ensures ret.enumId.NoValue? && ret.kind !in {Void, ValueType.Invalid} ==> r == NativeToObject(env, ret.kind, v)
  {
    match ret.enumId
    case Some(id) =>
      if IsEnumKind(ret.kind) then EnumToObject(env, id, ret.kind, v)
      else Err(PyError(RuntimeError, "MakeExternalCallWithEnumObject unsupported enum type"))
    case NoValue =>
      if ret.kind == Void then Ok(PyNone)
      else if ret.kind == ValueType.Invalid then Err(PyError(RuntimeError, "MakeExternalCallWithObject unsupported type"))
      else NativeToObject(env, ret.kind, v)
  }

  /** One more reference result appended to those read so far. */
  function ReadInto(read: Reader, p: ParamDesc, c: Cell, objs: seq<PyObj>): (r: Outcome<seq<PyObj>>)
    ensures r.Defined? && r.result.Ok? ==>
      read(p, c).Defined? && read(p, c).result.Ok? && r.result.value == objs + [read(p, c).result.value]
  {
    match read(p, c)
    case Undefined => Undefined
    case Defined(Err(e)) => Defined(Err(e))
    case Defined(Ok(o)) => Defined(Ok(objs + [o]))
  }

  /** The objects for the reference parameters among the first n, read with the given rule. */
  function RefsPrefix(read: Reader, params: seq<ParamDesc>, storage: seq<Cell>, rule: Rule, hidden: nat, n: nat): (r: Outcome<seq<PyObj>>)
    requires n <= |params|
    ensures r.Defined? && r.result.Ok? ==> |r.result.value| == RefsBefore(params, n)
  {
    if n == 0 then Defined(Ok([]))
    else
      match RefsPrefix(read, params, storage, rule, hidden, n - 1)
      case Undefined => Undefined
      case Defined(Err(e)) => Defined(Err(e))
      case Defined(Ok(objs)) =>
        if !params[n - 1].isRef then Defined(Ok(objs))
        else
          var j := CellIndex(rule, hidden, params, n - 1);
          if j >= |storage| then Undefined else ReadInto(read, params[n - 1], storage[j], objs)
  }

  /** The decimal digits of n, as `std::format` writes an integer. */
  function NatToString(n: nat): (s: string)
    ensures |s| > 0
    decreases n
  {
    var digit := "0123456789"[n % 10];
    if n < 10 then [digit] else NatToString(n / 10) + [digit]
  }

  /**
   * The pushed arguments handed to the native function: the return value
   * (read from the hidden cell when there is one) and the storage it leaves.
   */
  function CallNative(native: (seq<Arg>, seq<Cell>) -> NativeResult, st: State, ret: ValueType): (r: (NativeValue, seq<Cell>))
    requires StateOk(st) && HonoursSignature(native, ret)
    requires IsHiddenParam(ret) ==> |st.storage| > 0 && st.storage[0].kind == ret
    ensures OfKind(r.0, ret) || ret == ValueType.Invalid
    ensures |r.1| == |st.storage| && forall j :: 0 <= j < |r.1| ==> CellOk(r.1[j]) && r.1[j].kind == st.storage[j].kind
  {
    var res := native(st.args, st.storage);
    var storage := ApplyWrites(st.storage, res.writes);
    (if IsHiddenParam(ret) then storage[0].value else res.ret, storage)
  }

  /** The value returned to Python: the return object alone, or with the reference results in a tuple. */
  function Results(rule: Rule, read: Reader, m: MethodDesc, retObj: PyObj, storage: seq<Cell>, hidden: nat): (r: Outcome<PyObj>)
    ensures r.Defined? && r.result.Ok? && RefsBefore(m.params, |m.params|) > 0 ==>
      (r.result.value.tag == Tuple && r.result.value.body.TupleBody? &&
       |r.result.value.body.items| == 1 + RefsBefore(m.params, |m.params|) && r.result.value.body.items[0] == retObj)
  {
    if RefsBefore(m.params, |m.params|) == 0 then Defined(Ok(retObj))
    else
      match RefsPrefix(read, m.params, storage, rule, hidden, |m.params|)
      case Undefined => Undefined
      case Defined(Err(e)) => Defined(Err(e))
      case Defined(Ok(objs)) => Defined(Ok(MakeTuple([retObj] + objs)))
  }

  /** The error for an argument count that does not match the signature. */
  function WrongCount(size: nat, count: nat): PyError
  {
    PyError(TypeError, "Wrong number of parameters, " + NatToString(size) + " when " + NatToString(count) + " required.")
  }

  /** The error for arguments that are not a tuple. */
  function NotATuple(m: MethodDesc, args: PyObj): PyError
  {
    TypeErrorFor("Function \"" + m.funcName + "\" expects a tuple of arguments", args)
  }

  /** The call itself and the conversion of what it returned, once every argument is pushed. */
  function AfterPush(rule: Rule, read: Reader, env: Env, m: MethodDesc, native: (seq<Arg>, seq<Cell>) -> NativeResult,
                     st: State, hidden: nat): Outcome<PyObj>
    requires StateOk(st) && HonoursSignature(native, m.ret.kind)
    requires IsHiddenParam(m.ret.kind) ==> |st.storage| > 0 && st.storage[0].kind == m.ret.kind
  {
    var called := CallNative(native, st, m.ret.kind);
    match ReturnObject(env, m.ret, called.0)
    case Err(e) => Defined(Err(e))
    case Ok(retObj) => Results(rule, read, m, retObj, called.1, hidden)
  }

  /** `ExternalCall` with the given push and read functions and rule for locating the reference results. */
  function ExternalCallWith(rule: Rule, push: Pusher, read: Reader, env: Env, m: MethodDesc,
                            native: (seq<Arg>, seq<Cell>) -> NativeResult, args: PyObj): (r: Outcome<PyObj>)
    requires HonoursSignature(native, m.ret.kind) && PushesIntoCells(push)
    ensures !args.body.TupleBody? ==> r == Defined(Err(NotATuple(m, args)))
    ensures args.body.TupleBody? && |args.body.items| != |m.params| ==>
      r == Defined(Err(WrongCount(|args.body.items|, |m.params|)))
  {
    if !args.body.TupleBody? then
      Defined(Err(NotATuple(m, args)))
    else if |args.body.items| != |m.params| then
      Defined(Err(WrongCount(|args.body.items|, |m.params|)))
    else
      var init := Initial(m.ret.kind);
      match PushPrefix(push, m.params, args.body.items, init, |m.params|)
      case Err(e) => Defined(Err(e))
      case Ok(st) => AfterPush(rule, read, env, m, native, st, |init.storage|)
  }

  /** `ExternalCall` as the source writes it: the k-th reference result is read from cell hidden + k. */
  function ExternalCallAsWritten(env: Env, m: MethodDesc, native: (seq<Arg>, seq<Cell>) -> NativeResult, args: PyObj): (r: Outcome<PyObj>)
    requires HonoursSignature(native, m.ret.kind)
    ensures !args.body.TupleBody? ==> r == Defined(Err(NotATuple(m, args)))
    ensures args.body.TupleBody? && |args.body.items| != |m.params| ==>
      r == Defined(Err(WrongCount(|args.body.items|, |m.params|)))
  {
    PushForPushesIntoCells(env);
    ExternalCallWith(AsWritten, PushFor(env), ReaderFor(env), env, m, native, args)
  }

  /** `ExternalCall` reading each reference result from the cell its push allocated. */
  function ExternalCallSpec(env: Env, m: MethodDesc, native: (seq<Arg>, seq<Cell>) -> NativeResult, args: PyObj): (r: Outcome<PyObj>)
    requires HonoursSignature(native, m.ret.kind)
    ensures !args.body.TupleBody? ==> r == Defined(Err(NotATuple(m, args)))
    ensures args.body.TupleBody? && |args.body.items| != |m.params| ==>
      r == Defined(Err(WrongCount(|args.body.items|, |m.params|)))
  {
    PushForPushesIntoCells(env);
    ExternalCallWith(Corrected, PushFor(env), ReaderFor(env), env, m, native, args)
  }

  // ---- What the two rules read ----

  /** With every reference parameter owning its cell, reading by the corrected rule is always defined. */
  lemma {:induction false} RefsPrefixDefined(read: Reader, params: seq<ParamDesc>, storage: seq<Cell>, hidden: nat, n: nat)
    requires n <= |params| && ReadsOwnKind(read)
    requires forall j :: 0 <= j < |storage| ==> CellOk(storage[j])
    requires OwnsCells(params, hidden, storage, |params|)
    ensures RefsPrefix(read, params, storage, Corrected, hidden, n).Defined?
  {
    if n > 0 {
      RefsPrefixDefined(read, params, storage, hidden, n - 1);
      if params[n - 1].isRef {
        OwnedCell(params, hidden, storage, n - 1);
      }
    }
  }

  /** The call leaves every cell with the kind it was allocated as. */
  lemma CallKeepsOwnership(native: (seq<Arg>, seq<Cell>) -> NativeResult, st: State, ret: ValueType, params: seq<ParamDesc>, hidden: nat)
    requires StateOk(st) && HonoursSignature(native, ret)
    requires IsHiddenParam(ret) ==> |st.storage| > 0 && st.storage[0].kind == ret
    requires OwnsCells(params, hidden, st.storage, |params|)
    ensures OwnsCells(params, hidden, CallNative(native, st, ret).1, |params|)
  {
    var after := CallNative(native, st, ret).1;
    forall i | 0 <= i < |params| && HasCell(params[i])
      ensures hidden + CellsBefore(params, i) < |after|
      ensures after[hidden + CellsBefore(params, i)].kind == params[i].kind
    {
      OwnedCell(params, hidden, st.storage, i);
    }
  }

  /** Once every reference parameter owns its cell, the corrected reading after the call is defined. */
  lemma AfterPushDefined(read: Reader, env: Env, m: MethodDesc, native: (seq<Arg>, seq<Cell>) -> NativeResult, st: State, hidden: nat)
    requires StateOk(st) && HonoursSignature(native, m.ret.kind) && ReadsOwnKind(read)
    requires IsHiddenParam(m.ret.kind) ==> |st.storage| > 0 && st.storage[0].kind == m.ret.kind
    requires OwnsCells(m.params, hidden, st.storage, |m.params|)
    ensures AfterPush(Corrected, read, env, m, native, st, hidden).Defined?
  {
    var called := CallNative(native, st, m.ret.kind);
    CallKeepsOwnership(native, st, m.ret.kind, m.params, hidden);
    RefsPrefixDefined(read, m.params, called.1, hidden, |m.params|);
  }

  /**
   * Reading each reference result from the cell its push allocated never
   * reinterprets a cell as another type: with a push that allocates cells as
   * the signature says and a read that is defined on its own kind, the
   * corrected `ExternalCall` always has a defined outcome.
   */
  lemma CorrectedIsDefined(push: Pusher, read: Reader, env: Env, m: MethodDesc, native: (seq<Arg>, seq<Cell>) -> NativeResult, args: PyObj)
    requires HonoursSignature(native, m.ret.kind) && PushesIntoCells(push) && ReadsOwnKind(read)
    ensures ExternalCallWith(Corrected, push, read, env, m, native, args).Defined?
  {
    if args.body.TupleBody? && |args.body.items| == |m.params| {
      var init := Initial(m.ret.kind);
      var pushed := PushPrefix(push, m.params, args.body.items, init, |m.params|);
      if pushed.Ok? {
        PushPrefixOwnsCells(push, m.params, args.body.items, init, |m.params|);
        AfterPushDefined(read, env, m, native, pushed.value, |init.storage|);
      }
    }
  }

  /** The module's own push and read functions meet those conditions: the corrected call is always defined. */
  lemma CorrectedNeverUndefined(env: Env, m: MethodDesc, native: (seq<Arg>, seq<Cell>) -> NativeResult, args: PyObj)
    requires HonoursSignature(native, m.ret.kind)
    ensures ExternalCallSpec(env, m, native, args).Defined?
  {
    PushForPushesIntoCells(env);
    ReaderForReadsOwnKind(env);
    CorrectedIsDefined(PushFor(env), ReaderFor(env), env, m, native, args);
  }

  /** When only reference parameters own cells, the refs-so-far count is the cells-so-far count. */
  lemma {:induction false} CountsAgree(params: seq<ParamDesc>, i: nat)
    requires i <= |params|
    requires forall k :: 0 <= k < |params| && HasCell(params[k]) ==> params[k].isRef
    ensures RefsBefore(params, i) == CellsBefore(params, i)
  {
    if i > 0 {
      CountsAgree(params, i - 1);
    }
  }

  lemma {:induction false} RefsPrefixRulesAgree(read: Reader, params: seq<ParamDesc>, storage: seq<Cell>, hidden: nat, n: nat)
    requires n <= |params|
    requires forall k :: 0 <= k < |params| && HasCell(params[k]) ==> params[k].isRef
    ensures RefsPrefix(read, params, storage, AsWritten, hidden, n) == RefsPrefix(read, params, storage, Corrected, hidden, n)
  {
    if n > 0 {
      RefsPrefixRulesAgree(read, params, storage, hidden, n - 1);
      CountsAgree(params, n - 1);
    }
  }

  /**
   * The source's reading is right exactly where no argument passed by value
   * owns a cell: with no string, `any`, array, vector or matrix among the
   * by-value parameters the two rules give the same outcome.
   */
  lemma RulesAgreeWithoutValueCells(env: Env, m: MethodDesc, native: (seq<Arg>, seq<Cell>) -> NativeResult, args: PyObj)
    requires HonoursSignature(native, m.ret.kind)
    requires forall k :: 0 <= k < |m.params| && HasCell(m.params[k]) ==> m.params[k].isRef
    ensures ExternalCallAsWritten(env, m, native, args) == ExternalCallSpec(env, m, native, args)
  {
    PushForPushesIntoCells(env);
    var push, read := PushFor(env), ReaderFor(env);
    if args.body.TupleBody? && |args.body.items| == |m.params| {
      var init := Initial(m.ret.kind);
      var pushed := PushPrefix(push, m.params, args.body.items, init, |m.params|);
      if pushed.Ok? {
        var called := CallNative(native, pushed.value, m.ret.kind);
        RefsPrefixRulesAgree(read, m.params, called.1, |init.storage|, |m.params|);
        assert AfterPush(AsWritten, read, env, m, native, pushed.value, |init.storage|) ==
               AfterPush(Corrected, read, env, m, native, pushed.value, |init.storage|);
      }
    }
  }

  // ---- A call the source answers wrongly ----

  /** A signature `void f(string s, string& out)`. */
  const StringThenRef: MethodDesc :=
    MethodDesc("f", [ParamDesc(String, false, NoValue), ParamDesc(String, true, NoValue)], ParamDesc(Void, false, NoValue))

  /** f("a", "b"), where f stores "c" into `out`. */
  const StoresC: (seq<Arg>, seq<Cell>) -> NativeResult := (a: seq<Arg>, c: seq<Cell>) => NativeResult(VNone, map[1 := VString([0x63])])
  const ArgsAB: PyObj := MakeTuple([MakeStr(1, [0x61]), MakeStr(1, [0x62])])

  /** The scope once both arguments are pushed: the by-value string owns cell 0 and `out` cell 1. */
  const PushedAB: State := State([Indirect(0), Indirect(1)], [Cell(VString([0x61]), String), Cell(VString([0x62]), String)])

  /** The storage f leaves: "c" in `out`'s cell, the by-value cell as it was. */
  const LeftByC: seq<Cell> := [Cell(VString([0x61]), String), Cell(VString([0x63]), String)]

  /** The module's push function puts "a" and "b" each into a cell of their own. */
  lemma PushForAB(env: Env)
    ensures PushFor(env)(StringThenRef.params[0], ArgsAB.body.items[0]) == Ok(InCell(VString([0x61])))
    ensures PushFor(env)(StringThenRef.params[1], ArgsAB.body.items[1]) == Ok(InCell(VString([0x62])))
  {
    var items := ArgsAB.body.items;
    assert StringFromObject(items[0]) == Ok(VString([0x61]));
    assert StringFromObject(items[1]) == Ok(VString([0x62]));
    assert PushFor(env)(StringThenRef.params[0], items[0]) == PushedByValue(env, String, items[0]);
    assert PushFor(env)(StringThenRef.params[1], items[1]) == PushedByRef(env, String, items[1]);
  }

  /** Pushing "a" by value and "b" by reference, each into a cell, leaves `PushedAB`. */
  lemma PushesAB(push: Pusher)
    requires PushesIntoCells(push)
    requires push(StringThenRef.params[0], ArgsAB.body.items[0]) == Ok(InCell(VString([0x61])))
    requires push(StringThenRef.params[1], ArgsAB.body.items[1]) == Ok(InCell(VString([0x62])))
    ensures PushPrefix(push, StringThenRef.params, ArgsAB.body.items, State([], []), 2) == Ok(PushedAB)
  {
    var items := ArgsAB.body.items;
    var st1 := State([Indirect(0)], [Cell(VString([0x61]), String)]);
    assert PushPrefix(push, StringThenRef.params, items, State([], []), 0) == Ok(State([], []));
    assert [] + [Indirect(0)] == [Indirect(0)] && [] + [Cell(VString([0x61]), String)] == [Cell(VString([0x61]), String)];
    assert PushPrefix(push, StringThenRef.params, items, State([], []), 1) == Ok(st1);
    var r2 := Push(push, StringThenRef.params[1], items[1], st1);
    assert st1.args + [Indirect(1)] == PushedAB.args && st1.storage + [Cell(VString([0x62]), String)] == PushedAB.storage;
    assert r2 == Ok(PushedAB);
  }

  /** f honours its `void` signature, and the pushed cells hold valid strings. */
  lemma StoresCFits()
    ensures HonoursSignature(StoresC, Void) && StateOk(PushedAB)
  {
  }

  lemma CallStoresC()
    ensures CallNative(StoresC, PushedAB, Void) == (VNone, LeftByC)
  {
    var writes := StoresC(PushedAB.args, PushedAB.storage).writes;
    assert writes == map[1 := VString([0x63])];
    var after := ApplyWrites(PushedAB.storage, writes);
    assert after[0] == LeftByC[0];
    assert after[1] == LeftByC[1];
    assert after == LeftByC;
  }

  /** A one-character ASCII string read back from a cell. */
  lemma ReadsLetter(env: Env, c: bv8)
    requires c < 0x80
    ensures ReaderFor(env)(StringThenRef.params[1], Cell(VString([c]), String)) == Defined(Ok(MakeStr(1, [c])))
  {
    Utf.OneCharacter([c]);
    assert CreatePyObject(VString([c])) == Ok(MakeStr(1, [c]));
    assert ReaderFor(env)(StringThenRef.params[1], Cell(VString([c]), String)) ==
      ReadCell(env, StringThenRef.params[1], Cell(VString([c]), String));
  }

  /** The source reads `out`'s result from cell 0; the cell `out` owns is cell 1. */
  lemma ReadsAfterC(read: Reader, rule: Rule)
    requires read(StringThenRef.params[1], LeftByC[0]) == Defined(Ok(MakeStr(1, [0x61])))
    requires read(StringThenRef.params[1], LeftByC[1]) == Defined(Ok(MakeStr(1, [0x63])))
    ensures rule == AsWritten ==>
      RefsPrefix(read, StringThenRef.params, LeftByC, rule, 0, 2) == Defined(Ok([MakeStr(1, [0x61])]))
    ensures rule == Corrected ==>
      RefsPrefix(read, StringThenRef.params, LeftByC, rule, 0, 2) == Defined(Ok([MakeStr(1, [0x63])]))
  {
    var params := StringThenRef.params;
    assert RefsPrefix(read, params, LeftByC, rule, 0, 1) == Defined(Ok([]));
    var j := CellIndex(rule, 0, params, 1);
    assert j == (if rule == AsWritten then 0 else 1) by {
      assert RefsBefore(params, 1) == 0 && CellsBefore(params, 1) == 1;
    }
    assert params[1].isRef;
    assert RefsPrefix(read, params, LeftByC, rule, 0, 2) == ReadInto(read, params[1], LeftByC[j], []);
    assert [] + [read(params[1], LeftByC[j]).result.value] == [read(params[1], LeftByC[j]).result.value];
  }

  /** What the rule returns once f has run, when it reads x for `out`. */
  lemma AfterPushAB(rule: Rule, read: Reader, env: Env, x: PyObj)
    requires HonoursSignature(StoresC, Void) && StateOk(PushedAB)
    requires RefsPrefix(read, StringThenRef.params, LeftByC, rule, 0, 2) == Defined(Ok([x]))
    ensures AfterPush(rule, read, env, StringThenRef, StoresC, PushedAB, 0) == Defined(Ok(MakeTuple([PyNone, x])))
  {
    CallStoresC();
    assert ReturnObject(env, StringThenRef.ret, VNone) == Ok(PyNone);
    assert RefsBefore(StringThenRef.params, 2) == 1;
    assert [PyNone] + [x] == [PyNone, x];
  }

  /** Either rule's call on ("a", "b") pushes both arguments and calls f. */
  lemma CallsWithAB(rule: Rule, push: Pusher, read: Reader, env: Env)
    requires HonoursSignature(StoresC, Void) && StateOk(PushedAB) && PushesIntoCells(push)
    requires PushPrefix(push, StringThenRef.params, ArgsAB.body.items, State([], []), 2) == Ok(PushedAB)
    ensures ExternalCallWith(rule, push, read, env, StringThenRef, StoresC, ArgsAB) ==
      AfterPush(rule, read, env, StringThenRef, StoresC, PushedAB, 0)
  {
    assert ArgsAB.body.TupleBody? && |ArgsAB.body.items| == |StringThenRef.params| == 2;
    assert Initial(Void) == State([], []);
  }

  /** The two rules' answers for f("a", "b"), with any push and read functions that agree with the module's on it. */
  lemma RulesDisagreeOnAB(push: Pusher, read: Reader, env: Env)
    requires HonoursSignature(StoresC, Void) && StateOk(PushedAB) && PushesIntoCells(push)
    requires PushPrefix(push, StringThenRef.params, ArgsAB.body.items, State([], []), 2) == Ok(PushedAB)
    requires read(StringThenRef.params[1], LeftByC[0]) == Defined(Ok(MakeStr(1, [0x61])))
    requires read(StringThenRef.params[1], LeftByC[1]) == Defined(Ok(MakeStr(1, [0x63])))
    ensures ExternalCallWith(AsWritten, push, read, env, StringThenRef, StoresC, ArgsAB) ==
      Defined(Ok(MakeTuple([PyNone, MakeStr(1, [0x61])])))
    ensures ExternalCallWith(Corrected, push, read, env, StringThenRef, StoresC, ArgsAB) ==
      Defined(Ok(MakeTuple([PyNone, MakeStr(1, [0x63])])))
  {
    CallsWithAB(AsWritten, push, read, env);
    ReadsAfterC(read, AsWritten);
    AfterPushAB(AsWritten, read, env, MakeStr(1, [0x61]));
    CallsWithAB(Corrected, push, read, env);
    ReadsAfterC(read, Corrected);
    AfterPushAB(Corrected, read, env, MakeStr(1, [0x63]));
  }

  /**
   * f("a", "b") where f stores "c" into `out`: the source reads `out`'s
   * result from cell 0, the by-value argument's cell, and so returns "a" in
   * place of the "c" f wrote.
   */
  lemma ExternalCallReadsWrongCell(env: Env)
    ensures ExternalCallAsWritten(env, StringThenRef, StoresC, ArgsAB) == Defined(Ok(MakeTuple([PyNone, MakeStr(1, [0x61])])))
    ensures ExternalCallSpec(env, StringThenRef, StoresC, ArgsAB) == Defined(Ok(MakeTuple([PyNone, MakeStr(1, [0x63])])))
  {
    StoresCFits();
    PushForPushesIntoCells(env);
    PushForAB(env);
    PushesAB(PushFor(env));
    ReadsLetter(env, 0x61);
    ReadsLetter(env, 0x63);
    RulesDisagreeOnAB(PushFor(env), ReaderFor(env), env);
  }

  // ---- The call, step by step ----

  /** One push more, from the state the first i pushes leave. */
  lemma PushPrefixStep(push: Pusher, params: seq<ParamDesc>, items: seq<PyObj>, init: State, i: nat, st: State)
    requires i < |params| == |items| && StateOk(init) && PushesIntoCells(push)
    requires PushPrefix(push, params, items, init, i) == Ok(st)
    ensures PushPrefix(push, params, items, init, i + 1) == Push(push, params[i], items[i], st)
  {
  }

  /** One argument pushed into the scope, or the error that stops the pushing. */
  method PushOne(a: ArgsScope, push: Pusher, p: ParamDesc, o: PyObj) returns (error: Option<PyError>)
    requires a.Valid() && PushesIntoCells(push)
    modifies a
    ensures a.Valid() && a.released == old(a.released)
    ensures var r := Push(push, p, o, old(State(a.params, a.storage)));
      (error.Some? ==> r == Err(error.value)) && (error.NoValue? ==> r == Ok(State(a.params, a.storage)))
  {
    var pushed := push(p, o);
    if pushed.Err? {
      return Some(pushed.error);
    }
    a.Add(pushed.value, p.kind);
    return NoValue;
  }

  /** The push of argument i, from the state the first i pushes leave. */
  method PushNext(a: ArgsScope, push: Pusher, params: seq<ParamDesc>, items: seq<PyObj>, ghost init: State, i: nat)
    returns (error: Option<PyError>)
    requires i < |params| == |items| && StateOk(init) && PushesIntoCells(push)
    requires a.Valid() && PushPrefix(push, params, items, init, i) == Ok(State(a.params, a.storage))
    modifies a
    ensures a.Valid() && a.released == old(a.released)
    ensures error.Some? ==> PushPrefix(push, params, items, init, |params|) == Err(error.value)
    ensures error.NoValue? ==> PushPrefix(push, params, items, init, i + 1) == Ok(State(a.params, a.storage))
  {
    PushPrefixStep(push, params, items, init, i, State(a.params, a.storage));
    error := PushOne(a, push, params[i], items[i]);
    if error.Some? {
      PushErrorPersists(push, params, items, init, i + 1, |params|);
    }
  }

  /** The push loop of `ExternalCall`: every argument in order, stopping at the first that fails. */
  method PushArguments(a: ArgsScope, push: Pusher, params: seq<ParamDesc>, items: seq<PyObj>, ghost init: State)
    returns (error: Option<PyError>)
    requires |params| == |items| && StateOk(init) && PushesIntoCells(push)
    requires a.Valid() && a.params == init.args && a.storage == init.storage
    modifies a
    ensures a.Valid() && a.released == old(a.released)
    ensures error.Some? ==> PushPrefix(push, params, items, init, |params|) == Err(error.value)
    ensures error.NoValue? ==> PushPrefix(push, params, items, init, |params|) == Ok(State(a.params, a.storage))
  {
    var i := 0;
    while i < |items|
      invariant 0 <= i <= |items| && a.Valid() && a.released == old(a.released)
      invariant PushPrefix(push, params, items, init, i) == Ok(State(a.params, a.storage))
    {
      error := PushNext(a, push, params, items, init, i);
      if error.Some? {
        return;
      }
      i := i + 1;
    }
    return NoValue;
  }

  lemma {:induction false} RefsErrorPersists(read: Reader, params: seq<ParamDesc>, storage: seq<Cell>, hidden: nat, i: nat, n: nat)
    requires i <= n <= |params|
    requires RefsPrefix(read, params, storage, Corrected, hidden, i).Defined?
    requires RefsPrefix(read, params, storage, Corrected, hidden, i).result.Err?
    ensures RefsPrefix(read, params, storage, Corrected, hidden, n) == RefsPrefix(read, params, storage, Corrected, hidden, i)
    decreases n
  {
    if n > i {
      RefsErrorPersists(read, params, storage, hidden, i, n - 1);
    }
  }

  /** The result of parameter i, read from cell j, its own, when it is a reference. */
  method ReadNext(read: Reader, params: seq<ParamDesc>, storage: seq<Cell>, hidden: nat, i: nat, j: nat, objs: seq<PyObj>)
    returns (r: Result<seq<PyObj>>, j': nat)
    requires ReadsOwnKind(read)
    requires forall j :: 0 <= j < |storage| ==> CellOk(storage[j])
    requires i < |params| && OwnsCells(params, hidden, storage, |params|) && j == hidden + CellsBefore(params, i)
    requires RefsPrefix(read, params, storage, Corrected, hidden, i) == Defined(Ok(objs))
    ensures r.Err? ==> RefsPrefix(read, params, storage, Corrected, hidden, |params|) == Defined(r)
    ensures r.Ok? ==> RefsPrefix(read, params, storage, Corrected, hidden, i + 1) == Defined(r)
    ensures j' == hidden + CellsBefore(params, i + 1)
  {
    var p := params[i];
    j' := if HasCell(p) then j + 1 else j;
    if !p.isRef {
      return Ok(objs), j';
    }
    OwnedCell(params, hidden, storage, i);
    var value := read(p, storage[j]);
    if value.result.Err? {
      RefsErrorPersists(read, params, storage, hidden, i + 1, |params|);
      return Err(value.result.error), j';
    }
    return Ok(objs + [value.result.value]), j';
  }

  /** The result loop of `ExternalCall`, reading each reference parameter's own cell. */
  method ReadRefs(read: Reader, params: seq<ParamDesc>, storage: seq<Cell>, hidden: nat) returns (r: Result<seq<PyObj>>)
    requires ReadsOwnKind(read)
    requires forall j :: 0 <= j < |storage| ==> CellOk(storage[j])
    requires OwnsCells(params, hidden, storage, |params|)
    ensures RefsPrefix(read, params, storage, Corrected, hidden, |params|) == Defined(r)
  {
    var objs := [];
    var j := hidden;
    var i := 0;
    while i < |params|
      invariant 0 <= i <= |params|
      invariant j == hidden + CellsBefore(params, i)
      invariant RefsPrefix(read, params, storage, Corrected, hidden, i) == Defined(Ok(objs))
    {
      var next;
      next, j := ReadNext(read, params, storage, hidden, i, j, objs);
      if next.Err? {
        return next;
      }
      objs := next.value;
      i := i + 1;
    }
    return Ok(objs);
  }

  /** The native call on the pushed scope, and the conversion of its return value and reference results. */
  method CallAndCollect(a: ArgsScope, read: Reader, env: Env, m: MethodDesc, native: (seq<Arg>, seq<Cell>) -> NativeResult, hidden: nat)
    returns (r: Outcome<PyObj>)
    requires a.Valid() && HonoursSignature(native, m.ret.kind) && ReadsOwnKind(read)
    requires IsHiddenParam(m.ret.kind) ==> |a.storage| > 0 && a.storage[0].kind == m.ret.kind
    requires OwnsCells(m.params, hidden, a.storage, |m.params|)
    modifies a
    ensures a.Valid() && a.released == old(a.released)
    ensures r == AfterPush(Corrected, read, env, m, native, old(State(a.params, a.storage)), hidden)
  {
    var st := State(a.params, a.storage);
    var res := native(a.params, a.storage);
    a.NativeWrites(res.writes);
    var retValue := if IsHiddenParam(m.ret.kind) then a.storage[0].value else res.ret;
    assert (retValue, a.storage) == CallNative(native, st, m.ret.kind);
    CallKeepsOwnership(native, st, m.ret.kind, m.params, hidden);
    var retObj := ReturnObject(env, m.ret, retValue);
    if retObj.Err? {
      return Defined(Err(retObj.error));
    }
    if RefsBefore(m.params, |m.params|) == 0 {
      return Defined(retObj);
    }
    var refs := ReadRefs(read, m.params, a.storage, hidden);
    r := if refs.Err? then Defined(Err(refs.error)) else Defined(Ok(MakeTuple([retObj.value] + refs.value)));
  }

  /**
   * `ExternalCall`: the arguments are pushed into a scope one by one, the
   * native function runs, and the reference results are read back from the
   * cells their pushes allocated; the scope is released on every path.
   */
  method ExternalCall(env: Env, m: MethodDesc, native: (seq<Arg>, seq<Cell>) -> NativeResult, args: PyObj) returns (r: Result<PyObj>)
    requires HonoursSignature(native, m.ret.kind)
    ensures ExternalCallSpec(env, m, native, args) == Defined(r)
  {
    if !args.body.TupleBody? {
      return Err(NotATuple(m, args));
    }
    if |args.body.items| != |m.params| {
      return Err(WrongCount(|args.body.items|, |m.params|));
    }
    PushForPushesIntoCells(env);
    ReaderForReadsOwnKind(env);
    var push, read := PushFor(env), ReaderFor(env);
    var init := Initial(m.ret.kind);
    var a := new ArgsScope();
    if IsHiddenParam(m.ret.kind) {
      a.BeginExternalCall(m.ret.kind);
    }
    var error := PushArguments(a, push, m.params, args.body.items, init);
    if error.Some? {
      a.Release();
      return Err(error.value);
    }
    PushPrefixOwnsCells(push, m.params, args.body.items, init, |m.params|);
    ghost var st := State(a.params, a.storage);
    assert ExternalCallSpec(env, m, native, args) == AfterPush(Corrected, read, env, m, native, st, |init.storage|);
    AfterPushDefined(read, env, m, native, st, |init.storage|);
    var outcome := CallAndCollect(a, read, env, m, native, |init.storage|);
    r := outcome.result;
    a.Release();
  }
}
