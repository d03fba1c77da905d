/**
 * The function cache: `_externalMap` from a native code address to the
 * Python callable made for it, and `_internalMap` from a Python callable to
 * the native address of the wrapper compiled for it. `GetOrCreateFunctionObject`
 * and `GetOrCreateFunctionValue` consult the cache before asking the JIT for
 * a new wrapper, and record every wrapper they make in both maps.
 *
 * What the JIT and `PyCFunction_New` produce is a parameter of each call:
 * a `Wrapping` for the native-to-Python direction, a `Compiled` for the
 * Python-to-native one.
 */
module Functions {
  import opened Python
  import opened Marshal

  /** The two maps, as a value. */
  datatype Cache = Cache(external: map<Address, PyObj>, internal: map<PyObj, Address>)

  /** What making a Python callable for a native address produced. */
  datatype Wrapping =
    | Wrapped(obj: PyObj)               // call wrapper, PyCFunction wrapper and object all made
    | CallWrapperFailed(reason: string) // `JitCall::GetJitFunc` failed
    | CallbackFailed(reason: string)    // `JitCallback::GetJitFunc` failed
    | ObjectFailed                      // `PyCFunction_New` failed

  /** What compiling a native wrapper for a Python callable produced (`CreateInternalCall`). */
  datatype Compiled = Compiled(addr: Address) | CompileFailed(reason: string)

  /** A lookup's answer and the cache after it. */
  datatype Created<T> = Created(result: Result<T>, cache: Cache)

  /**
   * `AddToFunctionsMap`: `emplace` into both maps, which adds an entry only
   * for a key that has none and never replaces one.
   */
  function Added(c: Cache, a: Address, o: PyObj): (r: Cache)
    ensures a in r.external && o in r.internal
    ensures r.external.Keys == c.external.Keys + {a} && r.internal.Keys == c.internal.Keys + {o}
    ensures forall b :: b in c.external ==> r.external[b] == c.external[b]
    ensures forall p :: p in c.internal ==> r.internal[p] == c.internal[p]
    ensures a !in c.external ==> r.external[a] == o
    ensures o !in c.internal ==> r.internal[o] == a
  {
    Cache(if a in c.external then c.external else c.external[a := o],
          if o in c.internal then c.internal else c.internal[o := a])
  }

  function CallWrapperError(reason: string): PyError
  {
    PyError(RuntimeError, "Lang module JIT failed to generate c++ call wrapper '" + reason + "'")
  }

  function CallbackError(reason: string): PyError
  {
    PyError(RuntimeError, "Lang module JIT failed to generate c++ PyCFunction wrapper '" + reason + "'")
  }

  const ObjectError: PyError := PyError(RuntimeError, "Fail to create function object from function pointer")

  function CompileError(reason: string): PyError
  {
    PyError(RuntimeError, "Lang module JIT failed to generate C++ wrapper from callback object '" + reason + "'")
  }

  /**
   * `GetOrCreateFunctionObject`: the cached callable for a known address;
   * otherwise the new wrapper, recorded under the address, or the JIT's or
   * the interpreter's failure with the cache unchanged.
   */
  function FunctionObject(c: Cache, a: Address, w: Wrapping): (r: Created<PyObj>)
    ensures a in c.external ==> r == Created(Ok(c.external[a]), c)
    ensures r.result.Ok? ==> a in r.cache.external && r.cache.external[a] == r.result.value
    ensures r.result.Err? ==> r.cache == c && a !in c.external
    ensures a !in c.external ==> (r.result.Ok? <==> w.Wrapped?)
  {
    if a in c.external then Created(Ok(c.external[a]), c)
    else
      match w
      case CallWrapperFailed(s) => Created(Err(CallWrapperError(s)), c)
      case CallbackFailed(s) => Created(Err(CallbackError(s)), c)
      case ObjectFailed => Created(Err(ObjectError), c)
      case Wrapped(o) => Created(Ok(o), Added(c, a, o))
  }

  /**
   * `GetOrCreateFunctionValue`: `None` is the null address; an object that
   * is not callable is a TypeError; a callable with a non-null cached
   * address gets that address; any other callable gets a newly compiled
   * wrapper, recorded in both maps, or the JIT's failure with the cache unchanged.
   */
  function FunctionValue(c: Cache, o: PyObj, jit: Compiled): (r: Created<Address>)
    ensures o.body.NoneBody? ==> r == Created(Ok(0), c)
    ensures !o.body.NoneBody? && !o.body.CallableBody? ==> r == Created(Err(TypeErrorFor("Expected function", o)), c)
    ensures r.result.Err? ==> r.cache == c
    ensures r.result.Ok? && r.cache != c ==> jit == Compiled(r.result.value) && o in r.cache.internal
    ensures o.body.CallableBody? && o in c.internal && c.internal[o] != 0 ==> r == Created(Ok(c.internal[o]), c)
  {
    if o.body.NoneBody? then Created(Ok(0), c)
    else if !o.body.CallableBody? then Created(Err(TypeErrorFor("Expected function", o)), c)
    else if o in c.internal && c.internal[o] != 0 then Created(Ok(c.internal[o]), c)
    else
      match jit
      case CompileFailed(s) => Created(Err(CompileError(s)), c)
      case Compiled(a) => Created(Ok(a), Added(c, a, o))
  }

  /**
   * The maps agree: every cached callable has an address, every address an
   * object points to leads back to that object, and every cached object is
   * a callable.
   */
  ghost predicate Consistent(c: Cache)
  {
    (forall a :: a in c.external ==> c.external[a] in c.internal && c.external[a].body.CallableBody?) &&
    (forall o :: o in c.internal ==> c.internal[o] in c.external && c.external[c.internal[o]] == o)
  }

  /** What the allocators guarantee: a new wrapper object is a callable no map knows. */
  predicate FreshWrapping(c: Cache, w: Wrapping)
  {
    w.Wrapped? ==> w.obj !in c.internal && w.obj.body.CallableBody?
  }

  /** What the JIT guarantees: a newly compiled wrapper lives at a non-null address no map knows. */
  predicate FreshCompiled(c: Cache, jit: Compiled)
  {
    jit.Compiled? ==> jit.addr != 0 && jit.addr !in c.external
  }

  /**
   * Recording a callable under an address no map knows keeps the maps
   * consistent, whether or not the callable was known already; this is also
   * how a method a plugin exports is recorded under its compiled address.
   */
  lemma AddedKeepsConsistent(c: Cache, a: Address, o: PyObj)
    requires Consistent(c) && a !in c.external && o.body.CallableBody?
    ensures Consistent(Added(c, a, o))
  {
    var r := Added(c, a, o);
    forall p | p in r.internal
      ensures r.internal[p] in r.external && r.external[r.internal[p]] == p
    {
      if p in c.internal {
        assert r.external[c.internal[p]] == c.external[c.internal[p]];
      }
    }
  }

  lemma FunctionObjectKeepsConsistent(c: Cache, a: Address, w: Wrapping)
    requires Consistent(c) && FreshWrapping(c, w)
    ensures Consistent(FunctionObject(c, a, w).cache)
  {
    if a !in c.external && w.Wrapped? {
      AddedKeepsConsistent(c, a, w.obj);
    }
  }

  lemma FunctionValueKeepsConsistent(c: Cache, o: PyObj, jit: Compiled)
    requires Consistent(c) && FreshCompiled(c, jit)
    ensures Consistent(FunctionValue(c, o, jit).cache)
  {
    var r := FunctionValue(c, o, jit);
    if r.cache != c {
      AddedKeepsConsistent(c, jit.addr, o);
    }
  }

  /** Asking again for a callable that was made gives the same object and changes nothing, whatever the JIT would do. */
  lemma FunctionObjectIsCached(c: Cache, a: Address, w: Wrapping, w': Wrapping)
    requires FunctionObject(c, a, w).result.Ok?
    ensures var r := FunctionObject(c, a, w); FunctionObject(r.cache, a, w') == r
  {
  }

  /**
   * Asking again for the address of a callable gives the same address and
   * changes nothing, as long as no wrapper was made for the null address.
   */
  lemma FunctionValueIsCached(c: Cache, o: PyObj, jit: Compiled, jit': Compiled)
    requires Consistent(c) && 0 !in c.external && FreshCompiled(c, jit)
    requires FunctionValue(c, o, jit).result.Ok?
    ensures var r := FunctionValue(c, o, jit); FunctionValue(r.cache, o, jit') == r
  {
    var r := FunctionValue(c, o, jit);
    if o.body.CallableBody? && !(o in c.internal && c.internal[o] != 0) {
      assert o !in c.internal;
      assert r.cache.internal[o] == jit.addr;
    }
  }

  /**
   * An address handed to Python and back: the callable made for a non-null
   * address converts back to an address whose callable is that same object,
   * and to that very address when the callable was newly made.
   */
  lemma ObjectThenValue(c: Cache, a: Address, w: Wrapping, jit: Compiled)
    requires Consistent(c) && 0 !in c.external && a != 0 && FreshWrapping(c, w)
    requires FunctionObject(c, a, w).result.Ok?
    ensures var r := FunctionObject(c, a, w);
      var back := FunctionValue(r.cache, r.result.value, jit);
      back.cache == r.cache && back.result.Ok? &&
      back.result.value in r.cache.external && r.cache.external[back.result.value] == r.result.value &&
      (a !in c.external ==> back.result == Ok(a))
  {
    var r := FunctionObject(c, a, w);
    FunctionObjectKeepsConsistent(c, a, w);
    var o := r.result.value;
    assert r.cache.external[a] == o;
    assert o in r.cache.internal;
    assert r.cache.internal[o] != 0 by {
      assert r.cache.internal[o] in r.cache.external;
    }
  }

  /**
   * A callable handed to native code and back: the non-null address it gets
   * turns back into the same Python object, with no new wrapper and no change
   * to the cache.
   */
  lemma ValueThenObject(c: Cache, o: PyObj, jit: Compiled, w: Wrapping)
    requires Consistent(c) && FreshCompiled(c, jit)
    requires FunctionValue(c, o, jit).result.Ok? && FunctionValue(c, o, jit).result.value != 0
    ensures var r := FunctionValue(c, o, jit);
      FunctionObject(r.cache, r.result.value, w) == Created(Ok(o), r.cache)
  {
    var r := FunctionValue(c, o, jit);
    if r.cache == c {
      assert o in c.internal && c.internal[o] == r.result.value;
    }
  }

  /**
   * A callable made for the null address is recorded under 0, and the null
   * address the cache holds for it then reads as "not found": each
   * conversion of that callable back to native code compiles a new wrapper.
   */
  lemma NullAddressDefeatsCache(o: PyObj, a1: Address, a2: Address)
    requires o.body.CallableBody? && a1 != 0 && a2 != 0 && a1 != a2
    ensures var r0 := FunctionObject(Cache(map[], map[]), 0, Wrapped(o));
      var r1 := FunctionValue(r0.cache, o, Compiled(a1));
      var r2 := FunctionValue(r1.cache, o, Compiled(a2));
      r0.result == Ok(o) && r1.result == Ok(a1) && r2.result == Ok(a2) &&
      r2.cache.internal[o] == 0 && r2.cache.external.Keys == {0, a1, a2}
  {
    var r0 := FunctionObject(Cache(map[], map[]), 0, Wrapped(o));
    assert r0.cache == Cache(map[0 := o], map[o := 0]);
  }

  /** The module's two maps. */
  class FunctionCache {
    var external: map<Address, PyObj>
    var internal: map<PyObj, Address>

    function State(): Cache
      reads this
    {
      Cache(external, internal)
    }

    constructor ()
      ensures State() == Cache(map[], map[])
    {
      external := map[];
      internal := map[];
    }

    /** `FindExternal`: the callable recorded for an address, if any. */
    method FindExternal(a: Address) returns (r: Option<PyObj>)
      ensures r.Some? <==> a in external
      ensures r.Some? ==> r.value == external[a]
    {
      if a in external {
        return Some(external[a]);
      }
      return NoValue;
    }

    /** `FindInternal`: the address recorded for a callable, or the null address. */
    method FindInternal(o: PyObj) returns (a: Address)
      ensures o in internal ==> a == internal[o]
      ensures o !in internal ==> a == 0
    {
      if o in internal {
        return internal[o];
      }
      return 0;
    }

    method AddToFunctionsMap(a: Address, o: PyObj)
      modifies this
      ensures State() == Added(old(State()), a, o)
    {
      if a !in external {
        external := external[a := o];
      }
      if o !in internal {
        internal := internal[o := a];
      }
    }

    method GetOrCreateFunctionObject(a: Address, w: Wrapping) returns (r: Result<PyObj>)
      modifies this
      ensures Created(r, State()) == FunctionObject(old(State()), a, w)
    {
      var found := FindExternal(a);
      if found.Some? {
        return Ok(found.value);
      }
      match w
      case CallWrapperFailed(s) =>
        return Err(CallWrapperError(s));
      case CallbackFailed(s) =>
        return Err(CallbackError(s));
      case ObjectFailed =>
        return Err(ObjectError);
      case Wrapped(o) =>
        AddToFunctionsMap(a, o);
        return Ok(o);
    }

    method GetOrCreateFunctionValue(o: PyObj, jit: Compiled) returns (r: Result<Address>)
      modifies this
      ensures Created(r, State()) == FunctionValue(old(State()), o, jit)
    {
      if o.body.NoneBody? {
        return Ok(0);
      }
      if !o.body.CallableBody? {
        return Err(TypeErrorFor("Expected function", o));
      }
      var found := FindInternal(o);
      if found != 0 {
        return Ok(found);
      }
      match jit
      case CompileFailed(s) =>
        return Err(CompileError(s));
      case Compiled(b) =>
        AddToFunctionsMap(b, o);
        return Ok(b);
    }
  }
}
