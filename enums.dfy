/**
 * The enum bridge: `CreateEnumObject` makes (or finds, by name, in a
 * module's dictionary) the Python `IntEnum` class of a native enumeration
 * and fills a shared value-to-member table; `GetEnumObject` answers a native
 * enumeration and value with a member from that table.
 *
 * `_externalEnumMap` (enumeration to table) and `_internalEnumMap` (class to
 * table) share their tables through `std::shared_ptr`; the model keeps the
 * tables in one sequence and both maps hold an index into it, so a table
 * filled through one map is the table the other map sees.
 */
module Enums {
  import opened Python

  /** One named constant of a native enumeration. */
  datatype EnumValue = EnumValue(name: string, value: int)

  /** An `EnumHandle`: its identity, its name and its constants in declaration order. */
  datatype Enumerator = Enumerator(id: nat, name: string, values: seq<EnumValue>)

  /**
   * `PythonEnumMap`: value to the object `cls(value)` returned when the table
   * was filled; `NoValue` is the null pointer a failed call stores.
   */
  type Table = map<int, Option<PyObj>>

  datatype Enums = Enums(external: map<nat, nat>, internal: map<PyObj, nat>, tables: seq<Table>)

  /** The values among the first n constants of an enumeration. */
  function ValuesBefore(e: Enumerator, n: nat): set<int>
    requires n <= |e.values|
  {
    set j | 0 <= j < n :: e.values[j].value
  }

  /** The values an enumeration declares. */
  function Values(e: Enumerator): set<int>
  {
    ValuesBefore(e, |e.values|)
  }

  /**
   * The member `cls(i)` of the enum class of e: an int subclass instance
   * holding i, whose type the type map does not know.
   */
  function MemberOf(e: Enumerator, i: int): (o: PyObj)
    ensures o.body == IntBody(i) && o.typeName == e.name
  {
    PyObj(PyType.Invalid, e.name, IntBody(i))
  }

  /** Every member a table holds is the member for its own key. */
  predicate HoldsOwnValues(t: Table)
  {
    forall i :: i in t && t[i].Some? ==> t[i].value.body == IntBody(i)
  }

  /**
   * Every table index either map holds exists, no table is empty, and every
   * table maps values to members carrying those values.
   */
  ghost predicate Valid(s: Enums)
  {
    (forall id :: id in s.external ==> s.external[id] < |s.tables|) &&
    (forall c :: c in s.internal ==> s.internal[c] < |s.tables|) &&
    (forall h :: 0 <= h < |s.tables| ==> s.tables[h].Keys != {} && HoldsOwnValues(s.tables[h]))
  }

  // ---- The constants dictionary the class is made from ----

  /** The constants dictionary: name to value, a later duplicate name replacing an earlier one. */
  function Constants(vs: seq<EnumValue>): (d: map<string, int>)
    ensures d.Keys == set j | 0 <= j < |vs| :: vs[j].name
  {
    if |vs| == 0 then map[] else Constants(vs[..|vs| - 1])[vs[|vs| - 1].name := vs[|vs| - 1].value]
  }

  /**
   * The dictionary as the code builds it: each `PyDict_SetItemString` is the
   * argument of an `assert`, so it runs only when assertions are compiled in.
   */
  function ConstantsAsWritten(vs: seq<EnumValue>, assertionsEnabled: bool): (d: map<string, int>)
    ensures d.Keys == if assertionsEnabled then set j | 0 <= j < |vs| :: vs[j].name else {}
  {
    if assertionsEnabled then Constants(vs) else map[]
  }

  /** `cls(i)` on the class made from a constants dictionary: the member, or the ValueError of `IntEnum`. */
  function MemberCall(e: Enumerator, constants: map<string, int>, i: int): (r: Result<PyObj>)
    ensures r.Ok? <==> i in constants.Values
  {
    if i in constants.Values then Ok(MemberOf(e, i))
    else Err(PyError(ValueError, "value is not a valid " + e.name))
  }

  /** With assertions compiled out the class has no members, and every member call of the loop fails. */
  lemma ReleaseBuildMembersFail(e: Enumerator)
    ensures forall j :: 0 <= j < |e.values| ==> MemberCall(e, ConstantsAsWritten(e.values, false), e.values[j].value).Err?
  {
  }

  /** The dictionary holds the last value declared under each name. */
  lemma {:induction false} ConstantsLast(vs: seq<EnumValue>, j: nat)
    requires j < |vs| && forall k :: j < k < |vs| ==> vs[k].name != vs[j].name
    ensures vs[j].name in Constants(vs) && Constants(vs)[vs[j].name] == vs[j].value
  {
    if j < |vs| - 1 {
      ConstantsLast(vs[..|vs| - 1], j);
      assert vs[..|vs| - 1][j] == vs[j];
    }
  }

  /** With the dictionary filled, every value declared under a name of its own has its member. */
  lemma EveryValueHasMember(e: Enumerator)
    requires forall j, k :: 0 <= j < k < |e.values| ==> e.values[j].name != e.values[k].name
    ensures forall j :: 0 <= j < |e.values| ==> MemberCall(e, Constants(e.values), e.values[j].value) == Ok(MemberOf(e, e.values[j].value))
  {
    forall j | 0 <= j < |e.values|
      ensures e.values[j].value in Constants(e.values).Values
    {
      ConstantsLast(e.values, j);
    }
  }

  /**
   * What the member loop stores for value i: the result of calling the class
   * made from the constants dictionary, a null pointer when that call fails.
   */
  function MemberEntry(e: Enumerator, i: int): (m: Option<PyObj>)
    ensures m.Some? <==> i in Constants(e.values).Values
    ensures m.Some? ==> m.value == MemberOf(e, i)
  {
    match MemberCall(e, Constants(e.values), i)
    case Ok(o) => Some(o)
    case Err(_) => NoValue
  }

  /** The table after the member loop has stored the members of the first n constants. */
  function FilledTo(t: Table, e: Enumerator, n: nat): (r: Table)
    requires n <= |e.values|
    ensures r.Keys == t.Keys + ValuesBefore(e, n)
  {
    map i | i in t.Keys + ValuesBefore(e, n) :: if i in ValuesBefore(e, n) then MemberEntry(e, i) else t[i]
  }

  /** One more turn of the member loop. */
  lemma FilledToStep(t: Table, e: Enumerator, n: nat)
    requires n < |e.values|
    ensures FilledTo(t, e, n)[e.values[n].value := MemberEntry(e, e.values[n].value)] == FilledTo(t, e, n + 1)
  {
    assert ValuesBefore(e, n + 1) == ValuesBefore(e, n) + {e.values[n].value};
  }

  /**
   * The table after the member loop: every declared value now maps to what
   * calling the class with it returned, other entries stay.
   */
  function Filled(t: Table, e: Enumerator): (r: Table)
    ensures r.Keys == t.Keys + Values(e)
    ensures forall i :: i in r ==> r[i] == if i in Values(e) then MemberEntry(e, i) else t[i]
  {
    FilledTo(t, e, |e.values|)
  }

  /** When no name is declared twice, every declared value is filled with its own member. */
  lemma FilledMembers(e: Enumerator, v: int)
    requires forall j, k :: 0 <= j < k < |e.values| ==> e.values[j].name != e.values[k].name
    ensures v in Values(e) ==> MemberEntry(e, v) == Some(MemberOf(e, v))
  {
    if v in Values(e) {
      EveryValueHasMember(e);
      var j :| 0 <= j < |e.values| && e.values[j].value == v;
    }
  }

  /**
   * A name declared twice keeps only its last value in the constants
   * dictionary, so the earlier value's call fails and the table stores a
   * null pointer for it.
   */
  lemma RepeatedNameStoresNull(t: Table)
    ensures var e := Enumerator(0, "Color", [EnumValue("Red", 1), EnumValue("Red", 2)]);
      1 in Filled(t, e) && Filled(t, e)[1] == NoValue && 2 in Filled(t, e) && Filled(t, e)[2] == Some(MemberOf(e, 2))
  {
    var e := Enumerator(0, "Color", [EnumValue("Red", 1), EnumValue("Red", 2)]);
    assert e.values[..1] == [EnumValue("Red", 1)];
    assert [] + [EnumValue("Red", 1)] == [EnumValue("Red", 1)];
    assert Constants(e.values) == map["Red" := 2];
    assert 1 !in Constants(e.values).Values;
    assert 2 in Constants(e.values).Values by {
      assert Constants(e.values)["Red"] == 2;
    }
    assert e.values[0].value == 1 && e.values[1].value == 2;
    assert 1 in Values(e) && 2 in Values(e);
  }

  lemma FilledHoldsOwnValues(t: Table, e: Enumerator)
    requires HoldsOwnValues(t)
    ensures HoldsOwnValues(Filled(t, e))
  {
  }

  // ---- CreateEnumObject ----

  /**
   * Whether the code goes on to fill the table once it asked `IntEnum` for
   * a class (`made`) and tried to store it in the module dictionary
   * (`stored`): as written, it stops only when the class exists and storing
   * it failed.
   */
  predicate ProceedsAsWritten(made: Option<PyObj>, stored: bool)
    ensures made.NoValue? ==> ProceedsAsWritten(made, stored)
    ensures made.Some? ==> (ProceedsAsWritten(made, stored) <==> stored)
  {
    !(made.Some? && !stored)
  }

  /**
   * A failed `IntEnum` call does not stop the code as written: it goes on to
   * call members of a null class; the intended guard stops it.
   */
  lemma NullClassProceedsAsWritten()
    ensures ProceedsAsWritten(NoValue, false) && ProceedsAsWritten(NoValue, true)
    ensures !Proceeds(NoValue, false) && !Proceeds(NoValue, true)
  {
  }

  /** The intended guard: go on only with a class that is now in the module dictionary. */
  predicate Proceeds(made: Option<PyObj>, stored: bool)
    ensures Proceeds(made, stored) ==> ProceedsAsWritten(made, stored)
    ensures made.Some? ==> (Proceeds(made, stored) <==> ProceedsAsWritten(made, stored))
  {
    made.Some? && stored
  }

  datatype Step = Step(enums: Enums, dict: map<string, PyObj>)

  /**
   * `CreateEnumObject` with the intended guard. A name the module dictionary
   * already has only links the enumeration to the table of that class, if
   * the enumeration has none; an enumeration without constants creates
   * nothing; otherwise the new class is stored under the name, the
   * enumeration's table (new if it had none) gets every declared value, and
   * the class is linked to that table if it had none.
   */
  function CreateEnum(s: Enums, e: Enumerator, dict: map<string, PyObj>, made: Option<PyObj>, stored: bool): (r: Step)
    requires Valid(s)
    ensures r.dict == dict ||
      (e.name !in dict && |e.values| > 0 && Proceeds(made, stored) && r.dict == dict[e.name := made.value])
    ensures |s.tables| <= |r.enums.tables| <= |s.tables| + 1
    ensures s.external.Keys <= r.enums.external.Keys <= s.external.Keys + {e.id}
    ensures forall id :: id in s.external ==> r.enums.external[id] == s.external[id]
    ensures forall c :: c in s.internal ==> c in r.enums.internal && r.enums.internal[c] == s.internal[c]
  {
    if e.name in dict then
      var cls := dict[e.name];
      if cls in s.internal && e.id !in s.external then Step(s.(external := s.external[e.id := s.internal[cls]]), dict)
      else Step(s, dict)
    else if |e.values| == 0 || !Proceeds(made, stored) then Step(s, dict)
    else
      var cls := made.value;
      var h := if e.id in s.external then s.external[e.id] else |s.tables|;
      var tables := if e.id in s.external then s.tables else s.tables + [map[]];
      Step(Enums(s.external[e.id := h],
                 if cls in s.internal then s.internal else s.internal[cls := h],
                 tables[h := Filled(tables[h], e)]),
           dict[e.name := cls])
  }

  /** A name already in the dictionary: no class and no table is made, and only a missing link is added. */
  lemma ExistingNameOnlyLinks(s: Enums, e: Enumerator, dict: map<string, PyObj>, made: Option<PyObj>, stored: bool)
    requires Valid(s) && e.name in dict
    ensures var r := CreateEnum(s, e, dict, made, stored);
      r.dict == dict && r.enums.tables == s.tables && r.enums.internal == s.internal &&
      r.enums.external.Keys == s.external.Keys + (if dict[e.name] in s.internal then {e.id} else {}) &&
      (forall id :: id in s.external ==> r.enums.external[id] == s.external[id]) &&
      (dict[e.name] in s.internal && e.id !in s.external ==> r.enums.external[e.id] == s.internal[dict[e.name]])
  {
  }

  /** An enumeration without constants, or a class that could not be made or stored, changes nothing. */
  lemma NothingCreated(s: Enums, e: Enumerator, dict: map<string, PyObj>, made: Option<PyObj>, stored: bool)
    requires Valid(s) && e.name !in dict && (|e.values| == 0 || made.NoValue? || !stored)
    ensures CreateEnum(s, e, dict, made, stored) == Step(s, dict)
  {
  }

  lemma CreateEnumKeepsValid(s: Enums, e: Enumerator, dict: map<string, PyObj>, made: Option<PyObj>, stored: bool)
    requires Valid(s)
    ensures Valid(CreateEnum(s, e, dict, made, stored).enums)
  {
    if e.name !in dict && |e.values| > 0 && Proceeds(made, stored) {
      var r := CreateEnum(s, e, dict, made, stored).enums;
      var h := r.external[e.id];
      var tables := if e.id in s.external then s.tables else s.tables + [map[]];
      assert |tables[h := Filled(tables[h], e)]| == |tables|;
      assert e.values[0].value in Values(e);
      FilledHoldsOwnValues(tables[h], e);
    }
  }

  // ---- GetEnumObject ----

  lemma {:induction false} HasLeast(s: set<int>)
    requires s != {}
    ensures exists k :: k in s && forall j :: j in s ==> k <= j
    decreases |s|
  {
    assert (forall y :: y !in s) ==> s == {};
    var x :| x in s;
    var rest := s - {x};
    if rest == {} {
      forall j | j in s
        ensures x <= j
      {
        assert j !in rest;
      }
    } else {
      HasLeast(rest);
      var m :| m in rest && forall j :: j in rest ==> m <= j;
      var k := if x < m then x else m;
      forall j | j in s
        ensures k <= j
      {
        if j != x {
          assert j in rest;
        }
      }
      assert k in s;
    }
  }

  /** The key of a table's first entry, the least value in it (`PythonEnumMap` iterates in key order). */
  function FirstKey(t: Table): (k: int)
    requires t.Keys != {}
    ensures k in t && forall j :: j in t ==> k <= j
  {
    HasLeast(t.Keys);
    var k :| k in t && forall j :: j in t ==> k <= j; k
  }

  const InvalidEnum: PyError := PyError(ValueError, "Invalid enum")

  /**
   * `GetEnumObject`: the entry for the value from the enumeration's table,
   * the table's first entry when the value has none, or ValueError
   * "Invalid enum" for an enumeration without a table. The entry is the
   * pointer the table holds, null where the member call failed.
   */
  function EnumLookup(s: Enums, id: nat, v: int): (r: Result<Option<PyObj>>)
    requires Valid(s)
    ensures r.Ok? <==> id in s.external
    ensures r.Err? ==> r.error == InvalidEnum
    ensures r.Ok? ==> r.value in s.tables[s.external[id]].Values
    ensures r.Ok? && v in s.tables[s.external[id]] ==> r.value == s.tables[s.external[id]][v]
    ensures r.Ok? && r.value.Some? ==> (r.value.value.body == IntBody(v) <==> v in s.tables[s.external[id]])
    ensures r.Ok? && v !in s.tables[s.external[id]] ==>
      var t := s.tables[s.external[id]]; exists k :: k in t && r.value == t[k] && forall j :: j in t ==> k <= j
  {
    if id !in s.external then Err(InvalidEnum)
    else
      var t := s.tables[s.external[id]];
      if v in t then Ok(t[v])
      else
        var k := FirstKey(t);
        assert t[k].Some? ==> t[k].value.body == IntBody(k);
        Ok(t[k])
  }

  /**
   * After an enumeration is created, every value it declares looks up to
   * what its member call returned, which is its own member when no name is
   * declared twice.
   */
  lemma LookupAfterCreate(s: Enums, e: Enumerator, dict: map<string, PyObj>, made: Option<PyObj>, stored: bool, v: int)
    requires Valid(s) && e.name !in dict && |e.values| > 0 && Proceeds(made, stored)
    ensures var r := CreateEnum(s, e, dict, made, stored);
      e.name in r.dict && r.dict[e.name] == made.value && e.id in r.enums.external &&
      (made.value !in s.internal ==> r.enums.internal[made.value] == r.enums.external[e.id])
    ensures var r := CreateEnum(s, e, dict, made, stored);
      Valid(r.enums) && (v in Values(e) ==> EnumLookup(r.enums, e.id, v) == Ok(MemberEntry(e, v)))
    ensures var r := CreateEnum(s, e, dict, made, stored);
      (forall j, k :: 0 <= j < k < |e.values| ==> e.values[j].name != e.values[k].name) && v in Values(e) ==>
        EnumLookup(r.enums, e.id, v) == Ok(Some(MemberOf(e, v)))
  {
    CreateEnumKeepsValid(s, e, dict, made, stored);
    if forall j, k :: 0 <= j < k < |e.values| ==> e.values[j].name != e.values[k].name {
      FilledMembers(e, v);
    }
  }

  /** The module's two enum maps and the tables they share. */
  class EnumBridge {
    var external: map<nat, nat>
    var internal: map<PyObj, nat>
    var tables: seq<Table>

    function State(): Enums
      reads this
    {
      Enums(external, internal, tables)
    }

    constructor ()
      ensures State() == Enums(map[], map[], []) && Valid(State())
    {
      external := map[];
      internal := map[];
      tables := [];
    }

    /** Stores what calling the class with each declared value returns in table h, in declaration order. */
    method FillTable(h: nat, e: Enumerator)
      requires h < |tables|
      modifies this
      ensures external == old(external) && internal == old(internal)
      ensures tables == old(tables)[h := Filled(old(tables)[h], e)]
    {
      var t := tables[h];
      var i := 0;
      while i < |e.values|
        invariant 0 <= i <= |e.values|
        invariant tables == old(tables) && external == old(external) && internal == old(internal)
        invariant t == FilledTo(tables[h], e, i)
      {
        var v := e.values[i].value;
        FilledToStep(tables[h], e, i);
        t := t[v := MemberEntry(e, v)];
        i := i + 1;
      }
      tables := tables[h := t];
    }

    /** `CreateEnumObject`, with the intended guard; returns the module dictionary after it. */
    method CreateEnumObject(e: Enumerator, dict: map<string, PyObj>, made: Option<PyObj>, stored: bool) returns (dict': map<string, PyObj>)
      requires Valid(State())
      modifies this
      ensures Step(State(), dict') == CreateEnum(old(State()), e, dict, made, stored)
    {
      if e.name in dict {
        var cls := dict[e.name];
        if cls in internal && e.id !in external {
          external := external[e.id := internal[cls]];
        }
        return dict;
      }
      if |e.values| == 0 {
        return dict;
      }
      if made.NoValue? || !stored {
        return dict;
      }
      var cls := made.value;
      dict' := dict[e.name := cls];
      if e.id !in external {
        tables := tables + [map[]];
        external := external[e.id := |tables| - 1];
      }
      var h := external[e.id];
      FillTable(h, e);
      if cls !in internal {
        internal := internal[cls := h];
      }
    }

    method GetEnumObject(id: nat, v: int) returns (r: Result<Option<PyObj>>)
      requires Valid(State())
      ensures r == EnumLookup(State(), id, v)
    {
      if id !in external {
        return Err(InvalidEnum);
      }
      var t := tables[external[id]];
      if v in t {
        return Ok(t[v]);
      }
      return Ok(t[FirstKey(t)]);
    }
  }
}
