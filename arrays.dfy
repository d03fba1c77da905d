/**
 * The loops behind list conversion: `ArrayFromObject<T>` filling a
 * pre-sized array, and the `List` branch of `ValueFromObject<plg::any>`,
 * which sets one bit per element type in a `std::bitset`, counts the bits,
 * finds the set one with `FindBitSetIndex` and either converts the list as
 * that array kind or builds the TypeError message element by element. Each
 * method is proved to compute the function of the same name in `Convert`.
 */
module Arrays {
  import opened Python
  import opened Ranges
  import opened Kinds
  import opened Convert

  /** `MaxPyTypes`: the number of abstract type tags, one bit each. */
  const TagCount: nat := 78

  /** `static_cast<size_t>(-1)` on a 64-bit target. */
  const SizeMax: nat := 0xFFFF_FFFF_FFFF_FFFF

  /** The bit position of a tag, `static_cast<size_t>(type)`. */
  function TagIndex(t: PyType): (b: nat)
    ensures b < TagCount
  {
    match t
    case Invalid => 0
    case Type => 1
    case Long => 2
    case Bool => 3
    case Float => 4
    case Unicode => 5
    case List => 6
    case Tuple => 7
    case None => 8
    case Function => 9
    case Vector2 => 10
    case Vector3 => 11
    case Vector4 => 12
    case Matrix4x4 => 13
    case Other(id) => 14 + id
  }

  /** `static_cast<PyAbstractType>(b)`: the tag at a bit position. */
  function TagAt(b: nat): (t: PyType)
    requires b < TagCount
    ensures TagIndex(t) == b
  {
    if b == 0 then PyType.Invalid
    else if b == 1 then PyType.Type
    else if b == 2 then Long
    else if b == 3 then PyType.Bool
    else if b == 4 then PyType.Float
    else if b == 5 then Unicode
    else if b == 6 then List
    else if b == 7 then Tuple
    else if b == 8 then None
    else if b == 9 then PyType.Function
    else if b == 10 then PyType.Vector2
    else if b == 11 then PyType.Vector3
    else if b == 12 then PyType.Vector4
    else if b == 13 then PyType.Matrix4x4
    else Other(b - 14)
  }

  /** Distinct tags have distinct bits, so the bit set records the set of tags. */
  lemma TagIndexInjective(s: PyType, t: PyType)
    ensures TagIndex(s) == TagIndex(t) <==> s == t
  {
  }

  // ---- The bit set ----

  /** The bits set after the first elements of a list: one per known tag. */
  function FlagsOf(items: seq<PyObj>): (f: seq<bool>)
    ensures |f| == TagCount
  {
    if |items| == 0 then seq(TagCount, _ => false)
    else
      var f := FlagsOf(items[..|items| - 1]);
      var t := items[|items| - 1].tag;
      if t == PyType.Invalid then f else f[TagIndex(t) := true]
  }

  /** Bit b is set exactly when some element has a known tag at position b. */
  lemma {:induction false} FlagsOfSays(items: seq<PyObj>, b: nat)
    requires b < TagCount
    ensures FlagsOf(items)[b] <==> exists i :: 0 <= i < |items| && items[i].tag != PyType.Invalid && TagIndex(items[i].tag) == b
  {
    if |items| > 0 {
      var n := |items| - 1;
      var pre := items[..n];
      FlagsOfSays(pre, b);
      assert forall i :: 0 <= i < n ==> pre[i] == items[i];
      if FlagsOf(items)[b] && !FlagsOf(pre)[b] {
        assert items[n].tag != PyType.Invalid && TagIndex(items[n].tag) == b;
      }
    }
  }

  /** `std::bitset::count`: the number of set bits. */
  function CountTrue(f: seq<bool>): nat
  {
    if |f| == 0 then 0 else CountTrue(f[..|f| - 1]) + (if f[|f| - 1] then 1 else 0)
  }

  lemma {:induction false} CountTrueZero(f: seq<bool>)
    ensures CountTrue(f) == 0 <==> forall c :: 0 <= c < |f| ==> !f[c]
  {
    if |f| > 0 {
      var pre := f[..|f| - 1];
      CountTrueZero(pre);
      assert forall c :: 0 <= c < |pre| ==> pre[c] == f[c];
    }
  }

  /** With bit b set, exactly one bit is set when every other bit is clear. */
  lemma {:induction false} CountTrueOne(f: seq<bool>, b: nat)
    requires b < |f| && f[b]
    ensures CountTrue(f) == 1 <==> forall c :: 0 <= c < |f| && c != b ==> !f[c]
  {
    var n := |f| - 1;
    var pre := f[..n];
    assert forall c :: 0 <= c < n ==> pre[c] == f[c];
    if b == n {
      CountTrueZero(pre);
    } else {
      CountTrueOne(pre, b);
      CountTrueZero(pre);
    }
  }

  /**
   * The bit count is one exactly when the list has a known tag and every
   * known tag is that one; the set bit is then that tag's.
   */
  lemma OneFlagIffHomogeneous(items: seq<PyObj>)
    ensures (CountTrue(FlagsOf(items)) == 1) <==> (FirstTag(items).Some? && AllTagged(items, FirstTag(items).value))
    ensures FirstTag(items).Some? ==> FlagsOf(items)[TagIndex(FirstTag(items).value)]
  {
    var f := FlagsOf(items);
    forall b | 0 <= b < TagCount
      ensures f[b] <==> exists i :: 0 <= i < |items| && items[i].tag != PyType.Invalid && TagIndex(items[i].tag) == b
    {
      FlagsOfSays(items, b);
    }
    match FirstTag(items)
    case NoValue =>
      CountTrueZero(f);
    case Some(t) =>
      var b := TagIndex(t);
      assert f[b];
      CountTrueOne(f, b);
      if !AllTagged(items, t) {
        var i :| 0 <= i < |items| && items[i].tag != PyType.Invalid && items[i].tag != t;
        TagIndexInjective(items[i].tag, t);
        assert f[TagIndex(items[i].tag)];
      }
  }

  /** `FindBitSetIndex`: the lowest set bit, or `SIZE_MAX` when none is set. */
  method FindBitSetIndex(bits: array<bool>) returns (i: nat)
    ensures (i < bits.Length && bits[i] && forall j :: 0 <= j < i ==> !bits[j]) ||
            (i == SizeMax && forall j :: 0 <= j < bits.Length ==> !bits[j])
  {
    var k := 0;
    while k < bits.Length
      invariant 0 <= k <= bits.Length
      invariant forall j :: 0 <= j < k ==> !bits[j]
    {
      if bits[k] {
        return k;
      }
      k := k + 1;
    }
    return SizeMax;
  }

  // ---- ArrayFromObject ----

  /** Once a prefix of the list fails to convert, every longer prefix fails with the same error. */
  lemma {:induction false} ErrorPersists(conv: PyObj --> Result<NativeValue>, items: seq<PyObj>, m: nat, n: nat)
    requires m <= n <= |items| && forall x :: x in items ==> conv.requires(x)
    requires MapPrefix(conv, items, m).Err?
    ensures MapPrefix(conv, items, n) == MapPrefix(conv, items, m)
    decreases n - m
  {
    if m < n {
      ErrorPersists(conv, items, m, n - 1);
    }
  }

  /**
   * The loop of `ArrayFromObject<T>`: an array of the list's size, value
   * initialised, whose slots are filled in order; the first item that does
   * not convert ends the loop with its error.
   */
  method FillArray(conv: PyObj --> Result<NativeValue>, items: seq<PyObj>, init: NativeValue) returns (r: Result<seq<NativeValue>>)
    requires forall x :: x in items ==> conv.requires(x)
    ensures r == MapPrefix(conv, items, |items|)
  {
    var size := |items|;
    var values := new NativeValue[size](_ => init);
    var i := 0;
    while i < size
      invariant 0 <= i <= size
      invariant MapPrefix(conv, items, i) == Ok(values[..i])
    {
      var value := conv(items[i]);
      if value.Err? {
        ErrorPersists(conv, items, i + 1, size);
        return Err(value.error);
      }
      values[i] := value.value;
      assert values[..i + 1] == values[..i] + [value.value];
      i := i + 1;
    }
    assert values[..] == values[..size];
    return Ok(values[..]);
  }

  /** `ArrayFromObject<T>`: anything but a list is refused, a list is converted by the loop. */
  method ArrayFromObjectLoop(e: ValueType, o: PyObj) returns (r: Result<NativeValue>)
    requires IsElementKind(e)
    ensures r == ArrayFromObject(e, o)
  {
    if !PyListCheck(o) {
      return Err(TypeErrorFor("Expected list", o));
    }
    var values := FillArray(ElementsOf(e, o), o.body.items, FallbackReturn(e));
    r := if values.Err? then Err(values.error) else Ok(VArray(e, values.value));
  }

  // ---- The List branch of ValueFromObject<plg::any> ----

  const ListTypePrefix: string := "List should contains supported types, but contains: ["

  /** The message loop: the first name is opened with a quote, each later one with `', '`, and `']` closes. */
  method ListTypeMessage(items: seq<PyObj>) returns (message: string)
    requires |items| > 0
    ensures PyError(TypeError, message) == ListTypeError(items)
  {
    var names := TypeNames(items);
    message := ListTypePrefix;
    var first := true;
    var i := 0;
    while i < |items|
      invariant 0 <= i <= |items|
      invariant first <==> i == 0
      invariant i == 0 ==> message == ListTypePrefix
      invariant i > 0 ==> message == ListTypePrefix + "'" + Join(names[..i], "', '")
    {
      var valueName := items[i].typeName;
      if first {
        message := message + "'" + valueName;
        first := false;
        assert names[..1] == [valueName];
      } else {
        message := message + "', '" + valueName;
        assert names[..i + 1][..i] == names[..i];
      }
      i := i + 1;
    }
    assert names[..|items|] == names;
    message := message + "']";
  }

  /**
   * The `List` branch of `ValueFromObject<plg::any>` as the source runs it:
   * the bit loop, the count, `FindBitSetIndex` and the switch over the tag.
   */
  method AnyListFromObject(o: PyObj) returns (r: Result<NativeValue>)
    requires PyListCheck(o)
    ensures r == AnyList(o)
  {
    var items := o.body.items;
    var size := |items|;
    if size == 0 {
      return Ok(VArray(Int64, []));
    }
    var flags := new bool[TagCount](_ => false);
    var i := 0;
    while i < size
      invariant 0 <= i <= size
      invariant flags[..] == FlagsOf(items[..i])
    {
      var valueType := items[i].tag;
      if valueType != PyType.Invalid {
        flags[TagIndex(valueType)] := true;
      }
      assert items[..i + 1][..i] == items[..i];
      i := i + 1;
    }
    assert items[..size] == items;
    OneFlagIffHomogeneous(items);
    if CountTrue(flags[..]) == 1 {
      var b := FindBitSetIndex(flags);
      var t := FirstTag(items).value;
      assert b == TagIndex(t) by {
        CountTrueOne(flags[..], TagIndex(t));
      }
      var flag := TagAt(b);
      TagIndexInjective(flag, t);
      match ArrayElemFor(flag)
      case Some(e) =>
        r := ArrayFromObjectLoop(e, o);
        return;
      case NoValue =>
    }
    var message := ListTypeMessage(items);
    r := Err(PyError(TypeError, message));
  }

  /** A list mixing ints and strings is refused, naming each element's type in order. */
  lemma MixedListRefused()
    ensures AnyList(MakeList([MakeInt(1), MakeStr(1, [0x78])])) ==
      Err(PyError(TypeError, "List should contains supported types, but contains: ['Long', 'Unicode']"))
  {
    MixedListIsNoArray();
    MixedListMessage();
  }

  lemma MixedListIsNoArray()
    ensures AnyList(MakeList([MakeInt(1), MakeStr(1, [0x78])])) == Err(ListTypeError([MakeInt(1), MakeStr(1, [0x78])]))
  {
    var items := [MakeInt(1), MakeStr(1, [0x78])];
    assert FirstTag(items) == Some(Long);
    assert !AllTagged(items, Long) by {
      assert items[1].tag == Unicode;
    }
  }

  lemma MixedListMessage()
    ensures ListTypeError([MakeInt(1), MakeStr(1, [0x78])]).msg ==
      "List should contains supported types, but contains: ['Long', 'Unicode']"
  {
    var names := TypeNames([MakeInt(1), MakeStr(1, [0x78])]);
    assert names == ["Long", "Unicode"];
    assert names[..1] == ["Long"];
  }
}
