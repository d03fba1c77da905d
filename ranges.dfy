/**
 * Fixed-width integers and the narrowing check `IsInRange<T, U>` that guards
 * every conversion of a Python int into a native integer slot.
 */
module Ranges {

  datatype Width = W8 | W16 | W32 | W64

  /** A C integer type: its width and signedness. */
  datatype IntType = IntType(width: Width, signed: bool)

  const I8: IntType := IntType(W8, true)
  const I16: IntType := IntType(W16, true)
  const I32: IntType := IntType(W32, true)
  const I64: IntType := IntType(W64, true)
  const U8: IntType := IntType(W8, false)
  const U16: IntType := IntType(W16, false)
  const U32: IntType := IntType(W32, false)
  const U64: IntType := IntType(W64, false)

  /** The intermediate C types of the `PyLong_As*` accessors, on an LP64 platform. */
  const CLong: IntType := I64
  const CLongLong: IntType := I64
  const CULong: IntType := U64
  const CULongLong: IntType := U64

  function Bits(w: Width): nat
  {
    match w
    case W8 => 8
    case W16 => 16
    case W32 => 32
    case W64 => 64
  }

  /** 2 to the power of the width. */
  function Modulus(w: Width): (m: nat)
    ensures m >= 0x100
  {
    match w
    case W8 => 0x100
    case W16 => 0x1_0000
    case W32 => 0x1_0000_0000
    case W64 => 0x1_0000_0000_0000_0000
  }

  /** `std::numeric_limits<t>::min()`. */
  function Min(t: IntType): int
  {
    if t.signed then -(Modulus(t.width) / 2) else 0
  }

  /** `std::numeric_limits<t>::max()`. */
  function Max(t: IntType): int
  {
    if t.signed then Modulus(t.width) / 2 - 1 else Modulus(t.width) - 1
  }

  predicate InRange(t: IntType, v: int)
  {
    Min(t) <= v <= Max(t)
  }

  /** `std::make_unsigned_t<t>`. */
  function Unsigned(t: IntType): IntType
  {
    IntType(t.width, false)
  }

  /**
   * `static_cast<t>(v)` for an integer v: two's-complement wrap-around into t.
   * The result is the unique value of t congruent to v modulo 2^width.
   */
  function Cast(t: IntType, v: int): (r: int)
    ensures InRange(t, r)
    ensures (r - v) % Modulus(t.width) == 0
    ensures InRange(t, v) ==> r == v
  {
    var m := Modulus(t.width);
    var low := v % m;
    if t.signed && low >= m / 2 then low - m else low
  }

  /** Every width of U fits in T. */
  predicate AtLeastAsWide(t: IntType, u: IntType)
  {
    Bits(t.width) >= Bits(u.width)
  }

  /**
   * `IsInRange<T, U>(value)` for integer T and U, branch by branch, with its
   * casts written out. When T is at least as wide as U (every use in the
   * marshaller: T is `long`, `long long` or their unsigned forms) it holds
   * exactly when value lies in U's range as a mathematical integer.
   */
  function IsInRange(t: IntType, u: IntType, value: int): (ok: bool)
    requires InRange(t, value)
    ensures AtLeastAsWide(t, u) ==> (ok <==> InRange(u, value))
  {
    if t == u then
      true
    else if t.signed == u.signed then
      value >= Cast(t, Min(u)) && value <= Cast(t, Max(u))
    else if !t.signed && u.signed then
      !(value > Cast(t, Max(u)))
    else
      !(value < 0 || Cast(Unsigned(t), value) > Max(u))
  }

  /**
   * When the source type is narrower, the same-signedness branch compares
   * against truncated limits: `IsInRange<int8_t, int64_t>` rejects 0. No call
   * in the marshaller instantiates the template this way.
   */
  lemma NarrowSourceRejectsZero()
    ensures InRange(I8, 0) && !IsInRange(I8, I64, 0)
  {
    assert Cast(I8, Min(I64)) == 0;
    assert Cast(I8, Max(I64)) == -1;
  }

  /** Every value of u is a value of t. */
  predicate Contains(t: IntType, u: IntType)
  {
    Min(t) <= Min(u) && Max(u) <= Max(t)
  }

  /** A type that holds every value of another is at least as wide. */
  lemma ContainsIsWider(t: IntType, u: IntType)
    requires Contains(t, u)
    ensures AtLeastAsWide(t, u)
  {
  }
}
