# Python 3.12 language module: the value marshaller

This project models the value-marshalling core of the plugify Python 3.12 language module (`src/module.cpp`). The module sits between CPython objects and the native slots of plugin methods. It converts a Python object into a native value of a declared kind, and a native value back into a Python object. It owns the temporary storage of a call into native code. It runs the reference-parameter tuple protocol in both directions. It keeps an identity cache between native function addresses and Python callables, and another between native enumerations and Python enum classes. It also contains a few string helpers used when a plugin is loaded.

Python objects are values of an abstract datatype `Python.PyObj`. Each carries the abstract type tag of its type, the type's name, and a body: an int, a float's bits, a string's length and the UTF-8 view of its text, a list, a tuple, or an instance with attributes. Native values are `Kinds.NativeValue`, one alternative per group of value kinds. Integers are unbounded, and each integer width of the source is written out in `Ranges`. Bytes are `bv8` and UTF-16 code units are `bv16`.

The tag is what `GetObjectType` answers with the four aggregate classes (`Vector2` ... `Matrix4x4`) registered as themselves. `InitializeModule` registers their metaclass instead, so as written an aggregate instance reads as `Invalid`. Finding 7 models that map too (`Convert.TagAsWritten`), and every other member uses the class-keyed one.

Modules, bottom up:

- `Python`: objects, errors (`PyError` with the CPython exception class), `Result` and `Option`.
- `Ranges`: C integer types, `static_cast` wrap-around, and `IsInRange`.
- `Kinds`: the value kinds and `SetFallbackReturn`.
- `Utf`: the one-character UTF-8 and UTF-16 codecs.
- `Convert`: `ValueFromObject<T>` for every kind, `ArrayFromObject` and the `any` conversion.
- `Create`: `CreatePyObject` and the round trips between the two directions.
- `Arrays`: the loops of `ArrayFromObject`, `FindBitSetIndex` and the `any`-list branch, as methods proved equal to their `Convert` functions.
- `Marshal`: the kind-dispatched conversions a call performs, over an environment holding the answers of the two caches.
- `Scope`: the `ArgsScope` arena as a class.
- `Internal`: `InternalCall`, native into Python.
- `External`: `ExternalCall`, Python into native.
- `Functions`: the function identity cache as a class.
- `Enums`: the enumeration bridge as a class.
- `Strings`: `ReplaceAll`, the method-name split, method export, entry-point parsing and required-module resolution.

Where the code does something its evident intent does not, the model keeps both the code as written and a corrected definition. The corrected one is what the rest of the model uses (see "## Findings").

## Model

| member | source | states |
|---|---|---|
| Python.TypeErrorFor | src/module.cpp:232-235 | `SetTypeError` raises a TypeError |
| Python.GetAttr | src/module.cpp:3019-3029 | an attribute lookup finds a value exactly when some attribute has that name, and the value it finds is that attribute's |
| Python.MissingAttr | src/module.cpp:3019-3029 | a missing attribute is an AttributeError |
| Ranges.Cast | src/module.cpp:159-182 | `static_cast` to a C integer type lands in the type's range, is congruent to its input modulo 2^width, and keeps every value already in range |
| Ranges.IsInRange | src/module.cpp:158-182 | when the source type is at least as wide as the target (every instantiation in the file), `IsInRange<T,U>(v)` holds exactly when min(U) <= v <= max(U) as mathematical integers |
| Ranges.NarrowSourceRejectsZero | src/module.cpp:166-169 | with a narrower source type the same-signedness branch compares against truncated limits: `IsInRange<int8_t,int64_t>(0)` is false |
| Ranges.ContainsIsWider | src/module.cpp:158-182 | a type holding every value of another is at least as wide, so the characterisation applies to every accessor type the conversions use |
| Kinds.FallbackReturn | src/module.cpp:621-729 | `SetFallbackReturn` writes, for every kind but `Invalid`, a value of that kind that is its zero |
| Kinds.FallbackIsTheZeroOfItsKind | src/module.cpp:621-729 | for every kind but `Invalid` and `any` the fallback is the only zero value of its kind: a value of the kind is zero if and only if it equals the fallback |
| Utf.ConvertUtf8ToUtf16 | src/module.cpp:91-133 | each return code is characterised by the bytes that cause it: 0 iff the first byte is NUL; 1 iff it is ASCII; 2 iff a 110xxxxx lead and a continuation byte; 3 iff a 1110xxxx lead, two continuation bytes and a non-surrogate value; -3 iff a lead of 11110xxx; -2 for an empty input, a truncated sequence or a bad continuation byte; -1 for a surrogate result or any other lead; the code unit is the value of the bytes |
| Utf.ConvertUtf16ToUtf8 | src/module.cpp:139-155 | the byte count is 0 for NUL, 1 below 0x80, 2 below 0x800, -1 in D800-DFFF and 3 otherwise; the bytes form the matching UTF-8 sequence, carry the code unit's value, and the unused bytes are zero |
| Utf.Utf16RoundTrip | src/module.cpp:91-155 | a non-NUL code unit outside the surrogate range encodes in 1, 2 or 3 bytes by its range, and decoding exactly those bytes gives the same count and the same code unit |
| Utf.Utf8RoundTrip | src/module.cpp:91-155 | a sequence the decoder accepts in its shortest form is exactly what the encoder produces for the decoded code unit |
| Utf.DecoderAcceptsOverlong | src/module.cpp:104-128 | the decoder does not reject overlong forms: C0 80 and E0 80 80 decode to U+0000 |
| Utf.SequenceLength | src/module.cpp:1297-1302 | the strict UTF-8 rule CPython applies in `PyUnicode_FromStringAndSize` (section 4 of RFC 3629): at most four bytes, and one byte exactly for ASCII |
| Utf.DecodeStrict | src/module.cpp:1297-1315 | strict decoding of a byte string counts at most one character per byte, and the empty string has none |
| Utf.OneCharacter | src/module.cpp:1297-1302 | a non-empty byte string that is exactly one strict UTF-8 sequence is one character |
| Utf.EncodedIsWellFormed | src/module.cpp:1305-1315 | whatever the encoder writes for a code unit it accepts is exactly one well-formed character, so creating the string cannot fail |
| Convert.BoolFromObject | src/module.cpp:243-249 | only a bool converts, to its truth value; anything else is TypeError "Expected boolean" |
| Convert.CharFromObject | src/module.cpp:252-273 | a string of length 0 gives NUL and one of length 1 its byte when that is ASCII; a longer string is ValueError "Length bigger than 1", a non-ASCII character "Multibyte character", a non-string TypeError "Expected string" |
| Convert.Char16FromObject | src/module.cpp:276-308 | a one-character string is decoded; decoder code -3 becomes ValueError "Surrogate pair", -2 ValueError "Invalid multibyte character" and -1 RuntimeError "Encoding error", each stated by the bytes that cause it |
| Convert.PyLongAs | src/module.cpp:313-350 | `PyLong_As*` returns the value when its C type holds it, and otherwise raises OverflowError |
| Convert.Via | src/module.cpp:374-411 | each integer kind is read through a C type that holds every value of the kind (LP64) |
| Convert.NarrowPyLong | src/module.cpp:313-350 | an int converts to a target type exactly when it lies in the target's range; the value is kept unchanged, and otherwise the error is an OverflowError: it never truncates |
| Convert.ValueFromNumberObject | src/module.cpp:313-350 | an int, or an enumeration member whose value is an int, is narrowed by `NarrowPyLong`; an object that is neither an int nor an enumeration member is TypeError "Expected integer"; a success is in range of the target |
| Convert.ValueFromNumberObjectAsWritten | src/module.cpp:313-350 | as written, the enumeration branch tests for `enumerate` objects, so a member of `enum.Enum` is "Expected integer" |
| Convert.EnumMemberRefusedAsWritten | src/module.cpp:324-334 | a plain enumeration member with an int value is refused as written and accepted by the corrected form |
| Convert.PointerFromObject | src/module.cpp:414-423 | an int from -2^63 to 2^64-1 becomes an address (negatives wrap), an address already in range is kept; every other object is "Expected integer" |
| Convert.FloatFromObject | src/module.cpp:352-366 | only a Python float converts, to its bits; otherwise TypeError "Expected float" |
| Convert.StringFromObject | src/module.cpp:436-442 | a str converts to the UTF-8 view `PyUnicode_AsString` gives of it; anything else is TypeError "Expected string" |
| Convert.UnencodableString | src/module.cpp:34-41 | a str with no UTF-8 encoding has an empty view: it converts to the empty string, and as a `char16_t` it is "Invalid multibyte character" |
| Convert.ComponentNames | src/module.cpp:3873-4021 | each vector kind is read through as many attribute names as it has components |
| Convert.ReadComponents | src/module.cpp:3873-4021 | the attributes are read in order; the read succeeds exactly when each named attribute exists and holds a float, and then gives their bits in order |
| Convert.VectorFromObject | src/module.cpp:562-574 | a successful vector conversion gives a value of the vector kind |
| Convert.VectorComponents | src/module.cpp:3873-4021 | a vector conversion succeeds only on an instance of the vector class, and gives its float attributes x, y, z, w in order |
| Convert.ReadFloats | src/module.cpp:4153-4194 | a row converts exactly when every element is a float, giving them in order |
| Convert.ReadRows | src/module.cpp:4153-4194 | the rows convert exactly when each is an exact list of four floats; element j of row i lands at `data[i*4+j]` |
| Convert.RowsFlatten | src/module.cpp:4153-4194 | one row of four floats followed by the flattened rest is the flattening of all rows |
| Convert.Matrix4x4FromObject | src/module.cpp:577-579 | a successful matrix conversion gives 16 floats |
| Convert.MatrixFromObjectRows | src/module.cpp:4138-4198 | a matrix conversion succeeds only on an instance of the matrix class whose `m` is a 4x4 list of floats, giving them row by row |
| Convert.AnyLong | src/module.cpp:451-452 | an int passed as `any` is int64 when it fits, otherwise it is an OverflowError |
| Convert.AnyLongAsWritten | src/module.cpp:451-452 | as written, an int outside int64 becomes -1 and is reported as success |
| Convert.AnyLongAsWrittenLosesValue | src/module.cpp:451-452 | 2^63 passed as `any` arrives as -1 without an error; the corrected form refuses it |
| Convert.FirstTag | src/module.cpp:466-476 | the first element tag the type map knows: none exactly when no element has a known tag |
| Convert.ArrayElemFor | src/module.cpp:477-528 | the tag of a list's elements picks an array kind exactly for int, bool, float, str and the four aggregate classes; the kind picked is a proper element kind (never `any`), and an unknown tag picks none |
| Convert.ListTypeError | src/module.cpp:531-543 | a list that is no array is a TypeError whose message starts "List should contains supported types, but contains: [" and ends with the closing quote and bracket; for a one-element list the message names exactly that element's type |
| Convert.TypeNames | src/module.cpp:531-541 | one type name per element, in list order |
| Convert.ValueFromObject | src/module.cpp:238-579 | dispatched on the kind, a successful conversion always yields a well-formed value of that kind |
| Convert.AnyFromObject | src/module.cpp:448-559 | a successful `any` conversion gives a value an `any` can hold |
| Convert.AnyList | src/module.cpp:460-546 | a successful list conversion gives a value an `any` can hold |
| Convert.EmptyListIsInt64Array | src/module.cpp:462-464 | an empty list given for `any` becomes an empty int64 array, both in the list branch and through the whole `any` conversion |
| Convert.HomogeneousListIsArray | src/module.cpp:465-528 | a non-empty list whose known elements all carry one supported tag (Long, Bool, Float, Unicode, and Vector2/3/4 and Matrix4x4 when the aggregate classes are registered as themselves) converts as that array kind |
| Convert.MixedTagsRefused | src/module.cpp:477-546 | two elements with different known tags make the list the TypeError that names every element's type |
| Convert.NoArrayKindRefused | src/module.cpp:477-546 | a non-empty list with no known tag, or only tags with no array kind, is that TypeError too |
| Convert.TagAsWritten | src/module.cpp:3326-3329 | with the metaclass registered in place of each aggregate class, exactly the aggregate tags (and `Invalid`) read as `Invalid`; every other tag is kept |
| Convert.RetagAsWritten | src/module.cpp:4347-4362 | the object and its list items carry their as-written tags; type names and bodies are unchanged, since an unregistered type is named by `PyType_GetName` |
| Convert.AnyFromObjectAsWritten | src/module.cpp:448-559 | the `any` conversion under the map as written still gives only values an `any` can hold |
| Convert.AggregateRefusedAsWritten | src/module.cpp:448-559 | as written, a Vector2/3/4 or Matrix4x4 instance given for `any` is TypeError "Any argument not supports python type: ... for marshalling." |
| Convert.AggregateListRefusedAsWritten | src/module.cpp:465-528 | as written, a non-empty list of aggregate instances given for `any` is the list TypeError naming every element's type |
| Convert.VectorTag | src/module.cpp:3326-3328 | each vector kind's tag is an aggregate tag whose array kind is that vector kind |
| Convert.AnyVectorIsVectorRead | src/module.cpp:548-553 | an object tagged Vector2/3/4 given for `any` is read by that vector's conversion |
| Convert.AnyListBranch | src/module.cpp:459-545 | a list given for `any` takes the list branch |
| Convert.ArrayFromObject | src/module.cpp:582-599 | a successful array conversion gives an array of the element kind |
| Convert.ArrayFromObjectElements | src/module.cpp:582-599 | a non-list is "Expected list"; a list converts exactly when every element does, into an array of the same length whose element i is item i's conversion |
| Convert.ArrayFromObjectFirstError | src/module.cpp:582-599 | a list that does not convert fails with the error of its first element that does not, every earlier element converting |
| Convert.ElementsOf | src/module.cpp:588-592 | each list item is converted with `ValueFromObject` of the element kind |
| Convert.MapPrefix | src/module.cpp:588-597 | converting the first n items gives n values or fails |
| Convert.MapPrefixElements | src/module.cpp:588-597 | the prefix converts exactly when each item does, then holds their values in order, and otherwise holds the error of the first item that fails |
| Convert.FromObject | src/module.cpp:2563-2771 | the conversion a by-pointer slot uses yields a value of the slot's kind |
| Arrays.TagIndex | src/module.cpp:470-472 | every tag has a bit below `MaxPyTypes` |
| Arrays.TagAt | src/module.cpp:477-478 | casting a bit position back to a tag inverts `TagIndex` |
| Arrays.TagIndexInjective | src/module.cpp:465-478 | two tags share a bit exactly when they are the same tag |
| Arrays.FlagsOf | src/module.cpp:465-476 | the bit set has one flag per tag position |
| Arrays.FlagsOfSays | src/module.cpp:465-476 | bit b is set exactly when some element has a known tag whose position is b |
| Arrays.OneFlagIffHomogeneous | src/module.cpp:465-478 | exactly one bit is set iff the list has a known tag and every known tag is that one; that tag's bit is then set |
| Arrays.FindBitSetIndex | src/module.cpp:190-196 | the result is the lowest set bit, or `SIZE_MAX` exactly when no bit is set |
| Arrays.ErrorPersists | src/module.cpp:588-597 | once a prefix fails to convert, every longer prefix fails with the same error |
| Arrays.FillArray | src/module.cpp:584-598 | the fill loop computes `MapPrefix` over the whole list: every value in order, or the first error |
| Arrays.ArrayFromObjectLoop | src/module.cpp:582-599 | the method computes `Convert.ArrayFromObject` |
| Arrays.ListTypeMessage | src/module.cpp:531-543 | the message loop builds exactly the text of `ListTypeError`: the prefix, each type name quoted and separated by `', '`, then `']` |
| Arrays.AnyListFromObject | src/module.cpp:460-546 | the bit loop, the count, `FindBitSetIndex` and the switch compute `Convert.AnyList` |
| Arrays.MixedListRefused | src/module.cpp:477-546 | the list [1, "x"] is refused with TypeError "List should contains supported types, but contains: ['Long', 'Unicode']" |
| Create.StrFromBytes | src/module.cpp:1297-1315 | `PyUnicode_FromStringAndSize` succeeds exactly on strict UTF-8, and a failure is a ValueError |
| Create.VectorAttrs | src/module.cpp:3849-4021 | a created vector has one float attribute per component, named by its axis |
| Create.VectorArgs | src/module.cpp:3850-3867 | the argument tuple holds one float object per component, in order |
| Create.VectorConstructed | src/module.cpp:3868 | calling a vector class with n arguments gives an instance of the n-component class, tagged as it, holding argument i as attribute x, y, z or w |
| Create.VectorObject | src/module.cpp:3849-3990 | a created vector is the constructed instance of its arity, tagged as its class, whose attributes are `VectorAttrs` of the components |
| Create.MatrixRows | src/module.cpp:4023-4136 | sixteen objects regroup into four exact lists of four, row i column j holding object 4i+j |
| Create.MatrixElements | src/module.cpp:4024-4131 | the one constructor argument is an exact list of 16 float objects, element k holding d[k] |
| Create.Matrix4x4Constructed | src/module.cpp:4133 | calling the matrix class with a 16-element list gives a Matrix4x4 instance whose one attribute `m` is that list regrouped into rows |
| Create.MatrixObject | src/module.cpp:4023-4136 | a created matrix is an instance whose tag agrees with its class |
| Create.CreatePyObject | src/module.cpp:1286-1449 | a created object's tag agrees with its value; a surrogate char16 is ValueError "Surrogate pair"; integers, addresses, bools, floats and the empty `any` always convert; a vector or matrix becomes its class instance; an array becomes the list `CreatePyObjectList` builds from its elements |
| Create.CreatePyObjectList | src/module.cpp:1452-1466 | the list exists exactly when every element's object does, and holds them in order |
| Create.CreateObjects | src/module.cpp:1452-1466 | one object per element, in order, or failure exactly when some element fails |
| Create.Char8Creatable | src/module.cpp:1297-1302 | a `char` becomes a string exactly when it is below 0x80, a non-NUL one the one-byte string |
| Create.Char16Creatable | src/module.cpp:1305-1315 | a `char16_t` becomes a string exactly when it is not a surrogate, and then a one-character string |
| Create.Char8RoundTrip | src/module.cpp:252-273 | a creatable `char` converts back to itself |
| Create.Char16RoundTrip | src/module.cpp:276-308 | a creatable `char16_t` converts back to itself |
| Create.IntRoundTrip | src/module.cpp:1318-1356 | every integer of every width converts back to itself |
| Create.VectorRoundTrip | src/module.cpp:3849-4021 | a created vector converts back to its components |
| Create.MatrixRoundTrip | src/module.cpp:4023-4198 | a created matrix converts back to its 16 floats |
| Create.ValueRoundTrip | src/module.cpp:238-579 | every value of an element kind other than `any` that `CreatePyObject` accepts converts back to itself with `ValueFromObject` |
| Create.ArrayRoundTrip | src/module.cpp:582-599 | a created list converts back, element by element, to the same array |
| Create.StringRoundTrip | src/module.cpp:1373-1375 | a Python string whose bytes are strict UTF-8 survives the trip to a native string and back |
| Create.VectorObjectTag | src/module.cpp:3849-3990 | a created vector carries the tag of its kind |
| Create.VectorThroughAny | src/module.cpp:448-559 | a created vector converts back to itself through `any` with the class-keyed map, and is refused as unsupported with the map as written |
| Create.VectorListTags | src/module.cpp:1452-1466 | the list created for an array of vectors exists, and every item carries the vector kind's tag |
| Create.VectorArrayThroughAny | src/module.cpp:459-545 | a created non-empty array of vectors converts back to itself through `any` with the class-keyed map, and is the list TypeError with the map as written |
| Marshal.EnumMembers | src/module.cpp:1474-1488 | `CreatePyEnumObjectList` gives one enum member per element, in order, or fails exactly when some element has none |
| Marshal.EnumMember | src/module.cpp:1469-1471 | the member looked up is the one for the value as an int64: a value in int64 range is looked up as itself, and a uint64 value above the int64 range as that value minus 2^64 |
| Marshal.EnumToObject | src/module.cpp:1490-1532 | an integer enumeration value is looked up as its member, an array member by member |
| Marshal.NativeToObject | src/module.cpp:1578-1669 | a function address goes through the function cache; every other value through `CreatePyObject` |
| Marshal.ParamObject | src/module.cpp:1805-1807 | a parameter with an enumeration becomes that enumeration's member (or list of members), any other parameter its plain object; so an enumerated integer is the member for its value, and a non-function value is `CreatePyObject` of it |
| Marshal.ObjectToNative | src/module.cpp:2563-2771 | a success gives a value of the kind; a function is accepted exactly when the cache gives an address; every other kind uses `CreateValue`/`CreateArray` |
| Marshal.NativeRoundTrip | src/module.cpp:1578-1669 | every value of a kind other than `any` and `Function` whose object creation succeeds converts back to itself |
| Scope.PushedByValue | src/module.cpp:2563-2670 | scalars and function addresses go in the slot, the pointer-passed kinds into a new cell, each holding a value of its kind; a kind that is neither storable nor `Function` is a RuntimeError whose message starts "PushObjectAsParam unsupported type" (the type code that follows is not modelled); otherwise the push succeeds exactly when the conversion does |
| Scope.PushedByRef | src/module.cpp:2672-2771 | a by-reference push always allocates a cell of a storable kind; the other kinds are a RuntimeError whose message starts "PushObjectAsRefParam unsupported type" (the type code that follows is not modelled) |
| Scope.ApplyWrites | src/module.cpp:2375-2561 | the native side writes only through the pointers it got, only values of the pointee's own kind, and leaves every other cell unchanged |
| Scope.ArgsScope.constructor | src/module.cpp:1977-1979 | a new scope has no arguments, no storage and nothing released |
| Scope.ArgsScope.BeginExternalCall | src/module.cpp:2155-2296 | the hidden return gets one new default cell of the return kind, and its address becomes the next argument |
| Scope.ArgsScope.Add | src/module.cpp:2563-2771 | a value in its slot adds one argument; a value in a cell adds one storage entry of its kind and an argument pointing at it |
| Scope.ArgsScope.PushObjectAsParam | src/module.cpp:2563-2670 | on failure nothing is added and the error is returned; on success exactly one argument, and a cell only for the pointer-passed kinds |
| Scope.ArgsScope.PushObjectAsRefParam | src/module.cpp:2672-2771 | on failure nothing is added; on success one cell and one argument pointing at it |
| Scope.ArgsScope.NativeWrites | src/module.cpp:2375-2561 | the native call changes the storage only as `ApplyWrites` says and keeps the scope valid |
| Scope.ArgsScope.Release | src/module.cpp:1981-2153 | the destructor deletes every storage entry exactly once, in order, each of a kind its switch handles |
| Internal.SetForSetsOwnKind | src/module.cpp:731-1281 | `SetReturn` and `SetRefParam` only ever write a value of the kind asked for |
| Internal.Logged | src/module.cpp:1847-1905 | a failure is logged exactly when it left a pending exception |
| Internal.ArgObjects | src/module.cpp:1796-1838 | the argument loop gives one object per argument or fails |
| Internal.ArgObjectsElements | src/module.cpp:1796-1838 | the argument tuple holds each argument's own object in order, and fails exactly when some argument's conversion does |
| Internal.ArgErrorPersists | src/module.cpp:1796-1838 | once an argument fails, the loop's outcome is that failure |
| Internal.WriteBack | src/module.cpp:1878-1893 | the write-back keeps the number of native arguments |
| Internal.WriteBackWrites | src/module.cpp:1878-1893 | the k-th reference parameter gets the value converted from tuple element 1+k when that converts; every other argument is unchanged |
| Internal.WriteBackKeepsKinds | src/module.cpp:1878-1893 | the write-back never puts a value of the wrong kind into a reference slot |
| Internal.WriteBackDone | src/module.cpp:1890-1892 | after the last reference parameter nothing more is written, so the loop may stop there |
| Internal.InternalCallWith | src/module.cpp:1775-1909 | a callback never changes the number of native arguments |
| Internal.InternalCallSpec | src/module.cpp:1775-1909 | a call keeps the number of arguments, returns a value of the declared return kind, and leaves well-kinded arguments well-kinded |
| Internal.Returned | src/module.cpp:1775-1909 | the return step leaves the arguments alone, adds at most one log line to the log, returns the fallback of the kind whenever it logs, and with a setter that writes its own kind returns a value of that kind |
| Internal.ReturnSlotHoldsItsKind | src/module.cpp:1775-1909 | whatever happens, the return slot holds a value of the declared kind, and well-kinded arguments stay well-kinded |
| Internal.BadTupleWritesNothing | src/module.cpp:1855-1877 | with R > 0 reference parameters, a result that is not an exact tuple of 1+R elements is a TypeError: the fallback is returned and no reference slot is written |
| Internal.ArgsChangeOnlyThroughTheTuple | src/module.cpp:1840-1895 | a reference slot changes only when every argument converted, the function returned, and its result is an exact tuple of 1+R elements |
| Internal.RefObjects | src/module.cpp:1878-1893 | the reference arguments' objects, one per reference parameter |
| Internal.EchoWith | src/module.cpp:1775-1909 | a function that hands its reference arguments back unchanged, with a setter that undoes the converter, leaves every native argument as it was |
| Internal.EchoLeavesArgs | src/module.cpp:1775-1909 | the round trip of the tuple protocol: with the module's own conversions, an echoing function writes each reference argument back with the value it had |
| Internal.ConvertArgs | src/module.cpp:1796-1838 | the argument loop computes `ArgObjects` and counts the reference parameters |
| Internal.SetRefParam | src/module.cpp:991-1281 | a successful conversion writes exactly that slot; a failed one leaves the arguments unchanged and logs the error |
| Internal.WriteRefs | src/module.cpp:1878-1893 | the write-back loop computes `WriteBack`: the arguments and the log it leaves |
| Internal.InternalCall | src/module.cpp:1775-1909 | the method's return value, arguments and log are those of `InternalCallSpec` |
| External.RefsBefore | src/module.cpp:2961-2966 | the count of reference parameters before a position is at most the position |
| External.CellsBefore | src/module.cpp:2961-2974 | the count of cells allocated before a position is at most the position |
| External.RefsNoMoreThanCells | src/module.cpp:2961-2974 | every reference owns a cell, so the refs-so-far count never runs ahead of the cells-so-far count |
| External.PushForPushesIntoCells | src/module.cpp:2563-2771 | the module's push puts an argument in a cell exactly when its parameter has one, holding a value of the parameter's kind |
| External.ReadCell | src/module.cpp:2773-2904 | a cell read as its own kind has a defined outcome |
| External.ReaderForReadsOwnKind | src/module.cpp:2773-2904 | the module's read is defined on every cell of the parameter's own kind |
| External.Initial | src/module.cpp:2951-2959 | a hidden return starts the scope with one cell of the return kind, and otherwise it starts empty |
| External.Push | src/module.cpp:2961-2974 | one push keeps the earlier cells and adds one cell exactly when the parameter has one, of the parameter's kind |
| External.PushPrefix | src/module.cpp:2961-2974 | after n pushes the storage is the initial one plus one cell per cell-owning parameter |
| External.PushPrefixOwnsCells | src/module.cpp:2961-2974 | after the pushes each parameter's cell sits at hidden + cells-before, allocated with its kind |
| External.PushErrorPersists | src/module.cpp:2970-2973 | a failed push ends the pushing: its failure is the outcome |
| External.ReturnObject | src/module.cpp:2298-2561 | `void` returns None, `Invalid` is a RuntimeError, every other kind converts the returned value |
| External.ReadInto | src/module.cpp:2993-3001 | one more reference result is appended after the ones read so far |
| External.RefsPrefix | src/module.cpp:2985-3013 | the reference results give one object per reference parameter |
| External.NatToString | src/module.cpp:2943-2945 | the decimal digits of a count are never empty |
| External.CallNative | src/module.cpp:2298-2561 | the native call returns a value of its kind, and leaves every cell with the kind it was allocated as |
| External.Results | src/module.cpp:2985-3013 | with reference parameters the result is a tuple of 1+R objects |
| External.ExternalCallWith | src/module.cpp:2929-3016 | arguments that are not a tuple are a TypeError; a tuple whose size is not the parameter count is "Wrong number of parameters" |
| External.ExternalCallSpec | src/module.cpp:2929-3016 | with the corrected cell index, arguments that are not a tuple are that TypeError, and a tuple of the wrong size is the argument-count TypeError naming both counts |
| External.ExternalCallAsWritten | src/module.cpp:2929-3016 | as written, the same two errors come first: a non-tuple and a wrong argument count |
| External.CellIndex | src/module.cpp:2985-3013 | the cell read for reference i lies after the hidden cells and no further than i cells past them; as written it is never beyond the cells the first i parameters fill |
| External.RefsPrefixDefined | src/module.cpp:2985-3013 | when every reference parameter owns its cell, reading by the corrected rule is always defined |
| External.CallKeepsOwnership | src/module.cpp:2298-2561 | the native call keeps each parameter's cell of its kind |
| External.AfterPushDefined | src/module.cpp:2976-3013 | once every reference parameter owns its cell, the corrected reading after the call is defined |
| External.CorrectedIsDefined | src/module.cpp:2929-3016 | with a push that allocates cells as the signature says and a read defined on its own kind, the corrected call always has a defined outcome |
| External.CorrectedNeverUndefined | src/module.cpp:2929-3016 | the module's own push and read meet those conditions, so the corrected `ExternalCall` never reads a cell as another type |
| External.CountsAgree | src/module.cpp:2961-2974 | when only reference parameters own cells, the two counts are equal |
| External.RefsPrefixRulesAgree | src/module.cpp:2985-3013 | under that condition the two rules read the same cells |
| External.RulesAgreeWithoutValueCells | src/module.cpp:2985-3013 | the source's reading is right exactly where no by-value argument owns a cell: the two rules then give the same outcome |
| External.RulesDisagreeOnAB | src/module.cpp:2985-3013 | for `void f(string s, string& out)` called with ("a", "b"), where f stores "c" into `out`, the two rules return different tuples |
| External.ExternalCallReadsWrongCell | src/module.cpp:2985-3013 | as written that call returns (None, "a"), the by-value argument's cell; the corrected call returns (None, "c") |
| External.PushOne | src/module.cpp:2961-2974 | one argument pushed into the scope, or the scope unchanged with the error |
| External.PushNext | src/module.cpp:2961-2974 | push i from the state the first i pushes leave, or the error that is the whole loop's outcome |
| External.PushArguments | src/module.cpp:2961-2974 | the push loop leaves the scope `PushPrefix` describes, or returns its error |
| External.ReadNext | src/module.cpp:2985-3013 | the result of parameter i, read from its own cell; the cell index advances past the cells parameter i owns |
| External.ReadRefs | src/module.cpp:2985-3013 | the result loop computes the corrected `RefsPrefix` |
| External.CallAndCollect | src/module.cpp:2976-3013 | the native call and the conversion of its results compute the corrected `AfterPush` |
| External.ExternalCall | src/module.cpp:2929-3016 | the method's result is the corrected outcome `ExternalCallSpec` defines, which `CorrectedNeverUndefined` shows is always defined |
| Functions.Added | src/module.cpp:3763-3766 | `AddToFunctionsMap` records both directions without overwriting: the keys grow by the address and the object, earlier entries stay, and a new key maps to its partner |
| Functions.FunctionObject | src/module.cpp:3768-3816 | a cached address returns its object and changes nothing; a success caches the object under the address; a failure changes nothing; an uncached address succeeds exactly when the wrapper was made |
| Functions.FunctionValue | src/module.cpp:3818-3847 | None gives the null address without error; a non-callable is TypeError "Expected function"; a cached non-null address is returned unchanged; a failure changes nothing; a change to the cache records the new address |
| Functions.AddedKeepsConsistent | src/module.cpp:3763-3766 | recording a fresh address and a fresh callable keeps the two maps inverse to each other |
| Functions.FunctionObjectKeepsConsistent | src/module.cpp:3768-3816 | asking for a function object keeps the maps inverse |
| Functions.FunctionValueKeepsConsistent | src/module.cpp:3818-3847 | asking for a function address keeps the maps inverse |
| Functions.FunctionObjectIsCached | src/module.cpp:3768-3772 | a second request for the same address returns the cached object and makes no new wrapper |
| Functions.FunctionValueIsCached | src/module.cpp:3824-3830 | a second request for the same callable returns the same address and compiles nothing |
| Functions.ObjectThenValue | src/module.cpp:3768-3847 | the callable made for a non-null address converts back to an address whose callable is that object, and to that very address when the callable was newly made |
| Functions.ValueThenObject | src/module.cpp:3768-3847 | a callable converted to an address converts back to itself |
| Functions.NullAddressDefeatsCache | src/module.cpp:3824-3830 | a callable cached under the null address is compiled again on each request, since a cached null address counts as a miss |
| Functions.FunctionCache.constructor | src/module.cpp:3070 | the maps start empty |
| Functions.FunctionCache.FindExternal | src/module.cpp:3747-3753 | the object for an address exactly when the address is mapped |
| Functions.FunctionCache.FindInternal | src/module.cpp:3755-3761 | the address for an object, or null when it is not mapped |
| Functions.FunctionCache.AddToFunctionsMap | src/module.cpp:3763-3766 | the new state is `Added` applied to the old |
| Functions.FunctionCache.GetOrCreateFunctionObject | src/module.cpp:3768-3816 | result and new state are those of `FunctionObject` on the old state |
| Functions.FunctionCache.GetOrCreateFunctionValue | src/module.cpp:3818-3847 | result and new state are those of `FunctionValue` on the old state |
| Enums.MemberOf | src/module.cpp:4302-4306 | a member holds its value and has the enumeration's name as its type |
| Enums.FilledTo | src/module.cpp:4318-4324 | after n values the table's keys are its old keys plus the first n values |
| Enums.Filled | src/module.cpp:4318-4324 | the filled table maps each declared value to what calling the class with it returned (null on failure) and keeps every other entry |
| Enums.FilledHoldsOwnValues | src/module.cpp:4318-4324 | filling keeps every entry's member holding its own key |
| Enums.Constants | src/module.cpp:4301-4303 | the constants dict has exactly the declared names as keys |
| Enums.MemberCall | src/module.cpp:4304-4306 | calling the class with a value gives a member exactly when the value is among the constants |
| Enums.ReleaseBuildMembersFail | src/module.cpp:4302-4306 | as written, with assertions compiled out the constants dict stays empty, so no declared value has a member |
| Enums.ConstantsLast | src/module.cpp:4301-4303 | a name that is not declared again later maps to its own value |
| Enums.EveryValueHasMember | src/module.cpp:4301-4306 | with the dict filled, every declared value has its member |
| Enums.MemberEntry | src/module.cpp:4320-4323 | the stored pointer is non-null exactly when the value is among the constants, and is then the value's member |
| Enums.FilledMembers | src/module.cpp:4301-4323 | with no name declared twice, every declared value is stored as its own member |
| Enums.RepeatedNameStoresNull | src/module.cpp:4301-4323 | a name declared twice keeps only its last value, so the earlier value's entry is a null pointer |
| Enums.NullClassProceedsAsWritten | src/module.cpp:4310 | as written, the guard lets a missing class through, whether or not it was stored; the intended guard stops it |
| Enums.ConstantsAsWritten | src/module.cpp:4301-4304 | as written, the constants dict holds every declared name when assertions are compiled in and no name at all when they are compiled out |
| Enums.ProceedsAsWritten | src/module.cpp:4310 | as written, a null class always lets the fill go on, and a class that exists lets it go on exactly when it was stored |
| Enums.Proceeds | src/module.cpp:4310 | the intended guard lets the fill go on only when the written one does, and agrees with it whenever the class exists |
| Enums.ExistingNameOnlyLinks | src/module.cpp:4287-4295 | a name already in the module dict is not rebuilt; an existing table is only linked |
| Enums.NothingCreated | src/module.cpp:4296-4299 | an enumeration with no values creates nothing |
| Enums.CreateEnumKeepsValid | src/module.cpp:4286-4328 | creating an enumeration keeps every table non-empty and every member holding its own value |
| Enums.CreateEnum | src/module.cpp:4286-4328 | creating an enumeration either leaves the module dict alone or stores the new class under the enumeration's name, only for a new name with values whose class was made and stored; at most one table is added; the only new link is for this enumeration; existing links and tables are kept |
| Enums.FirstKey | src/module.cpp:4338 | the first entry of a key-ordered table is its least key |
| Enums.EnumLookup | src/module.cpp:4330-4345 | an unregistered enumeration is ValueError "Invalid enum"; otherwise the stored pointer of the exact match when the value is in the table, and of the table's first (least) entry when it is not; a non-null result holds the value exactly when the value is in the table |
| Enums.LookupAfterCreate | src/module.cpp:4286-4345 | after creation the name maps to the new class, every declared value looks up to what its member call returned, and with no name declared twice to its own member |
| Enums.EnumBridge.constructor | src/module.cpp:3070 | the enum maps start empty, which satisfies the bridge's invariant |
| Enums.EnumBridge.FillTable | src/module.cpp:4318-4324 | the fill loop changes only the table it fills, to `Filled`: each declared value gets what its member call returned |
| Enums.EnumBridge.CreateEnumObject | src/module.cpp:4286-4328 | the new state and dict are those of `CreateEnum` on the old state |
| Enums.EnumBridge.GetEnumObject | src/module.cpp:4330-4345 | the result is `EnumLookup` on the current state |
| Strings.Find | src/module.cpp:26-32 | `find` gives the first occurrence at or after the position, or none when there is none |
| Strings.FirstIndexOf | src/module.cpp:1923 | the first index of a character, or none when it is absent |
| Strings.LastIndexOf | src/module.cpp:3504 | the last index of a character, or none when it is absent |
| Strings.ReplaceAll | src/module.cpp:26-32 | the in-place loop, resuming after each inserted text, computes the left-to-right non-overlapping replacement |
| Strings.Replaced | src/module.cpp:26-32 | replacing by a text as long as the pattern keeps the length of the string |
| Strings.NoOccurrenceUnchanged | src/module.cpp:26-32 | a string in which the pattern occurs nowhere comes through the replacement unchanged |
| Strings.ReplaceCharIsMap | src/module.cpp:3518-3531 | replacing one character by another keeps the length and maps each position on its own |
| Strings.SplitFirstDotParts | src/module.cpp:1920-1929 | the class name holds no dot; there is no class exactly when the name holds no dot, and the method name is then the whole name; otherwise class, dot and method give the name back |
| Strings.SplitFirstDot | src/module.cpp:1920-1929 | a name with a dot splits at its first dot into a class part that holds no dot and the rest, which glued back with the dot give the name; a name without a dot is a plain function name with an empty class part |
| Strings.SplitJoin | src/module.cpp:1920-1929 | a dotless class name joined to a method name splits back into both |
| Strings.MethodExport | src/module.cpp:1917-1971 | a dotless name exports the module callable of that name; `Class.method` exports the class attribute, bound unless static; it succeeds exactly when the target is found, callable, bindable if needed, and the wrapper compiles; a failed lookup's error comes before the JIT's |
| Strings.PlainFunctionExport | src/module.cpp:1940-1951 | a dotless name exports the module-level callable unbound, or reports "not found" or "not function type" |
| Strings.ClassMethodExport | src/module.cpp:1933-1961 | `Class.method` exports the class attribute, bound to the plugin instance unless it is a static method |
| Strings.ExportTarget | src/module.cpp:1933-1956 | every failed lookup is a message, not a raised exception, and the message is one of: not found, not a function, or the binding failed |
| Strings.ParseEntryPoint | src/module.cpp:3497-3515 | each of the five checks is stated with its own message and in its order; an accepted entry point is module path, dot, class name, with neither part empty and no dot in the class |
| Strings.ParseEntryPointAccepts | src/module.cpp:3497-3515 | every well-formed entry point is accepted and split back into its two parts |
| Strings.ModuleFileHasNoDots | src/module.cpp:3518-3519 | after `ReplaceAll` the module path holds no dot |
| Strings.RequiredPlugin | src/module.cpp:3453-3457 | a name with the `plugify.pps.` prefix and more names a plugin, which is what follows the prefix up to the next dot |
| Strings.PlaceholderKeyAsWrittenKeepsRest | src/module.cpp:3463-3464 | as written, for `plugify.pps.a.b` the placeholder is stored under `a.b`, not under the plugin name `a` |
| Strings.PlaceholderKeyAsWritten | src/module.cpp:3463-3464 | as written, the placeholder key is the whole module name after the `plugify.pps.` prefix |
| Strings.ResolveRequired | src/module.cpp:3452-3468 | a name outside the prefix is ignored; a loaded plugin has its module created; otherwise a placeholder is stored under the plugin name |
| Strings.RequiredPluginWhole | src/module.cpp:3453-3457 | a dotless plugin name after the prefix is the plugin name |

## Left out

- Reference counting, the GIL, `PyErr_*` state beyond the error a failure raises, and the creation of CPython type objects: they do not change which values are converted.
- The type map (`_typeMap`, `GetObjectType`): each object's tag and type name are carried by the object, and an object the map does not know has the tag `Invalid`. The tags follow the map with the aggregate classes as keys; `Convert.RetagAsWritten` gives the tags of the map as written, for the two places that read them (the object given for `any` and its list items).
- Scope.PushedByValue, Scope.PushedByRef, External.ReadCell, External.ReturnObject: the "unsupported type" RuntimeError messages stop before the ` {:#x}` type code the source appends (src/module.cpp:2367, 2555, 2663, 2764, 2809, 2899), because the numeric value of each `ValueType` is defined in plugify's headers, which are not part of this model; the message text up to the code is modelled exactly.
- asmjit trampoline synthesis (`JitCall`, `JitCallback`, `CreateInternalCall`): a compiled wrapper is an input that either carries a fresh non-null address or a failure reason.
- Floating point: float components are opaque bit patterns, with no check of `ValueFromFloatObject`'s range against infinity.
- `Initialize`, `Shutdown`, module import in `OnPluginLoad`, `LogError` formatting and `CustomPrint`: interpreter and file-system I/O. The log is a sequence of errors.
- The duplicated `convertFunc` call at src/module.cpp:1808: its result is discarded, so it only leaks a reference. The model converts each parameter once.
- The numbering of `PyAbstractType` lives in a header that is not part of this model: `Arrays.TagIndex` assumes the declaration order, and only its injectivity and its bound are used.
- `ValueUtils::IsHiddenParam` is defined outside this file; the model uses the System V x86-64 rule (strings, `any`, arrays and matrices are returned through a hidden first argument).
- `ExternalCallNoArgs`: the same call with an empty tuple check and no arguments pushed.
- `PyTuple_New` and `PyList_New` failures: allocation is assumed to succeed.
- Fatal defaults (`std::terminate` on a descriptor the switches do not handle) are excluded by preconditions on the method descriptor.
- `_externalFunctions` and `_internalFunctions`: ownership lists of the trampolines and method definitions, which no lookup reads.
- `PythonEnumMap` is declared outside this file; it is assumed ordered by key, so its first entry is its least key.
- Enums.MemberCall: a call of the enum class fails only for a value with no constant; other failures of `PyObject_CallOneArg` are not modelled.
- Enums.EnumBridge.GetEnumObject: a null entry is returned as `NoValue`; the `Py_INCREF` of it in the code, a null dereference, is not followed.
- Strings.ReplaceAll: requires a non-empty `from`; every caller passes "." or "/".
- `ResolveRequiredModule` and `TryCreateModule` also store their placeholder inside `assert` (src/module.cpp:3442, 3464), like Finding 4; the module dictionary itself is not modelled.
- Kinds.FallbackIsTheZeroOfItsKind: excludes `any`, whose zero values include an empty value of every alternative.
- Ranges.IsInRange: characterised only when the source type is at least as wide as the target, which holds at every call in the file; `NarrowSourceRejectsZero` shows the other case.
- Convert.AnyList and Convert.AnyFromObject: their own contracts say only that a success is a value an `any` holds, and that an empty list is an empty int64 array; the branch-by-branch properties are the lemmas `EmptyListIsInt64Array`, `HomogeneousListIsArray`, `MixedTagsRefused`, `NoArrayKindRefused` and the method `Arrays.AnyListFromObject`.
- Create.VectorConstructed, Create.Matrix4x4Constructed: the plugify classes' constructors are Python code outside this model. A vector class called with n float arguments is taken to give an instance of the n-component class holding them as attributes `x`, `y`, `z`, `w`. The matrix class called with a 16-element list is taken to hold it as a 4x4 list `m`, row by row. Only these two functions state that assumption.
- Create.MatrixObject, Create.MatrixRows, Create.MatrixRoundTrip: the 4x4 `m` is what `Matrix4x4Constructed` assumes the class makes of the flat 16-element list the code passes; the round trip holds under that assumption.
- Create.VectorObject, Create.VectorRoundTrip, Create.VectorThroughAny, Create.VectorArrayThroughAny: the `x`, `y`, `z`, `w` attributes are what `VectorConstructed` assumes the class makes of its arguments; the round trips hold under that assumption.
- Create.ValueRoundTrip: its vector and matrix cases rest on the constructor assumption of `VectorConstructed` and `Matrix4x4Constructed`.
- Create.ArrayRoundTrip: its vector and matrix element cases rest on the same constructor assumption.
- Create.CreatePyObject: its vector and matrix results are the instances the constructor assumption describes.
- Marshal.NativeRoundTrip: its vector and matrix cases rest on the same constructor assumption. The conversions back read the attributes with `PyObject_GetAttrString`, as the code does.
- Convert.StringFromObject: for a str with no UTF-8 encoding the view is empty, as `PyUnicode_AsString` returns it. The UnicodeEncodeError CPython leaves pending is not modelled.
- Convert.CharFromObject: for a one-character str with no UTF-8 encoding, `PyUnicode_AsUTF8` returns null and the code reads through it. The model reads the terminator of the empty view, NUL.
- Functions.FunctionValueIsCached: holds when no wrapper was made for the null address; `NullAddressDefeatsCache` shows why.
- python3.12/darwin-arm64/lib/test/libregrtest/runtests.py is not part of this model: it belongs to the vendored CPython test harness.

## Findings

| source | as written | input that shows it | evidently intended | confidence | as-written member | corrected member |
|---|---|---|---|---|---|---|
| src/module.cpp:2985-3013 | the k-th reference result is read from cell `hasHiddenParam + k`, but by-value strings, `any`, arrays, vectors and matrices also own cells | `void f(string s, string& out)` called with ("a", "b"), f storing "c" into `out`: the call returns (None, "a") | read each reference result from the cell its own push allocated, returning (None, "c") | not executed | External.ExternalCallAsWritten, External.ExternalCallReadsWrongCell | External.ExternalCallSpec, External.CorrectedNeverUndefined, External.ExternalCall |
| src/module.cpp:451-452 | the `any` conversion of an int uses `PyLong_AsLongLong` without checking for its overflow error | 2^63 becomes -1, reported as success | an int outside int64 is an OverflowError, as in every other integer conversion | not executed | Convert.AnyLongAsWritten, Convert.AnyLongAsWrittenLosesValue | Convert.AnyLong |
| src/module.cpp:324-334 | the enumeration branch of `ValueFromNumberObject` tests `PyEnum_Type`, the type of `enumerate` objects | a member of an `enum.Enum` with value 3 is refused as "Expected integer" | accept an `enum.Enum` member by its int value | not executed | Convert.ValueFromNumberObjectAsWritten, Convert.EnumMemberRefusedAsWritten | Convert.ValueFromNumberObject |
| src/module.cpp:4303 | the constants dict is filled inside `assert`, which a release build compiles out | any enumeration, with NDEBUG: no value has a member, so every member call fails | fill the dict unconditionally and check the result | not executed | Enums.ConstantsAsWritten, Enums.ReleaseBuildMembersFail | Enums.Constants, Enums.EveryValueHasMember |
| src/module.cpp:4310 | the guard `if (enumClass && PyDict_SetItemString(...) < 0) return;` stops only when the class exists and storing it failed, so it proceeds exactly when the class is null or was stored | a class that could not be created (null): the guard lets it through to the table fill, which calls the null class for every value | proceed only when the class exists and was stored | not executed | Enums.ProceedsAsWritten, Enums.NullClassProceedsAsWritten | Enums.Proceeds, Enums.EnumBridge.CreateEnumObject, Enums.LookupAfterCreate |
| src/module.cpp:3463-3464 | `pluginName.data()` of a shortened `string_view` is passed as a C string, so the key runs to the end of the original name | `plugify.pps.a.b`: the plugin is `a`, but the placeholder is stored under `a.b` | store the placeholder under the plugin name | not executed | Strings.PlaceholderKeyAsWritten, Strings.PlaceholderKeyAsWrittenKeepsRest | Strings.ResolveRequired, Strings.RequiredPluginWhole |
| src/module.cpp:3326-3329 | the aggregate classes are registered under `Py_TYPE(_Vector2TypeObject)` ..., their metaclass `type`, whose key `PyType_Type` is already taken by `Type` at src/module.cpp:3260 | a `Vector2` instance given for an `any` parameter is TypeError "Any argument not supports python type: Vector2 for marshalling.", and a list of them the list TypeError | register the classes themselves, so that instances read as Vector2 ... Matrix4x4 | not executed | Convert.TagAsWritten, Convert.AnyFromObjectAsWritten, Convert.AggregateRefusedAsWritten, Convert.AggregateListRefusedAsWritten | Convert.AnyFromObject, Create.VectorThroughAny, Create.VectorArrayThroughAny |
