# brot core in Dafny

A verified model of the core of brot, a Go web toolkit whose objects are
built from a JSON configuration by a small dependency-injection package.
The model covers:

- the `di` package: the coercion helpers that turn an untyped
  configuration value into a bool, a string or a fixed-width integer; the
  `Scope` registry of types, objects and functions with its parent chain;
  the reflection-driven `assignValue` engine that fills struct fields,
  slices, maps, pointers and interfaces from configuration values; and
  `DynamicFunc`, which binds named arguments to positional parameters;
- `aux.MultiError`, the append-only error list the engine reports through;
- `Configuration.Process` and `map2array`;
- the data layer that merges route and query parameters into a
  multi-value map;
- the `model` package: group membership of a `Context`, the element type
  grammar, `Schema` initialisation and value checking, the `Butter` schema
  registry with its validated `Save` and `LoadSlice`, and the JSON-like
  rendering of a `Vanilla`;
- the file-name suffix generator of the file database;
- the middleware chain of package `wrapper` and the `WrapperHandler` that
  builds one.

Go integers are unbounded `int`s checked against their width, with
explicit two's-complement and modulo-2^w wrap functions (module
`MachineInts`); the platform is taken to be 64-bit, so `int` and `uint`
are 64 bits wide. Reflection is replaced by an explicit kind enumeration
(`Types.Kind`) and a field table (name, `brot` tag, settable flag, kind).
An untyped configuration value is the closed datatype `Values.Value`; a
map value carries the order in which this run's `range` visits its keys,
and every lemma about map sources holds for every such order. Go's
`range` over typed maps in the consumers (`map2array`, `Json`, `Save`,
the providers) is a nondeterministic choice in the methods, which return
the order they took as a ghost result. A panic is the `Panic` arm of
`GoRuntime.Outcome`. The parts of Go's `strconv`, `strings` and `sort`
packages the core calls are modelled in `StrConv`, `GoStrings` and
`Contexts` from their documented behaviour.

Clocks, process ids, the Redis connection, the HTTP request and the
`init` hooks of configured objects are inputs: `reseed()` is a parameter
of `NextSuffix`, the `Connection` is a class whose `Save` reply and `Load`
function are fixed at construction, a request is the pair of its route
variables and query, and an `InitFunc` hook is the script of how many of
its calls fail before one succeeds.

## Model

| member | source | states |
|---|---|---|
| Aux.MultiError.constructor | aux/multi_error.go:12-14 | a zero `MultiError` holds no errors |
| Aux.MultiError.Append | aux/multi_error.go:32-37 | appending nil changes nothing; a non-nil error is added exactly once at the end; the receiver is returned |
| Aux.MultiError.AppendString | aux/multi_error.go:39-42 | adds exactly one error, at the end, whose message is the given text |
| Aux.Merged | aux/multi_error.go:44-48 | what `Merge` takes from an error: a multi-error's list, nothing from nil or a plain error |
| Aux.MultiError.Merge | aux/multi_error.go:44-48 | the errors of a merged multi-error are appended in order; any other error, nil included, changes nothing |
| Aux.MultiError.ErrorOrNil | aux/multi_error.go:50-55 | nil exactly when no error was recorded, otherwise the multi-error itself |
| Aux.MultiError.Error | aux/multi_error.go:16-30 | the text is the message of the multi-error as `Errors.Message` defines it |
| Aux.WrittenJoin | aux/multi_error.go:21-27 | the buffer the loop writes equals the prefix followed by the messages joined with the separator |
| Aux.WrittenPrefix | aux/multi_error.go:21-27 | after n messages the buffer is the prefix, the first n messages joined, and a separator exactly when more follow |
| Aux.Collect | model/butter.go:64-69 | the errors a loop of `Append` calls collects: no more than the inputs, and none exactly when every input is nil |
| Aux.AppendAll | model/butter.go:64-69 | appending a sequence of possibly-nil errors one by one adds exactly the collected non-nil ones, in order |
| Aux.CollectSnoc | aux/multi_error.go:32-37 | one more append adds the error when it is not nil and nothing otherwise |
| Errors.MultiMessageSmall | aux/multi_error.go:16-30 | a multi-error with no errors has the empty message; with one error, that error's message |
| Errors.MultiMessageMany | aux/multi_error.go:16-30 | with two or more errors the message starts with "Multiple errors: ", the first message and ", " |
| Errors.Messages | aux/multi_error.go:21-27 | one message per error, position by position |
| Errors.Quote | di/helper_signed.go:40 | a quoted number in a parse error is the text between two double quotes |
| Helper.GetBool | di/helper.go:18-50 | an error always comes with `false`, and is either `ErrUnexpectedType` or the `ParseBool` syntax error of a string |
| Helper.GetBoolCases | di/helper.go:18-50 | nil gives false, a bool itself, an integer of any width `value != 0`, all without error; floats, lists and maps give `ErrUnexpectedType` |
| Helper.GetBoolStrings | di/helper.go:24-25 | on a string: no error exactly for the twelve `ParseBool` spellings; true exactly for "1", "t", "T", "true", "TRUE", "True"; false exactly for the other six |
| Helper.GetString | di/helper.go:54-90 | an error exactly for lists and maps, and then the result is "" with `ErrUnexpectedType` |
| Helper.GetBoolOfGetString | di/helper.go:84-85 | a bool rendered by `GetString` reads back through `GetBool` as the same bool |
| Helper.GetStringParsesBack | di/helper.go:64-83 | an integer rendered by `GetString` parses back to the same value (signed through `ParseInt`, unsigned through `ParseUint`) |
| HelperSigned.SignedFromNumber | di/helper_signed.go:15-43 | the integer and float arms: a result in the width's range, an error exactly for other kinds, and then 0 with `ErrUnexpectedType` |
| HelperSigned.NarrowParsed | di/helper_signed.go:76-79 | the string arm of the narrow getters: a result in range, and 0 whenever the parse failed |
| HelperSigned.GetInt64 | di/helper_signed.go:13-45 | the result is an `int64` |
| HelperSigned.GetInt | di/helper_signed.go:49-84 | the result is a 64-bit `int` |
| HelperSigned.GetInt32 | di/helper_signed.go:88-123 | the result is an `int32` |
| HelperSigned.GetInt16 | di/helper_signed.go:127-162 | the result is an `int16` |
| HelperSigned.GetInt8 | di/helper_signed.go:166-201 | the result is an `int8` |
| HelperSigned.GetInt64OfIntegers | di/helper_signed.go:15-38 | an `int64` passes unchanged, a `uint64` above 2^63-1 becomes negative (minus 2^64), and no integer gives an error |
| HelperSigned.GetSignedOfString | di/helper_signed.go:40 | on a string every signed getter succeeds exactly for an optional sign and a non-empty digit string whose value fits in 64 bits; it then returns that value truncated to its width; a narrow getter returns 0 on error |
| HelperSigned.GetSignedStringError | di/helper_signed.go:76-79 | on a string each signed getter returns exactly the error of `strconv.ParseInt` |
| HelperSigned.NarrowAgreesWithInt64 | di/helper_signed.go:166-201 | wherever `GetInt64` succeeds, every narrow getter returns its result truncated to the width, in two's complement |
| HelperSigned.GetSignedRejects | di/helper_signed.go:41-43 | nil, bool, list and map give 0 with `ErrUnexpectedType` |
| HelperSigned.Int8Examples | di/scope_test.go:276-288 | into `int8`: 128 gives -128, 129 gives -127, 256 gives 0, -129 gives 127 |
| HelperSigned.SignExamples | di/scope_test.go:121-125 | "+123" parses to 123 and "-215" to -215 |
| HelperSigned.InnerSignRefused | di/scope_test.go:122 | "1+55" is an error |
| HelperUnsigned.UnsignedFromNumber | di/helper_unsigned.go:15-43 | the integer and float arms: a result in the width's range, an error exactly for other kinds, and then 0 with `ErrUnexpectedType` |
| HelperUnsigned.NarrowParsedAsWritten | di/helper_unsigned.go:77-79 | the string arm of the narrow getters as written: whenever the parse succeeded the result is 0 |
| HelperUnsigned.NarrowParsed | di/helper_unsigned.go:77-79 | the string arm as intended: a result in range, and 0 whenever the parse failed |
| HelperUnsigned.GetUint64 | di/helper_unsigned.go:13-45 | the result is a `uint64` |
| HelperUnsigned.GetUint | di/helper_unsigned.go:49-84 | the result is a 64-bit `uint` |
| HelperUnsigned.GetUint32 | di/helper_unsigned.go:88-123 | the result is a `uint32` |
| HelperUnsigned.GetUint16 | di/helper_unsigned.go:127-162 | the result is a `uint16` |
| HelperUnsigned.GetUint8 | di/helper_unsigned.go:166-201 | the result is a `uint8` |
| HelperUnsigned.GetUnsignedCorrected | di/helper_unsigned.go:75-79 | the narrow unsigned getters with the guard corrected: the result is in the width's range |
| HelperUnsigned.GetUint64OfIntegers | di/scope_test.go:332-333 | -1 becomes 2^64-1 and `MinInt64` becomes 2^63 |
| HelperUnsigned.NarrowTruncatesIntegers | di/helper_unsigned.go:168-191 | every unsigned getter reduces an integer input modulo 2^width, without error |
| HelperUnsigned.GetUint64OfString | di/helper_unsigned.go:40 | on a string, success exactly for a non-empty all-digit string whose value is at most 2^64-1, and then that value |
| HelperUnsigned.GetUint64Refuses | di/scope_test.go:326-334 | "+123", "-215", "1+55", "155.0" and "" are refused |
| HelperUnsigned.GetUint64Max | di/scope_test.go:327 | "18446744073709551615" parses to `MaxUint64` |
| HelperUnsigned.GetUint64AboveMax | di/scope_test.go:328 | "18446744073709551616" is an error |
| HelperUnsigned.FormatMax | di/scope_test.go:327 | `MaxUint64` is written "18446744073709551615" |
| HelperUnsigned.FormatAboveMax | di/scope_test.go:328 | 2^64 is written "18446744073709551616" |
| HelperUnsigned.GetUnsignedRejects | di/helper_unsigned.go:41-43 | nil, bool, list and map give 0 with `ErrUnexpectedType`, as written and corrected |
| HelperUnsigned.NarrowStringAsWritten | di/helper_unsigned.go:75-79 | as written, a narrow getter returns 0 without error when the string parses, and the truncated saturated value with the parse error when it does not |
| HelperUnsigned.GetUintLosesParsedValue | di/helper_unsigned.go:77 | `GetUint("5")` is 0 with no error, whereas the corrected getter gives 5 |
| HelperUnsigned.CorrectedAgreesWithUint64 | di/helper_unsigned.go:75-79 | the corrected narrow getters fail exactly when `GetUint64` fails and otherwise return its result truncated to the width |
| MachineInts.Modulus | di/helper_signed.go:166-201 | 2^w is at least 256 |
| MachineInts.WrapUnsigned | di/helper_unsigned.go:168-191 | the width-w unsigned value congruent to x modulo 2^w |
| MachineInts.WrapSigned | di/helper_signed.go:168-191 | the width-w two's-complement value congruent to x modulo 2^w |
| MachineInts.Convert | di/scope.go:73-90 | a Go integer conversion always yields a value of the target type |
| MachineInts.ConvertKeepsInRange | di/scope.go:73-90 | converting a value that already fits leaves it unchanged |
| MachineInts.WrapCongruent | di/helper_signed.go:168-191 | congruent inputs wrap to the same value, signed and unsigned |
| MachineInts.NarrowAfterWide | di/scope.go:73-90 | truncating to 64 bits first and then to the field's width is the same as truncating to the width directly |
| MachineInts.NarrowExamples | di/scope_test.go:276-288 | `int8` of 128, 129, 256, -129 and `uint8` of 257 and 2^64-1 are -128, -127, 0, 127, 1 and 255 |
| StrConv.ParseBool | di/helper.go:25 | no error exactly for the twelve spellings, true exactly for the six true ones, otherwise false with the syntax error |
| StrConv.ParseFormatBool | di/helper.go:85 | a bool written by `FormatBool` parses back to itself |
| StrConv.LeadingDigits | di/helper_unsigned.go:40 | the length of the longest digit prefix |
| StrConv.ParseUint | di/helper_unsigned.go:40 | the parsed value never exceeds 2^64-1 |
| StrConv.ParseUintMatchesReference | di/helper_unsigned.go:40 | the digit scan equals a reference: "" is a syntax error, a too-large digit prefix a range error with `MaxUint64`, a non-digit a syntax error, else the decimal value |
| StrConv.ParseUintAccepts | di/helper_unsigned.go:40 | success exactly for a non-empty digit string of value at most 2^64-1, and then that value |
| StrConv.ParseInt | di/helper_signed.go:40 | the parsed value is an `int64` |
| StrConv.ParseIntAccepts | di/helper_signed.go:40 | success exactly for an optional sign and a non-empty digit string whose signed value fits in 64 bits, and then that value |
| StrConv.ParseIntSaturates | di/helper_signed.go:40 | an out-of-range digit string gives the range error and `MinInt64` or `MaxInt64` by its sign |
| StrConv.FormatUint | di/helper.go:74-83 | a non-empty digit string without a leading zero |
| StrConv.FormatUintValue | di/helper.go:74-83 | the written digits denote the number |
| StrConv.ParseFormatUint | di/helper.go:74-83 | a `uint64` written by `FormatUint` parses back to itself |
| StrConv.ParseFormatInt | di/helper.go:64-73 | an `int64` written by `FormatInt` parses back to itself |
| StrConv.FormatUintLength | file_db.go:97 | a number between 10^(k-1) and 10^k is written with k digits |
| StrConv.DecimalFront | file_db.go:97 | a digit string's value is its first digit times a power of ten plus the value of the rest |
| StrConv.Atoi | model/root.go:26 | definition of `strconv.Atoi` on a 64-bit platform, as `Vanilla.Int` calls it; its properties are in `AtoiAgreesWithParseInt`, `AtoiShortDigits` and `AtoiShortGarbage` |
| StrConv.AtoiAgreesWithParseInt | model/root.go:26 | `Atoi` returns the value of `ParseInt`, fails exactly when it fails, and reports the failure under its own name |
| StrConv.AtoiShortDigits | model/root.go:26 | the fast path of `Atoi` on a short signed digit string gives its value |
| StrConv.AtoiShortGarbage | model/root.go:26 | the fast path on a short string with a non-digit gives 0 and a syntax error |
| GoStrings.Join | model/database.go:28 | joining nothing gives "", joining one part gives that part |
| GoStrings.JoinSnoc | model/database.go:28 | joining one more part appends the separator and the part, unless it is the first |
| GoStrings.Split | model/schema.go:70 | at least one part, and no part contains the separator |
| GoStrings.JoinSplit | model/schema.go:70 | joining the parts of a split with the separator gives back the string |
| GoStrings.SplitCount | model/schema.go:70 | a split has one part more than there are separators |
| GoStrings.SplitFirst | di/scope.go:161 | splitting at the first separator gives the text before it followed by the split of the rest |
| GoStrings.Trim | di/scope.go:163 | the result is an infix of the input with only the cut character around it, and neither end of it is that character |
| GoStrings.TrimSpaceMeaning | model/element.go:27 | `TrimSpace` keeps an infix whose ends are not white space and drops only white space around it |
| GoStrings.TrimmedMeaning | model/element.go:27 | a string is left alone by `TrimSpace` exactly when neither end is white space, and every result is such a string |
| GoStrings.TrimSpaceIdempotent | model/element.go:27 | trimming twice is trimming once |
| GoStrings.ToLowerMeaning | model/schema.go:26-30 | lower-casing keeps the length and maps each character on its own |
| GoStrings.ToLowerIdempotent | model/schema.go:26-30 | lower-casing twice is lower-casing once |
| GoStrings.LexLessTransitive | model/database.go:21 | the string order `<` is transitive |
| GoStrings.LexLessTotal | model/database.go:21 | any two strings are equal or ordered one way |
| GoStrings.Utf8Len | model/schema.go:60 | a string's byte length lies between its length and four times it, and equals its length for ASCII |
| Values.TruncFloat | di/helper_signed.go:15-38 | a float converted to an integer loses its fraction, rounding toward zero |
| Types.ZeroHasKind | di/scope.go:104 | the zero value of every kind is a value of that kind |
| Types.Lookup | di/scope.go:323-330 | a found object is the entry of some scope of the chain |
| Types.LookupNearest | di/scope.go:323-330 | nil exactly when no scope of the chain holds a non-nil entry; otherwise the entry of the first scope that holds one |
| GoRuntime.EnumerationCovers | di/scope.go:127 | an order that enumerates a map's keys contains every key |
| Scopes.Scope.NewScope | di/scope.go:37-43 | a new scope has no parent and empty registries |
| Scopes.Scope.Get | di/scope.go:323-330 | the nearest non-nil object of that name along the parent chain |
| Scopes.Scope.Set | di/scope.go:332-334 | only the receiver's own object map changes, at that name |
| Scopes.Scope.Declare | di/scope.go:336-350 | nil panics; a function goes into `funcs`; a pointer to a struct registers the struct type; a pointer to anything else panics with "Expected a struct but received"; other values change nothing |
| Scopes.Scope.TypeOf | di/scope.go:352-354 | the registered struct type of that name, or nil |
| Scopes.Scope.Create | di/scope.go:376-383 | a zero object of a registered type, or no object and "Could not find type" |
| Scopes.Scope.Allocate | di/scope.go:364-374 | equals `Assignment.AllocateSpec` over the scope's registries |
| Scopes.Scope.New | di/scope.go:356-362 | the allocation result, and the object is stored only when there was no error and the name is non-empty |
| Scopes.Scope.Call | di/scope.go:385-401 | an unknown function gives "Could not find constructor"; a plain function gives nil; a `DynamicFunc` result is returned and a non-nil one stored under the object name |
| Scopes.Scope.RegisterDefaults | di/scope.go:403-407 | registers `os.Stdout` and the `DynamicFunc` of `log.New` with its three fillers |
| Scopes.Scope.Assign | di/scope.go:313-321 | a nil value panics; a non-pointer or non-struct value gives `errorNotAStruct`; otherwise the object is the one `assignValue` builds from the map |
| Assignment.AssignResult | di/scope.go:52-59 | a destination that cannot be set is untouched with `UnaddressableError` or `UnexportedError`; every result keeps the destination's kind; a reported error is a non-empty multi-error |
| Assignment.AssignSpec | di/scope.go:60-307 | the dispatch on the destination's kind keeps the value within the kind |
| Assignment.ScalarSpec | di/scope.go:61-90 | bool, string and integer destinations never panic, record at most one error, and keep their value when they do |
| Assignment.SliceSpec | di/scope.go:91-114 | a slice destination gets a value of its slice kind |
| Assignment.MapSpec | di/scope.go:116-145 | a map destination gets a value of its map kind |
| Assignment.StructSpec | di/scope.go:146-203 | a struct destination keeps its struct kind |
| Assignment.StructPtrSpec | di/scope.go:211-238 | a pointer-to-struct destination keeps its kind |
| Assignment.BoxSpec | di/scope.go:239-246 | a pointer to a non-struct keeps its kind |
| Assignment.IfaceSpec | di/scope.go:248-303 | an interface destination keeps its kind |
| Assignment.AllocateSpec | di/scope.go:364-374 | an object exactly when there is no error; the object has the registered type; an unknown type gives "Could not find type" |
| Assignment.SliceFold | di/scope.go:103-110 | every element the loop keeps has the element kind |
| Assignment.MapFold | di/scope.go:127-141 | every stored key and value has the map's kinds |
| Assignment.EntryStep | di/scope.go:128-139 | one map entry keeps the map well-kinded |
| Assignment.ValueStep | di/scope.go:131-136 | storing a converted value keeps the map well-kinded |
| Assignment.StructFold | di/scope.go:149-179 | the field loop keeps one well-kinded value per field and leaves the fields it has not reached untouched |
| Assignment.SliceFoldPanics | di/scope.go:105 | a panic in the slice loop ends it |
| Assignment.MapFoldPanics | di/scope.go:130-132 | a panic in the map loop ends it |
| Assignment.StructFoldPanics | di/scope.go:173 | a panic in the field loop ends it |
| AssignmentFacts.IntegerStore | di/scope.go:73-90 | an integer destination stores the 64-bit coercion truncated to its width, or keeps its value and reports exactly that coercion error |
| AssignmentFacts.SignedStoreOfInt | di/scope.go:73-78 | a signed destination stores any 64-bit integer truncated to its width, without error |
| AssignmentFacts.Int8Stores | di/scope_test.go:276-288 | into `int8`: 128, 129, 256, -129 store -128, -127, 0, 127 |
| AssignmentFacts.Uint8Stores | di/scope_test.go:481-485 | into `uint8`: "257" stores 1 and -1 stores 255 |
| AssignmentFacts.ScalarFailureKeeps | di/scope.go:61-90 | a failed scalar coercion leaves the destination unchanged and returns a multi-error holding exactly that error |
| AssignmentFacts.Fresh | di/scope.go:104-105 | assigning into a fresh zero element keeps the element kind |
| AssignmentFacts.KeptSnoc | di/scope.go:105-109 | one more source element adds its converted value exactly when its conversion succeeded |
| AssignmentFacts.SliceKeepsSuccesses | di/scope.go:103-110 | the slice loop keeps, in source order, exactly the elements whose assignment succeeded |
| AssignmentFacts.SliceDestination | di/scope.go:91-114 | a list source gives exactly the converted elements in order; nil panics with the zero-value message; any other source panics with "Not yet implemented" |
| AssignmentFacts.Unchanged | di/scope.go:137-139 | an entry that does not convert keeps both directions of the map invariant |
| AssignmentFacts.StoreKeeps | di/scope.go:133 | storing a converted entry keeps the invariant |
| AssignmentFacts.ValueStepKeeps | di/scope.go:131-136 | the value step keeps the invariant |
| AssignmentFacts.KeyRefusedKeeps | di/scope.go:137-139 | a refused key leaves the map as it was and keeps the invariant |
| AssignmentFacts.KeyConverted | di/scope.go:130-131 | a converted key goes on to the value step |
| AssignmentFacts.EntryStepKeeps | di/scope.go:128-139 | one loop iteration keeps the invariant |
| AssignmentFacts.MapKeepsConverted | di/scope.go:127-141 | the map loop keeps every stored entry converted from the source and every converted entry stored |
| AssignmentFacts.MapDestination | di/scope.go:116-145 | a map source gives exactly the entries whose key and value both converted; nil panics; any other source panics with "Not yet implemented" |
| AssignmentFacts.MandatoryTag | di/scope.go:158-170 | a tag "name,mandatory" binds the trimmed name and marks the field mandatory |
| AssignmentFacts.SinglePartTag | di/scope.go:158-170 | a tag without a comma binds its trimmed text and is not mandatory |
| AssignmentFacts.SpacedPartNotMandatory | di/scope.go:166 | " mandatory" with a space does not make a field mandatory |
| AssignmentFacts.UntaggedField | di/scope.go:154 | an untagged field binds its own name and is not mandatory |
| AssignmentFacts.UntouchedFields | di/scope.go:155-178 | a field that cannot be set or whose key is absent keeps its value |
| AssignmentFacts.StructHooks | di/scope.go:146-203 | a map source sets the fields by the loop, calls `Allocated` once and `InitFunc` k+1 times for k failures, and errors only from the fields; nil panics; another source changes nothing and reports nothing |
| AssignmentFacts.PointerByName | di/scope.go:221-237 | a name source attaches the named object only when it has the exact pointer type; otherwise the pointer is unchanged and there is no error |
| AssignmentFacts.InterfaceByName | di/scope.go:285-303 | a name source attaches the named object only when it implements the interface; otherwise unchanged without error |
| AssignmentFacts.InterfaceDefinitionErrors | di/scope.go:255-284 | each missing or mistyped part of an object definition reports its own message and leaves the destination unchanged |
| AssignmentFacts.EmptyInterfaceStores | di/scope.go:249-253 | an empty interface stores any non-nil source as it is |
| Engine.ParseTag | di/scope.go:158-170 | the binding name and the mandatory flag the tag defines |
| Engine.RunInit | di/scope.go:185-198 | the retry loop calls `InitFunc` once per answered failure plus once |
| Engine.Allocate | di/scope.go:364-374 | equals `Assignment.AllocateSpec` |
| Engine.AssignValue | di/scope.go:52-309 | the result equals `Assignment.AssignResult` |
| Engine.AssignKind | di/scope.go:60-307 | the value and the recorded errors equal `Assignment.AssignSpec` |
| Engine.AssignScalar | di/scope.go:61-90 | equals `Assignment.ScalarSpec` |
| Engine.AssignSlice | di/scope.go:91-114 | equals `Assignment.SliceSpec` |
| Engine.AssignMap | di/scope.go:116-145 | equals `Assignment.MapSpec` |
| Engine.MapLoop | di/scope.go:126-141 | equals `Assignment.MapFold` over all keys |
| Engine.AssignEntry | di/scope.go:128-139 | equals `Assignment.EntryStep` |
| Engine.AssignEntryValue | di/scope.go:131-136 | equals `Assignment.ValueStep` |
| Engine.AssignStruct | di/scope.go:146-203 | equals `Assignment.StructSpec` |
| Engine.AssignField | di/scope.go:149-178 | one field step advances `Assignment.StructFold` by one field |
| Engine.AssignStructPtr | di/scope.go:211-238 | equals `Assignment.StructPtrSpec` |
| Engine.AssignBox | di/scope.go:239-246 | equals `Assignment.BoxSpec` |
| Engine.AssignIface | di/scope.go:248-303 | equals `Assignment.IfaceSpec` |
| DynamicFuncs.FillerFor | di/dynamic_func.go:37-75 | bool, string, int and interface parameters get their own filler, any other kind none |
| DynamicFuncs.NewDynamicFunc | di/dynamic_func.go:20-80 | panics exactly when the counts differ, with the message giving both counts; otherwise one filler per parameter, in order, and index 0 |
| DynamicFuncs.Fill | di/dynamic_func.go:37-75 | an absent argument gives the zero value and no error; an error comes without a value; an object filler never fails |
| DynamicFuncs.ObjectFillerUsesGlobal | di/dynamic_func.go:67-75 | an object argument is resolved by name in the global scope chain |
| DynamicFuncs.FillAll | di/dynamic_func.go:84-88 | a normal fill yields one argument per filler filled |
| DynamicFuncs.Invoke | di/dynamic_func.go:89-93 | the call panics unless every argument is set and accepted; a function without results returns nil |
| DynamicFuncs.Call | di/dynamic_func.go:82-94 | equals the fill-then-invoke specification |
| DynamicFuncs.PanicPersists | di/dynamic_func.go:84-88 | a panic in the fill loop ends it |
| DynamicFuncs.FillerErrorPanics | di/dynamic_func.go:85-87 | a filler error panics before the function is invoked |
| DynamicFuncs.FirstFailurePanics | di/dynamic_func.go:84-88 | a missing filler or a filler error anywhere makes the fill loop panic |
| DynamicFuncs.FillAllValues | di/dynamic_func.go:84-88 | when no filler fails, the arguments are the fillers' values, position by position |
| DynamicFuncs.MissingArgumentPanics | di/dynamic_func.go:89 | an absent argument leaves a zero value, so the call panics |
| Configurations.Interleaved | configuration.go:58-68 | the result has two entries per key |
| Configurations.InterleavedPairs | configuration.go:61-66 | each key sits at an even index with its value right after it |
| Configurations.Map2Array | configuration.go:58-68 | the array is the keys and values interleaved in the order `range` took, and that order lists every key once |
| Configurations.InterleavedAt | configuration.go:61-66 | at every even index i the key `order[i/2]` and its value |
| Configurations.Map2ArrayLayout | configuration.go:58-68 | length `2*len(m)`, every key exactly once at an even index with its value after it |
| Configurations.Process | configuration.go:70-92 | the global scope afterwards is the result of running the handlers in order, and it panics exactly when that run panics, with its message |
| Configurations.HandlerStep | configuration.go:73-89 | definition of one iteration of the handler loop; its properties are in `RunPanicsAtInvalid`, `FailedNewSkipped`, `UnknownStructSkipped` and `BuiltObjectRegistered` |
| Configurations.Run | configuration.go:72-90 | definition of the handler loop in list order up to the first panic; its properties are in `RunAppend` and `InvalidFirstPanics` |
| Configurations.RunAppend | configuration.go:72 | running two lists of handlers is running the first and then the second on its result, unless the first panics |
| Configurations.RunPanicsAtInvalid | configuration.go:73-78 | a handler setting both struct and func, or neither, panics with its message once reached |
| Configurations.InvalidFirstPanics | configuration.go:73-78 | an invalid first handler panics at once |
| Configurations.FailedNewSkipped | configuration.go:80-84 | a failed `New` is only logged: the remaining handlers run on unchanged objects |
| Configurations.UnknownStructSkipped | configuration.go:80-84 | an unknown struct type is skipped in the same way |
| Configurations.BuiltObjectRegistered | configuration.go:79-85 | a successfully built named object is stored before the remaining handlers run |
| DataLayer.Get | data_layer.go:16-22 | the first value and true when the list is non-empty, otherwise "" and false |
| DataLayer.Initialize | data_layer.go:56-95 | the provider applies one step per mapping key, in the order `range` took, and that order lists every key once |
| DataLayer.Layer.InitFunc | data_layer.go:34-39 | the capacity is the sum of the providers' `CapacityReco` up to the first nil provider; a nil provider panics with a nil dereference and nothing else does |
| DataLayer.Layer.Values | data_layer.go:41-47 | a fresh map filled by every provider in list order; it panics with a nil dereference exactly when a provider is nil, after the providers before it have filled the map |
| DataLayer.FirstNil | data_layer.go:36-38 | the position of the first nil provider: all before it are set, and it is nil unless it is the end |
| DataLayer.Unwrap | data_layer.go:36-38 | the providers of a nil-free list, one for one |
| DataLayer.UnwrapSnoc | data_layer.go:36-38 | a nil-free prefix grows by one provider at its end |
| DataLayer.FirstNilAt | data_layer.go:36-38 | the first nil is at i when none precedes it |
| DataLayer.FirstNilNone | data_layer.go:36-38 | a list without nils has no first nil |
| DataLayer.CapacityReco | data_layer.go:71-73 | definition of `CapacityReco` (also data_layer.go:97-99): the number of mapping entries; its property is in `TotalCapacityAppend` |
| DataLayer.Step | data_layer.go:58-68 | definition of one loop iteration of either provider's `Initialize` (also data_layer.go:84-94); its properties are in `FoldOthers` and `FoldAppends` |
| DataLayer.Fold | data_layer.go:56-95 | definition of `Initialize` visiting the keys in a given order; its properties are in `FoldUntouched`, `FoldAppends`, `FoldOthers` and `OrderIrrelevantWhenInjective` |
| DataLayer.FoldUntouched | data_layer.go:56-95 | a value name no mapping entry targets keeps its list |
| DataLayer.FoldAppends | data_layer.go:61-65 | lists only grow at their end |
| DataLayer.OrderIrrelevantWhenInjective | data_layer.go:56-95 | when no two parameters share a target, each target list is its old list followed by exactly that parameter's contribution, whatever the order |
| DataLayer.FoldOthers | data_layer.go:58-68 | the target of one key changes only at that key's step |
| DataLayer.TotalCapacityAppend | data_layer.go:36-38 | the capacity sum adds up over a split provider list |
| Contexts.AscendingSorted | model/database.go:21 | neighbour order implies full order |
| Contexts.SortStrings | model/database.go:21 | sorts the array ascending in place and keeps its multiset of groups |
| Contexts.SinkDown | model/database.go:21 | one insertion step extends the sorted prefix and keeps the multiset |
| Contexts.Swap | model/database.go:21 | swaps two neighbours and nothing else |
| Contexts.SearchStrings | model/database.go:36 | the index of the first string not below the target |
| Contexts.SearchFinds | model/database.go:36 | the index is below the length exactly when some group is at least the target |
| Contexts.SearchMembership | model/database.go:36 | on sorted groups, the index holds the target exactly when the target is a group |
| Contexts.Context.SetGroups | model/database.go:20-24 | the groups are sorted ascending in place, stored, and the receiver returned; the cached string is kept |
| Contexts.Context.GroupsString | model/database.go:26-31 | computes the groups joined by " \| " once and returns the cache afterwards |
| Contexts.Context.MemberOf | model/database.go:33-41 | true exactly when some requested group has a search index below the length |
| Contexts.MemberOfMeaning | model/database.go:33-41 | which is exactly when some requested group is at most some stored group |
| Contexts.MemberOfAcceptsNonMember | model/database.go:33-41 | groups ["b"] accept "a", which is not a member |
| Contexts.Context.MemberOfExactly | model/database.go:33-41 | the intended check: true exactly when some requested group is a member |
| Contexts.NewAnonymous | model/database.go:18 | the anonymous context has the groups ["all"] |
| Schemas.StripPrefix | model/element.go:30-39 | whether the prefix is present, and the rest after it |
| Schemas.StripPrefixOf | model/element.go:30-39 | stripping a prefix from prefix + u gives u |
| Schemas.Element.Initialize | model/element.go:26-70 | the type is trimmed and stored; slice and pointer follow the prefixes; an accepted base sets its kind and check; a refused one leaves them and returns its error; no error exactly when the element is settled |
| Schemas.Declare | model/element.go:29-68 | definition of what `initialize` reads off a trimmed type string; its properties are in `DeclarationGrammar`, `ReferenceAccepted` and `ListAccepted` |
| Schemas.DeclarationGrammar | model/element.go:26-70 | accepted types are exactly string, int, []string, []int, *S and []*S for a registered schema S |
| Schemas.ReferenceAccepted | model/element.go:36-53 | "*S" is a pointer declaration, accepted exactly when S is registered |
| Schemas.ListAccepted | model/element.go:30-34 | "[]" + u is the declaration of u marked as a slice |
| Schemas.ChecksAccept | model/element.go:56-65 | the int check accepts exactly what base-10 64-bit `ParseInt` accepts; the string and struct checks accept everything |
| Schemas.FirstFailureMeaning | model/schema.go:70-77 | the list check passes exactly when every part passes, and otherwise returns the verdict of the first failing part |
| Schemas.ListCheckAccepts | model/schema.go:68-77 | a comma-separated value passes exactly when each of its parts does; a string list always passes |
| Schemas.ByNameMeaning | model/schema.go:40 | every element's name is a key, and each key holds the last element of that name |
| Schemas.PrefixSnoc | model/schema.go:35-44 | one more element adds its name to the map and, when indexed, to the indexed list |
| Schemas.IndexedNames | model/schema.go:41-43 | no more indexed names than elements |
| Schemas.Schema.Initialize | model/schema.go:22-48 | the butter is set and the plural lower-cased or derived; on success every element holds the trimmed form of its configured type and is settled from it, the map is by name and the indexed names in declaration order; on error, the first failing element's error, the elements up to it trimmed from their configured types, and the old indexed list |
| Schemas.Schema.RegisterElements | model/schema.go:33-47 | the element part of `initialize`: the same outcome, with the butter and plural untouched |
| Schemas.InitializeElements | model/schema.go:35-44 | stops at the first element error, every element up to it holding the trimmed form of its configured type; otherwise every element trimmed and settled from its configured type, the map by name and the indexed names |
| Schemas.Schema.Verdict | model/schema.go:51-80 | "_schema" must be registered, "_label" and "_id" at most 256 bytes, other non-elements are errors; a slice element checks each comma part; another element runs its check |
| Schemas.Schema.CheckValue | model/schema.go:51-80 | returns exactly the verdict |
| Schemas.SchemaMapMeaning | model/butter.go:23-26 | every configured name is a key, holding the last schema of that name |
| Schemas.Butter.InitFunc | model/butter.go:22-32 | the registry maps names to schemas, later duplicates winning; every schema is initialised and indexed, in order; a nil schema panics with a nil dereference in the first loop with the schemas before it registered and nothing indexed, and a nil connection panics after the first schema is initialised, exactly when there is a schema |
| Schemas.Butter.RegisterByName | model/butter.go:24-26 | the schemas by name up to the first nil one, and that position |
| Schemas.FirstNilSchema | model/butter.go:24-26 | the position of the first nil schema: all before it are set, and it is nil unless it is the end |
| Schemas.NonNil | model/butter.go:24-26 | the schemas of a nil-free list, one for one |
| Schemas.FirstNilSchemaAt | model/butter.go:24-26 | the first nil is at i when none precedes it |
| Schemas.FirstNilSchemaNone | model/butter.go:24-26 | a list without nils has no first nil |
| Schemas.Butter.Lookup | model/butter.go:34-37 | the registered schema of that name, or nil |
| Schemas.Butter.CheckAll | model/butter.go:47-51 | the verdicts in `range` order up to the first failure; a pass covers every key |
| Schemas.Butter.Save | model/butter.go:39-55 | an unknown schema is an error without saving; a failed check returns its error without saving; otherwise `Conn.Save`'s reply, or a nil-dereference panic when the connection is nil; anything saved passed every check |
| Schemas.CheckedSnoc | model/butter.go:47-51 | one more key after passes gives that key's verdict |
| Schemas.CheckedPasses | model/butter.go:47-51 | a pass means every visited pair passed |
| Schemas.Loaded | model/butter.go:64-71 | no more loaded objects than ids |
| Schemas.Butter.LoadSlice | model/butter.go:57-77 | the successful loads in id order, and the multi-error of every failure, nil exactly when all loads succeeded; with a nil connection, a nil-dereference panic unless there are no ids |
| Schemas.LoadSliceAccounts | model/butter.go:57-73 | every id is loaded or reported, and with no error every id is loaded |
| Vanillas.Field | model/root.go:30-32 | the value under the name, or "" |
| Vanillas.Label | model/root.go:17-19 | the value under "_label", or "" |
| Vanillas.ID | model/root.go:21-23 | the value under "_id", or "" |
| Vanillas.String | model/root.go:30-32 | the value under the name, or "" |
| Vanillas.Int | model/root.go:25-28 | the `Atoi` value: the number of a signed digit string, saturated out of range, and 0 without digits |
| Vanillas.Members | model/root.go:58-69 | one `"key":"value"` member per field, in order |
| Vanillas.MembersSnoc | model/root.go:58-69 | one more field adds its member at the end |
| Vanillas.PendingStep | model/root.go:58-69 | one loop iteration writes the member's opening and closes it with `",` or `"` |
| Vanillas.JsonPartial | model/root.go:54-72 | the object of the members of the fields, in argument order |
| Vanillas.JsonPartialSnoc | model/root.go:54-72 | one more field adds a comma and its member before the brace |
| Vanillas.Json | model/root.go:34-52 | the object of the members of every key, in the order `range` took, which lists each key once |
| Vanillas.EmptyObjects | model/root.go:34-72 | no fields, or no data, give "{}" |
| Vanillas.JsonIsPartialOfAllKeys | model/root.go:34-52 | each data entry is written exactly once, with its value |
| FileDb.Step | file_db.go:94-95 | the new state is a `uint32` congruent to r*1664525+1013904223 modulo 2^32 |
| FileDb.SuffixDigits | file_db.go:97 | the formatted number has ten digits and starts with '1'; the suffix has nine digits denoting r mod 10^9 |
| FileDb.SuffixDistinguishes | file_db.go:97 | two states give the same suffix exactly when they agree modulo 10^9 |
| FileDb.SuffixGenerator.NextSuffix | file_db.go:88-98 | a zero state is reseeded, then stepped and stored; the suffix is nine digits of the new state mod 10^9 |
| Middleware.Build | wrapper/wrapper.go:24-36 | definition of `build` (and `New`); its properties are in `BuildShape`, `ServeRunsAllInOrder` and `ServeStopsAt` |
| Middleware.Serve | wrapper/wrapper.go:20-22 | definition of `(*Wrapper).ServeHTTP`, a nil handler or the blank end dereferencing nil; its properties are in `ServeRunsAllInOrder`, `ServeStopsAt` and `ServePanicsAtNil` |
| Middleware.ServeHttp | wrapper/wrapper.go:20-22 | definition of calling `ServeHTTP` on an `http.Handler`; its properties are in `WrapCallsNext` and `UseHandler.ServesThroughChain` |
| Middleware.Then | wrapper/wrapper.go:20-22 | a call after a panic does not run; after a normal call the traces concatenate |
| Middleware.Handlers | wrapper/wrapper.go:15-18 | the handlers of a chain, the node's own first |
| Middleware.BuildShape | wrapper/wrapper.go:24-32 | the built chain holds the handlers in order followed by the no-op, one node more than handlers |
| Middleware.ServeRunsAllInOrder | wrapper/wrapper.go:20-32 | when every handler passes on, serving runs all of them in order and ends at the no-op without reaching the blank end |
| Middleware.ServeStopsAt | wrapper/wrapper.go:20-22 | a middleware that does not call `next` ends the chain there |
| Middleware.ServePanicsAtNil | wrapper/wrapper.go:20-22 | a nil middleware panics with a nil dereference once the handlers before it have passed the request on |
| Middleware.WrapCallsNext | wrapper/wrapper.go:38-43 | a wrapped handler serves and then always calls `next` |
| UseHandler.WrapperHandler.InitFunc | use_handler.go:16-22 | with a handler set, the chain is built from the middleware followed by the wrapped handler, and the error is nil; with a nil `Handler` field it panics with a nil dereference and leaves the chain unset |
| UseHandler.WrapperHandler.Retry | use_handler.go:24-26 | never asks for a retry |
| UseHandler.WrapperHandler.HandlerFunc | use_handler.go:28-30 | the built chain, or a nil chain before `InitFunc` |
| UseHandler.ServesThroughChain | use_handler.go:16-30 | serving the built handler runs the middleware in order and the wrapped handler last |
| UseHandler.TracesSnoc | use_handler.go:19 | the trace of one more passing handler is appended at the end |
| UseHandler.NilMiddlewarePanics | use_handler.go:17-20 | a nil middleware in the configured list (an unknown middleware name) makes serving the built handler panic once a request reaches it |

## Left out

- Floating point: `GetFloat64`, `GetFloat32`, float destinations of
  `assignValue` and the float rendering of `GetString` are not modelled;
  a float input carries its decimal text, and the integer getters truncate
  its value toward zero.
- Logging: every `log.Printf` (missing mandatory field, failed `New`, init
  errors, objects of the wrong type) is dropped; the model only states
  that these cases leave the state and the returned error unchanged.
- `reflect` identity and `Declare`'s derivation of type names: types are
  named abstractly, and a struct type is an inline value, so a struct type
  that contains itself cannot be written.
- Objects are values, not pointers: two fields holding the same object do
  not alias, so a later change through one is not seen through the other.
  Nothing in the core changes an object after it is built.
- Scopes.Scope.Declare: the registry keys are the abstract type names of
  the sample, not the names Go's `reflect` prints.
- Engine.RunInit: the retry loop is modelled only for runs that end; an
  `InitFunc` that fails forever while `Retry` keeps answering true is not
  representable.
- Aux.MultiError.ErrorOrNil: Go tests the slice against nil; a slice
  emptied by other code is not modelled, since nothing empties one.
- Typed nil results: `ErrorOrNil` returning a nil `*MultiError` inside a
  non-nil interface does not arise, and is not modelled.
- Errors.Quote: the `strconv.Quote` escaping of special characters in the
  text of a parse error is not modelled.
- GoStrings.ToLowerMeaning: only ASCII letters are lower-cased, not the
  full Unicode case mapping of `strings.ToLower`.
- Scopes.Scope.Call: the `global` parameter stands for the package-level
  `GlobalScope` that dynamic fillers read.
- `DynamicFunc.Call` assigns the package-level `err` variable; the model
  uses a local.
- The mutex around the file-database generator state, and `reseed()`'s
  clock and process id, which are a parameter.
- The capacity hints of `make` in `Values`, `LoadSlice` and `Schema`
  initialisation, which do not change any result.
- `wrapper.New` is `build` itself; the model has only `Middleware.Build`.
- Panic texts raised by the Go runtime and `reflect` are written as Go
  prints them, but with the model's abstract type names.
- The HTTP request is its route variables and query; other middleware is
  the abstract `Custom` handler, which records its name and then calls
  `next` or not.
- `Configuration.ViewRegistry`, `ParseConfiguration` and
  `LoadConfiguration`: JSON decoding and file I/O.
- `Butter.Load` and `Butter.Search` only delegate to the connection; `Load`
  is the connection's load function, and its status code is dropped.
- The Redis `Connection` is an oracle: `Save` records its argument and
  returns a fixed reply, `Load` is a fixed function of the id.
- The `Generator` field of `Butter` is not used by the modelled code.
- Contexts.SearchStrings: the binary search of `sort.SearchStrings` is
  modelled by its result (the first index whose string is not below the
  target), which is what it returns on sorted input.
- Vanillas.Int: follows the code, which keeps `Atoi`'s value on error, so
  an out-of-range number saturates instead of giving 0.
- Schemas.Butter.InitFunc: does not restate each schema's state after
  `initialize`, only that each one was initialised with this butter and
  indexed; `initialize`'s error is ignored, as in the code.
- The `Index` and `Sort` fields of an element share the tag `brot:"index"`,
  so both bind from the same key; the model takes both as given.
- The check closure of a struct-typed element accepts every value,
  including "", as in the code.
- `ConstValuesProvider` has no methods in this source and is not modelled;
  a provider that is configured but does not resolve stays nil in
  `Providers`, which the model carries as `None` and which panics.
- Test rows that the code does not satisfy are not modelled; the model
  follows the code, which rejects or panics: nil, "", false and true into
  `uint64` (di/scope_test.go:323, where true gives `ErrUnexpectedType`
  as di/helper_unsigned.go:41-42 and HelperUnsigned.GetUnsignedRejects
  state), and nil, a comma-separated string and a plain string into a
  slice (di/scope_test.go:562, where "kangaroo" reaches the "Not yet
  implemented" panic of di/scope.go:113, as
  AssignmentFacts.SliceDestination states).
- `InitFunc` methods without an `error` result or without `Retry` do not
  match the engine's init hook; those of `DataLayer` and `Butter` are
  modelled as plain methods, and the engine's hook is the abstract init
  script of a struct type.

## Findings

| source | as written | input that shows it | evidently intended | confidence | as-written member | corrected member |
|---|---|---|---|---|---|---|
| di/helper_unsigned.go:77 | `GetUint`, `GetUint32`, `GetUint16` and `GetUint8` store the parsed value only when `ParseUint` failed (`err != nil`; also lines 116, 155, 194) | `GetUint("5")` returns 0 with no error | store the value when the parse succeeded (`err == nil`), as the signed getters do | not executed | HelperUnsigned.GetUintLosesParsedValue | HelperUnsigned.CorrectedAgreesWithUint64 |
| model/database.go:36 | `MemberOf` tests `SearchStrings(groups, g) < len(groups)`, which only says that some stored group is not below `g` | groups ["b"], asking for "a", returns true | also require the found index to hold `g` | not executed | Contexts.MemberOfAcceptsNonMember | Contexts.Context.MemberOfExactly |
