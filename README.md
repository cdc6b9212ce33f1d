# gomidl code generator, modelled in Dafny

gomidl reads Microsoft IDL and writes Go bindings for COM interfaces. Its
backend (`backend/generator.go`) is a `Generator` object with two pieces of
state:

- a text buffer that its emitters append Go source to, line by line;
- a set of import lines that the text needs.

There is one emitter per IDL node kind:

- enum: a typed `const` block, with `iota` for a first value that is empty or `0`;
- struct: one `name GoType` line per field;
- typedef;
- interface: a vtable struct, a wrapper type with a `VTable()` accessor, and one stub per method.

Each stub marshals its parameters into the word-sized arguments of
`syscall.Syscall`, `Syscall6` or `Syscall9`. Finally `genPackage` puts the
package clause and the import block in front of everything written so far.
IDL type names become Go types through a fixed synonym table (`typeMap`);
the Go type's prefix decides which import it needs.

The Dafny project has five modules:

- `Ast` (`ast.dfy`): the parsed nodes the generator reads.
- `Text` (`text.dfy`): the pieces of `fmt` and `strings` that are used (`%d`, `HasPrefix`, `Count`, `Join`), and the reading of emitted text as lines.
- `TypeMapping` (`typemap.dfy`): the synonym table and the pure half of `mapType`.
- `Marshal` (`marshal.dfy`): the case analysis of `genSyscallParams`, the slot list of a parameter list, the tier choice and the padding.
- `Backend` (`generator.dfy`): first, each emitter's output as functions of the node (the lines it prints, the imports it registers) and the properties of those functions. Then the class `Generator`, whose methods follow the Go code statement by statement and are proved to append exactly those lines and register exactly those imports.

The buffer is modelled as the sequence of lines printed so far. Every
`Printf` of the generator ends its format with a newline, except at
`backend/generator.go:187`. The text is `Generator.Output()`, which is each
line followed by `"\n"`. `Text.LinesOfText` proves that reading such a text
back line by line gives exactly those lines.

## Model

| member | source | states |
|---|---|---|
| Backend.Generator.constructor | backend/generator.go:13-16 | a fresh generator has an empty buffer and no imports |
| Backend.Generator.PrintLine | backend/generator.go:49-51 | `Printf` of a newline-terminated format appends exactly one line and leaves the imports alone |
| Text.UnlinesSnoc | backend/generator.go:49-51 | appending a line to the buffer appends that line and a newline to the generated text |
| Text.LinesOfText | backend/generator.go:49-51 | a text made of printed lines without embedded newlines reads back as exactly those lines, in order |
| Text.UnlinesAppend | backend/generator.go:49-51 | the text of two batches of lines is the concatenation of their texts |
| Backend.Generator.AddPackage | backend/generator.go:53-58 | set insertion: the import set grows by exactly that import, so a repeat add changes nothing; the buffer is unchanged |
| Backend.Generator.GenPackage | backend/generator.go:60-74 | the buffer becomes the package clause, the unicode import, every registered import exactly once (in an unspecified order), the encoder line, then the previous buffer unchanged; the import set is unchanged |
| Backend.Generator.GenImports | backend/generator.go:67-69 | one line per registered import, each exactly once, in an order left open; the import set is unchanged |
| Backend.ListedOnce | backend/generator.go:67-69 | a duplicate-free listing of the import set has one entry per import and names each exactly once |
| TypeMapping.ImportsOf | backend/generator.go:199-203 | the import a Go type needs: wintypes exactly for a `wintypes.` prefix, go-ole exactly for an `ole.` prefix, at most one |
| Backend.Generator.MapType | backend/generator.go:194-205 | returns the table's value for a key and the name itself otherwise, registers exactly the import the result's prefix calls for, prints nothing |
| TypeMapping.MapTypeIdempotent | backend/generator.go:18-33 | no table value is a key, so mapping a mapped name again changes nothing |
| TypeMapping.TableImports | backend/generator.go:18-33 | among the table keys, exactly HWND, HBITMAP and REFPROPERTYKEY need wintypes, exactly GUID needs go-ole (REFGUID's `*ole.GUID` needs nothing), the rest need nothing |
| TypeMapping.MapsToString | backend/generator.go:18-33 | exactly LPWSTR, LPCWSTR and `string` itself map to Go `string` |
| Backend.Generator.GenEnum | backend/generator.go:76-91 | appends the enum's lines (`EnumLines`), registers nothing |
| Backend.EnumValueForms | backend/generator.go:79-89 | a first value with literal "" or "0" is `Name Enum = iota`; any other empty literal is a bare name; any other literal is `Name Enum = Val` |
| Backend.EnumTextLines | backend/generator.go:76-91 | read back, the enum text is the type line, `const (`, one line per value in order, and `)` |
| Backend.Generator.GenStruct | backend/generator.go:93-99 | appends the struct's lines and registers the imports of its fields' mapped types |
| Backend.StructTextLines | backend/generator.go:93-99 | read back, the struct text has exactly one `name mappedType` line per field, in field order, ignoring the field's indirections |
| Backend.FieldImportsKnown | backend/generator.go:93-99 | a struct registers only the wintypes and go-ole imports |
| Backend.Generator.GenTypedef | backend/generator.go:101-107 | appends `type Name T` with `T` the mapped type or `struct{}` for a mapped `void`, and registers the mapped type's import |
| Backend.TypedefTargetCases | backend/generator.go:101-107 | the aliased type is never `void`: `void` becomes `struct{}`, a table key its Go type, any other name itself |
| Backend.Generator.GenInterface | backend/generator.go:109-192 | no methods: nothing printed, nothing registered; otherwise it succeeds exactly when every parameter of every method can be marshaled, and then appends the header and one stub per method and registers their imports |
| Backend.Generator.GenVtable | backend/generator.go:115-134 | returns the resolved parent and appends the banner and the vtable struct; registers go-ole only for IUnknown |
| Backend.Generator.GenParent | backend/generator.go:119-127 | returns the resolved parent (IUnknown for none, `ole.`-qualified when in go-ole), registers go-ole exactly in that case, prints nothing |
| Backend.Generator.GenSlots | backend/generator.go:131-133 | one `Name uintptr` line per method, in method order |
| Backend.ParentCases | backend/generator.go:119-127 | an empty parent and an explicit IUnknown both resolve to `ole.IUnknown` and need go-ole; any other parent is kept and needs nothing |
| Backend.VtableLayout | backend/generator.go:129-134 | the parent's vtable is embedded first and method `i`'s slot follows at position `i` |
| Backend.Generator.GenWrapper | backend/generator.go:136-143 | appends the wrapper type embedding the parent and the `VTable()` accessor, and registers `unsafe` |
| Backend.Generator.GenMethodStub | backend/generator.go:145-190 | succeeds exactly when every parameter can be marshaled, and then appends the signature, the conversion code and the call, and registers the stub's imports |
| Backend.Generator.GenSignature | backend/generator.go:146-153 | appends the stub's signature: one parameter line per parameter between the opening and `) error {` |
| Backend.Generator.GenParams | backend/generator.go:149-152 | one `decl, // [attrs]` line per parameter, in order, registering each mapped type's import |
| Backend.Generator.GenConversions | backend/generator.go:155-159 | stops exactly when some parameter cannot be marshaled; otherwise returns the concatenated slots of all parameters, prints each one's conversion code in order and registers their imports |
| Backend.Generator.GenConversion | backend/generator.go:156-158 | one parameter: its marshaling, with its code printed when it marshals |
| Backend.Generator.GenCall | backend/generator.go:160-189 | appends the call on the tier chosen from the parameter count, with the slots padded for it and the count line, then the status check; registers `syscall` |
| Backend.Generator.GenParam | backend/generator.go:207-234 | returns the parameter declaration (name, declared `*`s, mapped type) and the `[in, out(...)]` comment; registers the mapped type's import |
| Backend.Stars | backend/generator.go:209-211 | as many `*`s as a positive declared count, none otherwise |
| Backend.AttrLabels | backend/generator.go:217-231 | at most one label per attribute, each starting with `in` or `out` |
| Backend.AttrLabelsAppend | backend/generator.go:217-231 | the labels of a split attribute list are the two halves' labels in order: labels keep attribute order |
| Text.Join | backend/generator.go:233 | `strings.Join` of no parts is empty and of one part is that part |
| Text.JoinAppend | backend/generator.go:233 | joining two non-empty lists of parts puts the separator once between them, so parts appear in order with `sep` between neighbours |
| Backend.ParamStarsMatchIndirection | backend/generator.go:237-238 | for a non-negative declared count, the `*`s in the declared Go parameter are exactly the total indirection the marshaler computes |
| Text.CountCharAppend | backend/generator.go:238 | `strings.Count` of one character is additive over concatenation |
| Backend.Generator.GenSyscallParams | backend/generator.go:236-262 | returns the marshaling of the parameter; registers its mapped type's import, plus `log` for a wide string |
| Marshal.UnconvertibleIff | backend/generator.go:248-259 | marshaling fails exactly when the IDL type is literally `string` and is not reached through a pointer |
| Marshal.SlotCount | backend/generator.go:239-247 | a marshaled parameter takes three slots when it is a VARIANT by value and one otherwise |
| Marshal.VariantParam | backend/generator.go:239-241 | a VARIANT by value passes three slots `nameV0`, `nameV1`, `nameV2`, with no conversion code and no import |
| Marshal.ScalarParam | backend/generator.go:261 | any other type that reaches the end (not VARIANT or bool by value, no indirection, not mapping to `string`) passes `uintptr(name)` with no code |
| Marshal.BoolParam | backend/generator.go:242-245 | a boolean by value passes its 0/1 local `name_bool`, which its conversion code sets |
| Marshal.PointerParam | backend/generator.go:246-247 | anything reached through a pointer, including `UINT_PTR` and `REFGUID`, passes its address |
| Marshal.WideStringParam | backend/generator.go:250-256 | a wide string by value passes its UTF-16 buffer's address and needs `log` |
| Marshal.AllSlotsCount | backend/generator.go:155-159 | the slot list has one entry per parameter plus two per VARIANT by value |
| Marshal.AllImportsLogOnly | backend/generator.go:253 | conversions add no import but `log` |
| Marshal.MarshalStep | backend/generator.go:155-159 | one more parameter extends the slot list, the imports and the conversion code by its own, in order |
| Marshal.BoolAndPointerMethod | backend/generator.go:155-159 | a `(bool, pointer)` method is convertible and passes the bool's 0/1 local and then the pointer's address, in that order |
| Marshal.ChooseTier | backend/generator.go:160-170 | the if-chain picks the tier `SelectTier` describes |
| Marshal.TierIsSmallest | backend/generator.go:160-170 | up to 9 words the tier is the smallest of 3, 6 and 9 that holds them, named Syscall, Syscall6 or Syscall9 to match; above 9 it is Syscall with 3 |
| Marshal.NoTierAboveNine | backend/generator.go:160-170 | nine or more parameters raise no error: the call stays on Syscall with 3 although more words are passed |
| Marshal.PadSlots | backend/generator.go:172-174 | the padding loop computes `Padded` |
| Marshal.PaddedShape | backend/generator.go:172-174 | padding keeps the slots as a prefix, never truncates, and adds only `"0"`s up to tier-1 entries |
| Backend.TwoParamMethodCall | backend/generator.go:160-174 | a method with two one-slot parameters calls Syscall with 3 words and passes its slots unpadded |
| Marshal.ArgCountFitsTier | backend/generator.go:162-178 | with one slot per parameter and at most 8 parameters, the emitted count is exactly the tier's size |
| Marshal.VariantOverflowsTier | backend/generator.go:162-178 | the tier follows the parameter count, not the slot count: one VARIANT by value picks Syscall with 3 but passes 4 words |
| Backend.CountLineMatchesTier | backend/generator.go:178 | the count line reads back as the padded length plus one, and as the tier's size when every parameter takes one slot and the count fits a tier |
| Text.DecimalRoundTrip | backend/generator.go:178 | `%d` writes digits that read back as the number printed |
| Backend.StubEndsWithStatusCheck | backend/generator.go:185-188 | a stub ends with `)`, the `ole.NewError` status check and the merged `return nil}` line |
| Backend.StubsCheckStatus | backend/generator.go:145-190 | for every method `i`, its stub appears whole in the stubs' lines right after the stubs of methods `0..i-1`, with `)` and then the status check closing its call |
| Backend.ParamsImportsOle | backend/generator.go:149-152 | the parameter lines register go-ole exactly when some parameter's Go type is `ole.`-prefixed |
| Backend.MethodsImportsOle | backend/generator.go:145-190 | the stubs register go-ole exactly when some method has such a parameter |
| Backend.InterfaceOleImport | backend/generator.go:109-192 | go-ole is registered exactly when the interface has methods and either the parent resolves to IUnknown or some parameter is `ole.`-typed |
| Backend.OleErrorWithoutOleImport | backend/generator.go:186-189 | with another parent and no `ole.`-typed parameter the stubs call `ole.NewError` while go-ole is never imported |
| Backend.InterfaceImportsKnown | backend/generator.go:109-192 | an interface registers only imports from the generator's fixed list, and with methods always `unsafe` and `syscall` |

## Left out

- `format` (backend/generator.go:39-47): it calls the external `go/format` pretty-printer and exits on failure.
- `Printf` is modelled for the generator's own formats only, as string concatenation. Its one format without a trailing newline (`return nil`, line 187) is merged with the next print (`}\n`) into the single line `return nil}`, which yields the same text. A format that starts with a newline (line 118) is modelled as an empty line followed by the line. A format that ends in two newlines is modelled as the line followed by an empty line.
- Conversion code is printed as one "line" that may itself hold newlines, as the Go code prints it. The read-back lemmas therefore cover enums and structs, not stubs.
- `Backend.Generator.GenPackage`: Go's map iteration order is not modelled. The order of the import lines is returned as a ghost value, and only "each registered import exactly once" is promised about it.
- `Backend.Generator.GenInterface`: when a parameter cannot be marshaled, the Go code calls `log.Fatalln` (line 258) and the process exits. The model returns `false` instead and promises nothing about the buffer or the imports in that case; the same holds for `GenMethodStub`, `GenConversions` and `GenConversion`.
- `Marshal.PadSlots` and `Marshal.ChooseTier` are methods without state. `GenCall` uses them where the Go code runs the same statements inline.
- The lazily created import map (lines 54-56) is an always-present set, which behaves the same.
- Runtime behaviour of the emitted Go code (the syscalls, UTF-16 encoding, `unsafe.Pointer`, `ole.NewError`) is not modelled: the generator only writes it as text.
- AST kinds and fields the generator never reads are left out. The `scanner` package is not part of this model: attribute kinds are `In`, `Out` or `Other`.
- `Backend.ParamStarsMatchIndirection` is stated for a non-negative declared count only. The parser never produces a negative count, but a negative one would write no declared `*` while a mapped `*` type still adds one.
- Integer widths are not modelled. Counts are unbounded, as Go's `int` never overflows at these sizes.

Three behaviours of the code that a reader might not expect, kept as written:

- the tier is chosen from `len(m.Params) + 1`, not from the number of slots;
- nine or more parameters are not an error: the call falls back to `Syscall` with 3 words;
- the stubs may call `ole.NewError` without importing go-ole.
