/** The code generator of backend/generator.go: a `Generator` object that
    appends Go source text to its buffer and records the imports that text
    needs, one emitter per IDL node kind. The text each emitter appends is
    specified first, as functions of the node; the class's methods are then
    proved to append exactly that text and register exactly those imports. */
module Backend {
  import opened Ast
  import opened Text
  import opened TypeMapping
  import opened Marshal

  // ---------------------------------------------------------------------
  // Declarations: enum, struct, typedef

  /** The const line of the `i`-th enumerator. A first value whose literal
      is empty or "0" becomes the `iota` anchor; any other empty literal
      leaves a bare name; any other literal is assigned as written. */
  function EnumValueLine(enumName: string, i: nat, v: EnumValue): string {
    var val := if (v.val == "" || v.val == "0") && i == 0 then "iota" else v.val;
    if val == "" then v.name else v.name + " " + enumName + " = " + val
  }

  /** The lines `genEnum` prints. */
  function EnumLines(n: Enum): seq<string> {
    ["type " + n.name + " int", "const ("]
    + seq(|n.values|, i requires 0 <= i < |n.values| => EnumValueLine(n.name, i, n.values[i]))
    + [")"]
  }

  /** The three forms of an enumerator line. */
  lemma EnumValueForms(enumName: string, i: nat, v: EnumValue)
    ensures i == 0 && (v.val == "" || v.val == "0") ==>
      EnumValueLine(enumName, i, v) == v.name + " " + enumName + " = iota"
    ensures i > 0 && v.val == "" ==> EnumValueLine(enumName, i, v) == v.name
    ensures v.val != "" && !(i == 0 && v.val == "0") ==>
      EnumValueLine(enumName, i, v) == v.name + " " + enumName + " = " + v.val
  {
  }

  predicate EnumIsSingleLine(n: Enum) {
    && NoNewline(n.name)
    && forall i :: 0 <= i < |n.values| ==> NoNewline(n.values[i].name) && NoNewline(n.values[i].val)
  }

  /** Read back line by line, an enum's text is its type line, `const (`,
      one line per enumerator in order, and `)`. */
  lemma EnumTextLines(n: Enum)
    requires EnumIsSingleLine(n)
    ensures SplitLines(Unlines(EnumLines(n))) == EnumLines(n) + [""]
    ensures |EnumLines(n)| == |n.values| + 3
    ensures forall i :: 0 <= i < |n.values| ==> EnumLines(n)[i + 2] == EnumValueLine(n.name, i, n.values[i])
  {
    forall i | 0 <= i < |EnumLines(n)|
      ensures NoNewline(EnumLines(n)[i])
    {
      if 2 <= i < |n.values| + 2 {
        assert EnumLines(n)[i] == EnumValueLine(n.name, i - 2, n.values[i - 2]);
      }
    }
    LinesOfText(EnumLines(n));
  }

  /** The lines `genStruct` prints: one `name GoType` line per field, in
      field order; the field's own indirection count is not used. */
  function StructLines(n: Struct): seq<string> {
    ["type " + n.name + " struct {"] + FieldLines(n.fields) + ["}"]
  }

  function FieldLines(fields: seq<StructField>): seq<string> {
    seq(|fields|, i requires 0 <= i < |fields| => fields[i].name + " " + MappedName(fields[i].typeName))
  }

  lemma FieldLinesStep(fields: seq<StructField>, i: nat)
    requires i < |fields|
    ensures FieldLines(fields[..i + 1]) == FieldLines(fields[..i]) + [fields[i].name + " " + MappedName(fields[i].typeName)]
  {
  }

  /** The imports the fields' Go types need. */
  function FieldImports(fields: seq<StructField>): set<string> {
    if fields == [] then {}
    else FieldImports(fields[..|fields| - 1]) + ImportsOf(MappedName(fields[|fields| - 1].typeName))
  }

  lemma FieldImportsStep(fields: seq<StructField>, i: nat)
    requires i < |fields|
    ensures FieldImports(fields[..i + 1]) == FieldImports(fields[..i]) + ImportsOf(MappedName(fields[i].typeName))
  {
    assert fields[..i + 1][..i] == fields[..i];
  }

  predicate StructIsSingleLine(n: Struct) {
    && NoNewline(n.name)
    && forall i :: 0 <= i < |n.fields| ==> NoNewline(n.fields[i].name) && NoNewline(MappedName(n.fields[i].typeName))
  }

  /** Read back line by line, a struct's text has exactly one line per
      field, in field order, between its header and the closing brace. */
  lemma StructTextLines(n: Struct)
    requires StructIsSingleLine(n)
    ensures SplitLines(Unlines(StructLines(n))) == StructLines(n) + [""]
    ensures |StructLines(n)| == |n.fields| + 2
    ensures forall i :: 0 <= i < |n.fields| ==>
      StructLines(n)[i + 1] == n.fields[i].name + " " + MappedName(n.fields[i].typeName)
  {
    forall i | 0 <= i < |StructLines(n)|
      ensures NoNewline(StructLines(n)[i])
    {
      if 1 <= i < |n.fields| + 1 {
        assert StructLines(n)[i] == n.fields[i - 1].name + " " + MappedName(n.fields[i - 1].typeName);
      }
    }
    LinesOfText(StructLines(n));
  }

  /** The aliased type of a typedef: the mapped type, with `void` replaced
      by the empty struct. */
  function TypedefTarget(n: Typedef): string {
    var t := MappedName(n.typeName);
    if t == "void" then "struct{}" else t
  }

  /** A typedef never aliases `void`: IDL `void` becomes `struct{}`, a table
      key becomes its Go type, and any other name is kept. */
  lemma TypedefTargetCases(n: Typedef)
    ensures TypedefTarget(n) != "void"
    ensures n.typeName == "void" ==> TypedefTarget(n) == "struct{}"
    ensures n.typeName in TypeMap ==> TypedefTarget(n) == TypeMap[n.typeName]
    ensures n.typeName !in TypeMap && n.typeName != "void" ==> TypedefTarget(n) == n.typeName
  {
    if n.typeName in TypeMap {
      var g := TypeMap[n.typeName];
      TableValueIsNotVoid(n.typeName);
      assert MappedName(n.typeName) == g;
    } else {
      assert MappedName(n.typeName) == n.typeName;
    }
  }

  /** No table value is `void`, and `void` is not a key. */
  lemma TableValueIsNotVoid(t: string)
    requires t in TypeMap
    ensures TypeMap[t] != "void" && t != "void"
  {
    ValueShape(t);
    KeyShape(t);
    assert "void"[0] !in ValueStarts;
  }

  // ---------------------------------------------------------------------
  // Parameters

  /** The `*`s written for a declared indirection count. */
  function Stars(k: int): (s: string)
    ensures |s| == (if k <= 0 then 0 else k)
    ensures CountChar(s, '*') == |s|
    decreases k
  {
    if k <= 0 then "" else
      var s := Stars(k - 1) + "*";
      CountCharAppend(Stars(k - 1), "*", '*');
      s
  }

  /** The Go parameter `genParam` writes: name, the declared `*`s and the
      mapped type. */
  function ParamDecl(p: Param): string {
    p.name + " " + Stars(p.indirections) + MappedName(p.typeName)
  }

  /** The label of one `in`/`out` attribute, with its argument if any. */
  function Label(word: string, val: string): string {
    if val == "" then word else word + "(" + val + ")"
  }

  /** The labels of the direction attributes, in order; every other
      attribute is dropped. */
  function AttrLabels(attrs: seq<ParamAttr>): (r: seq<string>)
    ensures |r| <= |attrs|
    ensures forall i :: 0 <= i < |r| ==> HasPrefix(r[i], "in") || HasPrefix(r[i], "out")
  {
    if attrs == [] then []
    else
      var last := attrs[|attrs| - 1];
      AttrLabels(attrs[..|attrs| - 1]) +
        match last.kind
        case In => [Label("in", last.val)]
        case Out => [Label("out", last.val)]
        case Other => []
  }

  /** The comment written after a parameter: `[in, out(retval)]`. */
  function AttrComment(attrs: seq<ParamAttr>): string {
    "[" + Join(AttrLabels(attrs), ", ") + "]"
  }

  /** The labels of one more attribute. */
  lemma AttrLabelsStep(attrs: seq<ParamAttr>, j: nat)
    requires j < |attrs|
    ensures AttrLabels(attrs[..j + 1]) == AttrLabels(attrs[..j]) +
      match attrs[j].kind
      case In => [Label("in", attrs[j].val)]
      case Out => [Label("out", attrs[j].val)]
      case Other => []
  {
    assert attrs[..j + 1][..j] == attrs[..j];
  }

  /** Labels of a split attribute list are the two halves' labels, in order. */
  lemma {:induction false} AttrLabelsAppend(a: seq<ParamAttr>, b: seq<ParamAttr>)
    ensures AttrLabels(a + b) == AttrLabels(a) + AttrLabels(b)
    decreases |b|
  {
    if b == [] {
      assert a + b == a;
    } else {
      var init := b[..|b| - 1];
      AttrLabelsAppend(a, init);
      assert (a + b)[..|a + b| - 1] == a + init;
      assert (a + b)[|a + b| - 1] == b[|b| - 1];
    }
  }

  /** The `*`s in the written Go parameter type are exactly the total
      indirection `genSyscallParams` computes, when the declared count is
      not negative. */
  lemma ParamStarsMatchIndirection(p: Param)
    requires p.indirections >= 0
    ensures CountChar(Stars(p.indirections) + MappedName(p.typeName), '*') == TotalIndirection(p)
  {
    CountCharAppend(Stars(p.indirections), MappedName(p.typeName), '*');
  }

  /** The imports the parameters' Go types need. */
  function ParamsImports(params: seq<Param>): set<string> {
    if params == [] then {}
    else ParamsImports(params[..|params| - 1]) + ImportsOf(GoType(params[|params| - 1]))
  }

  lemma ParamsImportsStep(params: seq<Param>, i: nat)
    requires i < |params|
    ensures ParamsImports(params[..i + 1]) == ParamsImports(params[..i]) + ImportsOf(GoType(params[i]))
  {
    assert params[..i + 1][..i] == params[..i];
  }

  // ---------------------------------------------------------------------
  // Interfaces

  /** The parent a vtable embeds: IUnknown when none is named, qualified
      with `ole.` when it lives in go-ole. */
  function ResolveParent(parentName: string): string {
    var pn := if parentName == "" then "IUnknown" else parentName;
    if pn in OlePackageStruct then "ole." + pn else pn
  }

  /** The import resolving the parent registers. */
  function ParentImports(parentName: string): set<string> {
    var pn := if parentName == "" then "IUnknown" else parentName;
    if pn in OlePackageStruct then {OleImport} else {}
  }

  /** An unnamed parent and an explicit IUnknown both become go-ole's
      IUnknown and need go-ole; any other parent is kept and needs nothing. */
  lemma ParentCases(parentName: string)
    ensures parentName in {"", "IUnknown"} ==>
      ResolveParent(parentName) == "ole.IUnknown" && ParentImports(parentName) == {OleImport}
    ensures parentName !in {"", "IUnknown"} ==>
      ResolveParent(parentName) == parentName && ParentImports(parentName) == {}
  {
  }

  /** The vtable slot line of each method, in declaration order. */
  function SlotLines(methods: seq<Method>): seq<string> {
    seq(|methods|, i requires 0 <= i < |methods| => methods[i].name + " uintptr")
  }

  /** The comment line that opens each interface's section. */
  const Banner := "/////////////////////////////////////////"

  /** The receiver, always the first argument after the slot. */
  const ReceiverArg := "uintptr(unsafe.Pointer(v)),"

  /** go-ole's error constructor for a failed HRESULT. */
  const OleNewError := "ole.NewError"

  /** A nonzero status becomes an error; go-ole provides it. */
  const StatusCheck := "if hr != 0 { return " + OleNewError + "(hr) }"

  /** The vtable struct `genInterface` prints first: a banner, then the
      parent's vtable followed by one slot per method, in method order. */
  function VtableLines(n: Interface): seq<string> {
    [Banner, "// " + n.name, "",
     "type " + n.name + "Vtbl struct {", ResolveParent(n.parentName) + "Vtbl"]
    + SlotLines(n.methods)
    + ["}", ""]
  }

  lemma SlotLinesStep(methods: seq<Method>, i: nat)
    requires i < |methods|
    ensures SlotLines(methods[..i + 1]) == SlotLines(methods[..i]) + [methods[i].name + " uintptr"]
  {
  }

  /** The wrapper type, embedding the resolved parent `pn`, and its
      `VTable()` accessor. */
  function WrapperLines(name: string, pn: string): seq<string> {
    ["type " + name + " struct {", pn, "}", "",
     "func (v *" + name + ") VTable() *" + name + "Vtbl {",
     "return (*" + name + "Vtbl)(unsafe.Pointer(v.RawVTable))", "}", ""]
  }

  /** Everything `genInterface` prints before the method stubs. */
  function HeaderLines(n: Interface): seq<string> {
    VtableLines(n) + WrapperLines(n.name, ResolveParent(n.parentName))
  }

  /** The parameter lines of a stub: `decl, // [attrs]`. */
  function ParamLines(params: seq<Param>): seq<string> {
    seq(|params|, i requires 0 <= i < |params| => ParamDecl(params[i]) + ", // " + AttrComment(params[i].attributes))
  }

  lemma ParamLinesStep(params: seq<Param>, i: nat)
    requires i < |params|
    ensures ParamLines(params[..i + 1]) ==
      ParamLines(params[..i]) + [ParamDecl(params[i]) + ", // " + AttrComment(params[i].attributes)]
  {
  }

  /** The signature of a stub: a pointer-receiver method of the wrapper
      type, one line per parameter, returning `error`. */
  function SignatureLines(iface: string, m: Method): seq<string> {
    ["func (v *" + iface + ") " + m.name + "("]
    + ParamLines(m.params)
    + [") error {"]
  }

  /** The call argument lines. */
  function ArgLines(args: seq<string>): seq<string> {
    seq(|args|, i requires 0 <= i < |args| => args[i] + ",")
  }

  lemma ArgLinesStep(args: seq<string>, j: nat)
    requires j < |args|
    ensures ArgLines(args[..j + 1]) == ArgLines(args[..j]) + [args[j] + ","]
  {
  }

  /** The call and status check a stub ends with: the chosen entry point,
      the method's vtable slot, the argument count (padded slots plus the
      receiver), the receiver, the padded slots, and a nonzero status
      turned into an ole error. The last line joins two prints. */
  function CallLines(methodName: string, tier: Tier, padded: seq<string>): seq<string> {
    ["hr, _, _ := syscall." + tier.func + "(",
     "v.VTable()." + methodName + ",",
     NatToDecimal(|padded| + 1) + ",",
     ReceiverArg]
    + ArgLines(padded)
    + [")", StatusCheck, "return nil" + "}"]
  }

  /** The tier of a method's call, chosen from its parameter count. */
  function MethodTier(m: Method): Tier {
    SelectTier(|m.params| + 1)
  }

  /** The arguments after the receiver: the slots, padded for the tier. */
  function MethodArgs(m: Method): seq<string> {
    Padded(AllSlots(m.params), MethodTier(m).required)
  }

  /** The stub of one method: signature, conversion code, call. */
  function StubLines(iface: string, m: Method): seq<string> {
    SignatureLines(iface, m) + ConvertLines(m.params) + CallLines(m.name, MethodTier(m), MethodArgs(m))
  }

  function StubsLines(iface: string, methods: seq<Method>): seq<string> {
    if methods == [] then []
    else StubsLines(iface, methods[..|methods| - 1]) + StubLines(iface, methods[|methods| - 1])
  }

  /** Every parameter of every method can be marshaled. */
  predicate MethodsConvertible(methods: seq<Method>) {
    forall i :: 0 <= i < |methods| ==> AllConvertible(methods[i].params)
  }

  /** The imports one stub registers: its parameters' Go types, the `log`
      import of wide strings, and `syscall`. */
  function MethodImports(m: Method): set<string> {
    ParamsImports(m.params) + AllImports(m.params) + {SyscallImport}
  }

  function MethodsImports(methods: seq<Method>): set<string> {
    if methods == [] then {}
    else MethodsImports(methods[..|methods| - 1]) + MethodImports(methods[|methods| - 1])
  }

  lemma StubsStep(iface: string, methods: seq<Method>, i: nat)
    requires i < |methods|
    ensures StubsLines(iface, methods[..i + 1]) == StubsLines(iface, methods[..i]) + StubLines(iface, methods[i])
    ensures MethodsImports(methods[..i + 1]) == MethodsImports(methods[..i]) + MethodImports(methods[i])
  {
    assert methods[..i + 1][..i] == methods[..i];
  }

  lemma MethodsConvertibleStep(methods: seq<Method>, i: nat)
    requires i < |methods|
    requires MethodsConvertible(methods[..i]) && AllConvertible(methods[i].params)
    ensures MethodsConvertible(methods[..i + 1])
  {
    var ms := methods[..i + 1];
    forall j | 0 <= j < |ms|
      ensures AllConvertible(ms[j].params)
    {
      if j < i {
        assert ms[j] == methods[..i][j];
      }
    }
  }

  /** Every line `genInterface` prints; none for an interface without
      methods. */
  function InterfaceLines(n: Interface): seq<string> {
    if n.methods == [] then [] else HeaderLines(n) + StubsLines(n.name, n.methods)
  }

  /** Everything `genInterface` registers; nothing for an interface without
      methods. */
  function InterfaceImports(n: Interface): set<string> {
    if n.methods == [] then {}
    else ParentImports(n.parentName) + {UnsafeImport} + MethodsImports(n.methods)
  }

  /** The vtable layout: the parent's vtable first, then method `i`'s slot
      at position `i`, so slots follow declaration order. */
  lemma VtableLayout(n: Interface)
    ensures |VtableLines(n)| == |n.methods| + 7
    ensures VtableLines(n)[4] == ResolveParent(n.parentName) + "Vtbl"
    ensures forall i :: 0 <= i < |n.methods| ==> VtableLines(n)[5 + i] == n.methods[i].name + " uintptr"
  {
  }

  /** Some parameter's Go type lives in the go-ole package. */
  predicate SomeOleParam(params: seq<Param>) {
    exists i :: 0 <= i < |params| && HasPrefix(GoType(params[i]), "ole.")
  }

  /** Some method has such a parameter. */
  predicate SomeOleMethod(methods: seq<Method>) {
    exists i :: 0 <= i < |methods| && SomeOleParam(methods[i].params)
  }

  lemma {:induction false} ParamsImportsOle(params: seq<Param>)
    ensures OleImport in ParamsImports(params) <==> SomeOleParam(params)
  {
    if params != [] {
      var init, last := params[..|params| - 1], params[|params| - 1];
      ParamsImportsOle(init);
      if SomeOleParam(init) {
        var i :| 0 <= i < |init| && HasPrefix(GoType(init[i]), "ole.");
        assert params[i] == init[i];
      }
      if SomeOleParam(params) {
        var i :| 0 <= i < |params| && HasPrefix(GoType(params[i]), "ole.");
        if i < |init| {
          assert init[i] == params[i];
        }
      }
    }
  }

  lemma MethodImportsOle(m: Method)
    ensures OleImport in MethodImports(m) <==> SomeOleParam(m.params)
  {
    ParamsImportsOle(m.params);
    AllImportsLogOnly(m.params);
  }

  lemma {:induction false} MethodsImportsOle(methods: seq<Method>)
    ensures OleImport in MethodsImports(methods) <==> SomeOleMethod(methods)
  {
    if methods != [] {
      var init, last := methods[..|methods| - 1], methods[|methods| - 1];
      assert MethodsImports(methods) == MethodsImports(init) + MethodImports(last);
      MethodsImportsOle(init);
      MethodImportsOle(last);
      SomeOleMethodSnoc(methods);
    }
  }

  lemma SomeOleMethodSnoc(methods: seq<Method>)
    requires methods != []
    ensures SomeOleMethod(methods) <==>
      SomeOleMethod(methods[..|methods| - 1]) || SomeOleParam(methods[|methods| - 1].params)
  {
    var init := methods[..|methods| - 1];
    if SomeOleMethod(init) {
      var i :| 0 <= i < |init| && SomeOleParam(init[i].params);
      assert methods[i] == init[i];
    }
    if SomeOleMethod(methods) {
      var i :| 0 <= i < |methods| && SomeOleParam(methods[i].params);
      if i < |init| {
        assert init[i] == methods[i];
      }
    }
  }

  /** go-ole is imported for an interface exactly when it has methods and
      either its parent resolves to go-ole's IUnknown or some parameter's Go
      type is `ole.`-prefixed. */
  lemma InterfaceOleImport(n: Interface)
    ensures OleImport in InterfaceImports(n) <==>
      n.methods != [] && (n.parentName in {"", "IUnknown"} || SomeOleMethod(n.methods))
  {
    ParentCases(n.parentName);
    MethodsImportsOle(n.methods);
  }

  /** One stub closes its call with `)`, then the status check, then
      `return nil}`. */
  lemma StubEndsWithStatusCheck(iface: string, m: Method)
    ensures var s := StubLines(iface, m);
      |s| >= 3 && s[|s| - 3] == ")" && s[|s| - 2] == StatusCheck && s[|s| - 1] == "return nil" + "}"
  {
  }

  /** The stubs written for a prefix of the methods begin the stubs of
      all of them. */
  lemma {:induction false} StubsPrefix(iface: string, methods: seq<Method>, j: nat)
    requires j <= |methods|
    ensures StubsLines(iface, methods[..j]) <= StubsLines(iface, methods)
    decreases |methods|
  {
    if j < |methods| {
      var init := methods[..|methods| - 1];
      assert init[..j] == methods[..j];
      StubsPrefix(iface, init, j);
    } else {
      assert methods[..j] == methods;
    }
  }

  /** Method `i`'s stub sits in the stubs' lines right after the stubs of
      the methods before it, and its call is followed by the status check. */
  lemma StubsCheckStatus(iface: string, methods: seq<Method>, i: nat)
    requires i < |methods|
    ensures var stubs, start, stub := StubsLines(iface, methods), |StubsLines(iface, methods[..i])|, StubLines(iface, methods[i]);
      start + |stub| <= |stubs| && stubs[start..start + |stub|] == stub
      && stubs[start + |stub| - 3] == ")" && stubs[start + |stub| - 2] == StatusCheck
  {
    var stubs, before, stub := StubsLines(iface, methods), StubsLines(iface, methods[..i]), StubLines(iface, methods[i]);
    StubsStep(iface, methods, i);
    StubsPrefix(iface, methods, i + 1);
    BlockAt(stubs, before, stub);
    StubEndsWithStatusCheck(iface, methods[i]);
    assert stubs[|before| + |stub| - 3] == stub[|stub| - 3];
    assert stubs[|before| + |stub| - 2] == stub[|stub| - 2];
  }

  /** A block that follows a prefix of a sequence sits right after it. */
  lemma BlockAt<T>(whole: seq<T>, front: seq<T>, block: seq<T>)
    requires front + block <= whole
    ensures |front| + |block| <= |whole| && whole[|front|..|front| + |block|] == block
  {
    assert whole[..|front| + |block|] == front + block;
    assert (front + block)[|front|..] == block;
  }

  /** The status check returns `ole.NewError` whatever was imported: an
      interface with methods, a parent other than IUnknown and no
      `ole.`-typed parameter calls go-ole without importing it. */
  lemma OleErrorWithoutOleImport(n: Interface)
    requires n.methods != [] && n.parentName !in {"", "IUnknown"} && !SomeOleMethod(n.methods)
    ensures OleImport !in InterfaceImports(n)
    ensures StatusCheck in InterfaceLines(n)
  {
    InterfaceOleImport(n);
    InterfaceChecksStatus(n);
  }

  /** An interface with methods always prints the status check. */
  lemma InterfaceChecksStatus(n: Interface)
    requires n.methods != []
    ensures StatusCheck in InterfaceLines(n)
  {
    var stubs, start, stub := StubsLines(n.name, n.methods), |StubsLines(n.name, n.methods[..0])|, StubLines(n.name, n.methods[0]);
    StubsCheckStatus(n.name, n.methods, 0);
    assert stubs[start + |stub| - 2] == StatusCheck;
    InSuffix(HeaderLines(n), stubs, StatusCheck);
  }

  lemma InSuffix(a: seq<string>, b: seq<string>, x: string)
    requires x in b
    ensures x in a + b
  {
    var k :| 0 <= k < |b| && b[k] == x;
    assert (a + b)[|a| + k] == x;
  }

  lemma {:induction false} ParamsImportsKnown(params: seq<Param>)
    ensures ParamsImports(params) <= {WintypesImport, OleImport}
  {
    if params != [] {
      ParamsImportsKnown(params[..|params| - 1]);
    }
  }

  lemma {:induction false} MethodsImportsKnown(methods: seq<Method>)
    ensures MethodsImports(methods) <= KnownImports
  {
    if methods != [] {
      var last := methods[|methods| - 1];
      MethodsImportsKnown(methods[..|methods| - 1]);
      ParamsImportsKnown(last.params);
      AllImportsLogOnly(last.params);
    }
  }

  lemma {:induction false} FieldImportsKnown(fields: seq<StructField>)
    ensures FieldImports(fields) <= {WintypesImport, OleImport}
  {
    if fields != [] {
      FieldImportsKnown(fields[..|fields| - 1]);
    }
  }

  /** An interface only ever registers imports from the generator's fixed
      list, and one with methods always registers `unsafe` and `syscall`. */
  lemma InterfaceImportsKnown(n: Interface)
    ensures InterfaceImports(n) <= KnownImports
    ensures n.methods != [] ==> UnsafeImport in InterfaceImports(n) && SyscallImport in InterfaceImports(n)
  {
    MethodsImportsKnown(n.methods);
    if n.methods != [] {
      assert SyscallImport in MethodImports(n.methods[|n.methods| - 1]);
    }
  }

  /** The count line of a stub reads back as the number of words passed
      after the slot (padded slots plus the receiver); when every parameter
      takes one slot and the count fits a tier, that is the tier's size. */
  lemma CountLineMatchesTier(m: Method)
    requires AllConvertible(m.params)
    ensures var line := CallLines(m.name, MethodTier(m), MethodArgs(m))[2];
      && |line| >= 2 && line[|line| - 1] == ',' && AllDigits(line[..|line| - 1])
      && DecimalValue(line[..|line| - 1]) == |MethodArgs(m)| + 1
      && (VariantCount(m.params) == 0 && |m.params| + 1 <= 9 ==>
            DecimalValue(line[..|line| - 1]) == MethodTier(m).required)
  {
    var count := NatToDecimal(|MethodArgs(m)| + 1);
    DecimalRoundTrip(|MethodArgs(m)| + 1);
    assert (count + ",")[..|count|] == count;
    if VariantCount(m.params) == 0 && |m.params| + 1 <= 9 {
      ArgCountFitsTier(m.params);
    }
  }

  /** A method with two parameters of one slot each calls Syscall with 3
      words, and its two slots need no padding. */
  lemma TwoParamMethodCall(m: Method)
    requires |m.params| == 2 && AllConvertible(m.params) && VariantCount(m.params) == 0
    ensures MethodTier(m) == Tier("Syscall", 3)
    ensures MethodArgs(m) == AllSlots(m.params) && |MethodArgs(m)| == 2
  {
    AllSlotsCount(m.params);
  }

  /** Regrouping the imports registered by one more step of a loop. */
  lemma UnionShuffle(a: set<string>, b: set<string>, c: set<string>, d: set<string>, e: set<string>)
    ensures a + b + c + d + e == a + (b + d) + (c + e)
  {
  }

  // ---------------------------------------------------------------------
  // The import preamble

  predicate Distinct(s: seq<string>) {
    forall i, j :: 0 <= i < j < |s| ==> s[i] != s[j]
  }

  /** The import every generated file needs for its UTF-16 encoder. */
  const UnicodeImport := "\"golang.org/x/text/encoding/unicode\""

  /** The encoder the wide-string conversions call. */
  const EncoderDecl := "var utf16Encoder = unicode.UTF16(unicode.LittleEndian, unicode.IgnoreBOM).NewEncoder()"

  const PreambleHead: seq<string> := ["", "import (", UnicodeImport]

  const PreambleTail: seq<string> := [")", "", EncoderDecl, ""]

  /** The lines `genPackage` puts in front of the generated declarations,
      for one order of the registered imports. */
  function PreambleLines(pkgName: string, imports: seq<string>): seq<string> {
    ["package " + pkgName] + PreambleHead + imports + PreambleTail
  }

  /** A duplicate-free listing of a set names each element exactly once. */
  lemma {:induction false} ListedOnce(order: seq<string>, s: set<string>)
    requires Distinct(order)
    requires forall k :: k in order <==> k in s
    ensures |order| == |s|
    ensures forall k :: k in s ==> multiset(order)[k] == 1
    decreases |order|
  {
    if order == [] {
      assert s == {};
    } else {
      var init, last := order[..|order| - 1], order[|order| - 1];
      assert order == init + [last];
      assert last !in init;
      assert forall k :: k in init <==> k in s - {last};
      ListedOnce(init, s - {last});
      assert multiset(order) == multiset(init) + multiset{last};
    }
  }

  // ---------------------------------------------------------------------
  // The generator

  class Generator {
    /** The generated source so far, as the newline-terminated lines
        written to it, in order; the text itself is `Output()`. */
    var buf: seq<string>
    /** The import lines the generated source needs (a Go map used as a set). */
    var packages: set<string>

    /** The generated text: every line followed by a newline. */
    function Output(): string
      reads this
    {
      Unlines(buf)
    }

    /** A zero `Generator`: empty buffer, no imports. */
    constructor ()
      ensures buf == [] && packages == {}
    {
      buf := [];
      packages := {};
    }

    /** `Printf` of a format that ends in a newline: one more line. */
    method PrintLine(line: string)
      modifies this
      ensures buf == old(buf) + [line]
      ensures packages == old(packages)
    {
      buf := buf + [line];
    }

    /** `addPackage`: insert into the import set. */
    method AddPackage(pkg: string)
      modifies this
      ensures packages == old(packages) + {pkg}
      ensures buf == old(buf)
    {
      packages := packages + {pkg};
    }

    /** `genPackage`: put the package clause, the import block (unicode,
        then every registered import once, in an order the model leaves
        open, as Go's map iteration does) and the encoder variable in front
        of everything generated so far. */
    method GenPackage(pkgName: string) returns (ghost order: seq<string>)
      modifies this
      ensures packages == old(packages)
      ensures Distinct(order) && forall k :: k in order <==> k in packages
      ensures buf == PreambleLines(pkgName, order) + old(buf)
    {
      var body := buf;
      buf := [];
      PrintLine("package " + pkgName);
      PrintLine("");
      PrintLine("import (");
      PrintLine(UnicodeImport);
      ghost var head := buf;
      order := GenImports();
      PrintLine(")");
      PrintLine("");
      PrintLine(EncoderDecl);
      PrintLine("");
      ghost var preamble := buf;
      assert preamble == PreambleLines(pkgName, order) by {
        AppendAssoc(head, order, PreambleTail);
      }
      buf := buf + body;
    }

    /** One line per registered import, in the order the iteration visits
        them, which the model leaves open. */
    method GenImports() returns (ghost order: seq<string>)
      modifies this
      ensures packages == old(packages)
      ensures Distinct(order) && forall k :: k in order <==> k in packages
      ensures buf == old(buf) + order
    {
      var remaining := packages;
      order := [];
      while remaining != {}
        invariant packages == old(packages)
        invariant remaining <= packages
        invariant forall k :: k in order <==> k in packages && k !in remaining
        invariant Distinct(order)
        invariant buf == old(buf) + order
        decreases remaining
      {
        var k :| k in remaining;
        PrintLine(k);
        AppendAssoc(old(buf), order, [k]);
        order := order + [k];
        remaining := remaining - {k};
      }
    }

    /** `genEnum`. */
    method GenEnum(n: Enum)
      modifies this
      ensures buf == old(buf) + EnumLines(n)
      ensures packages == old(packages)
    {
      ghost var lines := EnumLines(n);
      PrintLine("type " + n.name + " int");
      PrintLine("const (");
      for i := 0 to |n.values|
        invariant buf == old(buf) + lines[..i + 2]
        invariant packages == old(packages)
      {
        var v := n.values[i];
        var enumVal := v.val;
        if (enumVal == "" || enumVal == "0") && i == 0 {
          enumVal := "iota";
        }
        if enumVal == "" {
          PrintLine(v.name);
        } else {
          PrintLine(v.name + " " + n.name + " = " + enumVal);
        }
        assert lines[..i + 3] == lines[..i + 2] + [EnumValueLine(n.name, i, v)];
      }
      PrintLine(")");
      assert lines == lines[..|n.values| + 2] + [")"];
    }

    /** `genStruct`. */
    method GenStruct(n: Struct)
      modifies this
      ensures buf == old(buf) + StructLines(n)
      ensures packages == old(packages) + FieldImports(n.fields)
    {
      PrintLine("type " + n.name + " struct {");
      ghost var head := buf;
      for i := 0 to |n.fields|
        invariant buf == head + FieldLines(n.fields[..i])
        invariant packages == old(packages) + FieldImports(n.fields[..i])
      {
        var f := n.fields[i];
        var t := MapType(f.typeName);
        PrintLine(f.name + " " + t);
        FieldLinesStep(n.fields, i);
        AppendAssoc(head, FieldLines(n.fields[..i]), [f.name + " " + t]);
        FieldImportsStep(n.fields, i);
      }
      PrintLine("}");
      assert n.fields[..|n.fields|] == n.fields;
      AppendAssoc(old(buf), ["type " + n.name + " struct {"], FieldLines(n.fields));
      AppendAssoc(old(buf), ["type " + n.name + " struct {"] + FieldLines(n.fields), ["}"]);
    }

    /** `genTypedef`. */
    method GenTypedef(n: Typedef)
      modifies this
      ensures buf == old(buf) + ["type " + n.name + " " + TypedefTarget(n)]
      ensures packages == old(packages) + ImportsOf(MappedName(n.typeName))
    {
      var t := MapType(n.typeName);
      if t == "void" {
        t := "struct{}";
      }
      PrintLine("type " + n.name + " " + t);
    }

    /** `genInterface`: nothing for an interface without methods;
        otherwise the vtable header and one stub per method. A parameter
        the stubs cannot marshal stops generation (`ok` is false, and what
        was written before that point is left unspecified). */
    method GenInterface(n: Interface) returns (ok: bool)
      modifies this
      ensures n.methods == [] ==> ok && buf == old(buf) && packages == old(packages)
      ensures ok <==> MethodsConvertible(n.methods)
      ensures ok ==> buf == old(buf) + InterfaceLines(n)
      ensures ok ==> packages == old(packages) + InterfaceImports(n)
    {
      if |n.methods| == 0 {
        return true;
      }
      var pn := GenVtable(n);
      GenWrapper(n.name, pn);
      ghost var header := buf;
      ghost var base := packages;
      AppendAssoc(old(buf), VtableLines(n), WrapperLines(n.name, pn));
      assert n.methods[..0] == [];
      for i := 0 to |n.methods|
        invariant MethodsConvertible(n.methods[..i])
        invariant buf == header + StubsLines(n.name, n.methods[..i])
        invariant packages == base + MethodsImports(n.methods[..i])
      {
        ok := GenMethodStub(n.name, n.methods[i]);
        if !ok {
          assert !AllConvertible(n.methods[i].params);
          return false;
        }
        StubsStep(n.name, n.methods, i);
        MethodsConvertibleStep(n.methods, i);
        AppendAssoc(header, StubsLines(n.name, n.methods[..i]), StubLines(n.name, n.methods[i]));
      }
      assert n.methods[..|n.methods|] == n.methods;
      AppendAssoc(old(buf), HeaderLines(n), StubsLines(n.name, n.methods));
      ok := true;
    }

    /** The vtable part of `genInterface`: the parent is resolved (and
        go-ole registered for IUnknown) between the struct's first line
        and the parent's vtable line. Returns the resolved parent. */
    method GenVtable(n: Interface) returns (pn: string)
      modifies this
      ensures pn == ResolveParent(n.parentName)
      ensures buf == old(buf) + VtableLines(n)
      ensures packages == old(packages) + ParentImports(n.parentName)
    {
      PrintLine(Banner);
      PrintLine("// " + n.name);
      PrintLine("");
      PrintLine("type " + n.name + "Vtbl struct {");
      pn := GenParent(n.parentName);
      PrintLine(pn + "Vtbl");
      ghost var head := buf;
      GenSlots(n.methods);
      PrintLine("}");
      PrintLine("");
      AppendAssoc(head, SlotLines(n.methods), ["}", ""]);
    }

    /** The parent's resolution: IUnknown when none is named, qualified
        with `ole.` (and go-ole registered) when it lives in go-ole. */
    method GenParent(parentName: string) returns (pn: string)
      modifies this
      ensures pn == ResolveParent(parentName)
      ensures packages == old(packages) + ParentImports(parentName)
      ensures buf == old(buf)
    {
      pn := parentName;
      if pn == "" {
        pn := "IUnknown";
      }
      if pn in OlePackageStruct {
        pn := "ole." + pn;
        AddPackage(OleImport);
      }
    }

    /** One `uintptr` slot per method, in method order. */
    method GenSlots(methods: seq<Method>)
      modifies this
      ensures buf == old(buf) + SlotLines(methods)
      ensures packages == old(packages)
    {
      for i := 0 to |methods|
        invariant buf == old(buf) + SlotLines(methods[..i])
        invariant packages == old(packages)
      {
        PrintLine(methods[i].name + " uintptr");
        SlotLinesStep(methods, i);
        AppendAssoc(old(buf), SlotLines(methods[..i]), [methods[i].name + " uintptr"]);
      }
      assert methods[..|methods|] == methods;
    }

    /** The wrapper part of `genInterface`: the wrapper type and its
        accessor, which needs the `unsafe` import. */
    method GenWrapper(name: string, pn: string)
      modifies this
      ensures buf == old(buf) + WrapperLines(name, pn)
      ensures packages == old(packages) + {UnsafeImport}
    {
      PrintLine("type " + name + " struct {");
      PrintLine(pn);
      PrintLine("}");
      PrintLine("");
      PrintLine("func (v *" + name + ") VTable() *" + name + "Vtbl {");
      PrintLine("return (*" + name + "Vtbl)(unsafe.Pointer(v.RawVTable))");
      PrintLine("}");
      PrintLine("");
      AddPackage(UnsafeImport);
    }

    /** One method's stub (the body of the stub loop of `genInterface`). */
    method GenMethodStub(iface: string, m: Method) returns (ok: bool)
      modifies this
      ensures ok <==> AllConvertible(m.params)
      ensures ok ==> buf == old(buf) + StubLines(iface, m)
      ensures ok ==> packages == old(packages) + MethodImports(m)
    {
      GenSignature(iface, m);
      var slots;
      ok, slots := GenConversions(m.params);
      if !ok {
        return;
      }
      GenCall(m.name, slots, |m.params|);
      AppendAssoc(old(buf), SignatureLines(iface, m), ConvertLines(m.params));
      AppendAssoc(old(buf), SignatureLines(iface, m) + ConvertLines(m.params),
                  CallLines(m.name, MethodTier(m), MethodArgs(m)));
    }

    /** The stub's signature: one `genParam` line per parameter. */
    method GenSignature(iface: string, m: Method)
      modifies this
      ensures buf == old(buf) + SignatureLines(iface, m)
      ensures packages == old(packages) + ParamsImports(m.params)
    {
      PrintLine("func (v *" + iface + ") " + m.name + "(");
      GenParams(m.params);
      PrintLine(") error {");
    }

    /** One `genParam` line per parameter, in order. */
    method GenParams(params: seq<Param>)
      modifies this
      ensures buf == old(buf) + ParamLines(params)
      ensures packages == old(packages) + ParamsImports(params)
    {
      for i := 0 to |params|
        invariant buf == old(buf) + ParamLines(params[..i])
        invariant packages == old(packages) + ParamsImports(params[..i])
      {
        var param, comment := GenParam(params[i]);
        PrintLine(param + ", // " + comment);
        ParamLinesStep(params, i);
        AppendAssoc(old(buf), ParamLines(params[..i]), [param + ", // " + comment]);
        ParamsImportsStep(params, i);
      }
      assert params[..|params|] == params;
    }

    /** The conversion loop: each parameter's slots are collected and its
        conversion code printed; the first parameter that cannot be
        marshaled stops it. */
    method GenConversions(params: seq<Param>) returns (ok: bool, slots: seq<string>)
      modifies this
      ensures ok <==> AllConvertible(params)
      ensures ok ==> slots == AllSlots(params)
      ensures ok ==> buf == old(buf) + ConvertLines(params)
      ensures ok ==> packages == old(packages) + ParamsImports(params) + AllImports(params)
    {
      slots := [];
      for i := 0 to |params|
        invariant AllConvertible(params[..i])
        invariant slots == AllSlots(params[..i])
        invariant buf == old(buf) + ConvertLines(params[..i])
        invariant packages == old(packages) + ParamsImports(params[..i]) + AllImports(params[..i])
      {
        var r := GenConversion(params[i]);
        if r.Unconvertible? {
          return false, slots;
        }
        slots := slots + r.slots;
        MarshalStep(params, i);
        ConvertibleStep(params, i);
        ParamsImportsStep(params, i);
        AppendAssoc(old(buf), ConvertLines(params[..i]), [CodeOf(params[i])]);
        UnionShuffle(old(packages), ParamsImports(params[..i]), AllImports(params[..i]),
                     ImportsOf(GoType(params[i])), ConversionImports(params[i]));
      }
      assert params[..|params|] == params;
      ok := true;
    }

    /** One parameter of the conversion loop: marshal it and print its
        conversion code. */
    method GenConversion(p: Param) returns (r: Marshaling)
      modifies this
      ensures r == MarshalParam(p)
      ensures r.Unconvertible? <==> !Convertible(p)
      ensures r.Marshaled? ==> r.slots == SlotsOf(p)
      ensures r.Marshaled? ==> buf == old(buf) + [CodeOf(p)]
      ensures r.Marshaled? ==> packages == old(packages) + ImportsOf(GoType(p)) + ConversionImports(p)
    {
      r := GenSyscallParams(p);
      UnconvertibleIff(p);
      if r.Marshaled? {
        PrintLine(r.code);
      }
    }

    /** The call: tier chosen from the parameter count, slots padded with
        zeros, then the `syscall` call and its status check. */
    method GenCall(methodName: string, slots: seq<string>, paramCount: nat)
      modifies this
      ensures buf == old(buf) + CallLines(methodName, SelectTier(paramCount + 1),
                                          Padded(slots, SelectTier(paramCount + 1).required))
      ensures packages == old(packages) + {SyscallImport}
    {
      var syscallFunc, numSyscallRequired := ChooseTier(paramCount + 1);
      var padded := PadSlots(slots, numSyscallRequired);
      PrintLine("hr, _, _ := syscall." + syscallFunc + "(");
      PrintLine("v.VTable()." + methodName + ",");
      PrintLine(NatToDecimal(|padded| + 1) + ",");
      PrintLine(ReceiverArg);
      ghost var head := buf;
      for j := 0 to |padded|
        invariant buf == head + ArgLines(padded[..j])
        invariant packages == old(packages)
      {
        PrintLine(padded[j] + ",");
        ArgLinesStep(padded, j);
        AppendAssoc(head, ArgLines(padded[..j]), [padded[j] + ","]);
      }
      PrintLine(")");
      PrintLine(StatusCheck);
      PrintLine("return nil" + "}");
      assert padded[..|padded|] == padded;
      AddPackage(SyscallImport);
    }

    /** `mapType`: the Go type of an IDL type name; registers the import
        the result's prefix calls for. */
    method MapType(t: string) returns (r: string)
      modifies this
      ensures r == MappedName(t)
      ensures packages == old(packages) + ImportsOf(r)
      ensures buf == old(buf)
    {
      r := t;
      if t in TypeMap {
        r := TypeMap[t];
      }
      if HasPrefix(r, "wintypes.") {
        AddPackage(WintypesImport);
      } else if HasPrefix(r, "ole.") {
        AddPackage(OleImport);
      }
    }

    /** `genParam`: the Go parameter and its `[in, out(...)]` comment. */
    method GenParam(p: Param) returns (param: string, comment: string)
      modifies this
      ensures param == ParamDecl(p)
      ensures comment == AttrComment(p.attributes)
      ensures packages == old(packages) + ImportsOf(GoType(p))
      ensures buf == old(buf)
    {
      var ptrs := "";
      var i := 0;
      while i < p.indirections
        invariant 0 <= i && (i <= p.indirections || i == 0)
        invariant ptrs == Stars(i)
        invariant buf == old(buf) && packages == old(packages)
      {
        ptrs := ptrs + "*";
        i := i + 1;
      }
      var t := MapType(p.typeName);
      param := p.name + " " + ptrs + t;
      var attrs: seq<string> := [];
      for j := 0 to |p.attributes|
        invariant attrs == AttrLabels(p.attributes[..j])
        invariant buf == old(buf) && packages == old(packages) + ImportsOf(GoType(p))
      {
        var a := p.attributes[j];
        var c := "";
        match a.kind {
          case In => c := "in";
          case Out => c := "out";
          case Other =>
        }
        if c != "" {
          if a.val != "" {
            c := c + "(" + a.val + ")";
          }
          attrs := attrs + [c];
        }
        AttrLabelsStep(p.attributes, j);
      }
      assert p.attributes[..|p.attributes|] == p.attributes;
      comment := "[" + Join(attrs, ", ") + "]";
    }

    /** `genSyscallParams`: the slots and conversion code of one parameter,
        or the fatal outcome for a non-wide type that maps to `string`. */
    method GenSyscallParams(p: Param) returns (r: Marshaling)
      modifies this
      ensures r == MarshalParam(p)
      ensures packages == old(packages) + ImportsOf(GoType(p)) + (if r.Marshaled? then r.imports else {})
      ensures buf == old(buf)
    {
      var goType := MapType(p.typeName);
      var indirections := p.indirections + CountChar(goType, '*');
      if goType == "VARIANT" && indirections == 0 {
        var prefix := p.name;
        r := Marshaled([prefix + "V0", prefix + "V1", prefix + "V2"], "", {});
      } else if goType == "bool" && indirections == 0 {
        r := Marshaled(["uintptr(" + p.name + "_bool)"], BoolConversion(p.name), {});
      } else if indirections > 0 {
        r := Marshaled(["uintptr(unsafe.Pointer(" + p.name + "))"], "", {});
      } else if goType == "string" {
        if p.typeName == "LPWSTR" || p.typeName == "LPCWSTR" {
          AddPackage(LogImport);
          r := Marshaled(["uintptr(unsafe.Pointer(&" + p.name + "_rawval[0]))"],
                         WideStringConversion(p.name), {LogImport});
        } else {
          r := Unconvertible(p.typeName);
        }
      } else {
        r := Marshaled(["uintptr(" + p.name + ")"], "", {});
      }
    }
  }
}
