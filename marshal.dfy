/** How one method's parameters become the word-sized arguments of a
    `syscall.Syscall*` call (backend/generator.go:155-178, 236-262): the case
    analysis of `genSyscallParams`, the accumulation of its slots over a
    parameter list, the choice of `Syscall`/`Syscall6`/`Syscall9` and the
    padding of the slot list with `"0"`. */
module Marshal {
  import opened Ast
  import opened Text
  import opened TypeMapping

  /** What `genSyscallParams` produces for a parameter: the call slots, the
      conversion code printed before the call and the imports it registers
      besides the mapped type's own; or the fatal "cannot convert string to
      original type" outcome, which carries the offending IDL type name. */
  datatype Marshaling =
    | Marshaled(slots: seq<string>, code: string, imports: set<string>)
    | Unconvertible(typeName: string)

  /** The Go type of a parameter. */
  function GoType(p: Param): string {
    MappedName(p.typeName)
  }

  /** Declared indirection plus the `*`s in the mapped Go type. */
  function TotalIndirection(p: Param): int {
    p.indirections + CountChar(GoType(p), '*')
  }

  /** The `var x_bool int` conversion a boolean parameter needs. */
  function BoolConversion(name: string): string {
    "var " + name + "_bool int\n" + "if " + name + " == true { " + name + "_bool = 1 }"
  }

  /** The UTF-16 conversion a wide-string parameter needs. */
  function WideStringConversion(name: string): string {
    name + "_rawval, " + name + "_err := utf16Encoder.Bytes([]byte(" + name + "))\n"
    + "if " + name + "_err != nil { log.Fatalln(\"unable to utf-16 encode:\", " + name + "_err) }\n"
  }

  /** The case analysis of `genSyscallParams`, first matching case wins:
      a VARIANT value, a bool value, anything reached through a pointer, a
      wide string, any other type that maps to `string` (fatal), and a plain
      scalar. */
  function MarshalParam(p: Param): Marshaling {
    var goType := GoType(p);
    var indirections := TotalIndirection(p);
    if goType == "VARIANT" && indirections == 0 then
      Marshaled([p.name + "V0", p.name + "V1", p.name + "V2"], "", {})
    else if goType == "bool" && indirections == 0 then
      Marshaled(["uintptr(" + p.name + "_bool)"], BoolConversion(p.name), {})
    else if indirections > 0 then
      Marshaled(["uintptr(unsafe.Pointer(" + p.name + "))"], "", {})
    else if goType == "string" then
      if p.typeName == "LPWSTR" || p.typeName == "LPCWSTR" then
        Marshaled(["uintptr(unsafe.Pointer(&" + p.name + "_rawval[0]))"],
                  WideStringConversion(p.name), {LogImport})
      else
        Unconvertible(p.typeName)
    else
      Marshaled(["uintptr(" + p.name + ")"], "", {})
  }

  /** A VARIANT passed by value, the one case that takes three slots. */
  predicate IsVariantValue(p: Param) {
    p.typeName == "VARIANT" && p.indirections == 0
  }

  /** VARIANT is not in the table, and no name maps to it but itself. */
  lemma VariantIsNotMapped()
    ensures "VARIANT" !in TypeMap
    ensures forall t :: t in TypeMap ==> TypeMap[t] != "VARIANT"
  {
    assert "VARIANT" !in TypeMap by {
      KeysListed();
    }
    forall t | t in TypeMap
      ensures TypeMap[t] != "VARIANT"
    {
      ValueShape(t);
      assert "VARIANT"[0] !in ValueStarts;
    }
  }

  /** A parameter that marshals takes three slots when it is a VARIANT
      passed by value and exactly one slot otherwise. */
  lemma SlotCount(p: Param)
    requires MarshalParam(p).Marshaled?
    ensures |MarshalParam(p).slots| == if IsVariantValue(p) then 3 else 1
  {
    VariantIsNotMapped();
    if GoType(p) == "VARIANT" {
      assert '*' !in "VARIANT";
      assert CountChar(GoType(p), '*') == 0;
    }
  }

  /** The only fatal case: the IDL type is literally `string` and it is not
      reached through a pointer. The wide-string aliases always marshal. */
  lemma UnconvertibleIff(p: Param)
    ensures MarshalParam(p).Unconvertible? <==> p.typeName == "string" && p.indirections <= 0
  {
    MapsToString(p.typeName);
    var goType := GoType(p);
    if goType == "string" {
      assert '*' !in "string";
      assert TotalIndirection(p) == p.indirections;
      assert goType != "VARIANT" && goType != "bool";
    } else {
      assert p.typeName != "string";
    }
  }

  /** A VARIANT by value takes three slots named after the parameter, with
      no conversion code and no extra import. */
  lemma VariantParam(p: Param)
    requires IsVariantValue(p)
    ensures MarshalParam(p) == Marshaled([p.name + "V0", p.name + "V1", p.name + "V2"], "", {})
  {
    VariantIsNotMapped();
    assert '*' !in "VARIANT";
  }

  /** Any other parameter passed by value that does not map to `string`
      passes its value as one word. */
  lemma ScalarParam(p: Param)
    requires GoType(p) !in {"VARIANT", "bool", "string"} && TotalIndirection(p) <= 0
    ensures MarshalParam(p) == Marshaled(["uintptr(" + p.name + ")"], "", {})
  {
  }

  /** A boolean by value (`BOOL` or `bool`) takes one slot holding the 0/1
      local that the conversion code sets, never the raw boolean. */
  lemma BoolParam(p: Param)
    requires p.typeName in {"BOOL", "bool"} && p.indirections == 0
    ensures MarshalParam(p) == Marshaled(["uintptr(" + p.name + "_bool)"], BoolConversion(p.name), {})
  {
    if p.typeName == "bool" && "bool" in TypeMap {
      KeyShape("bool");
    }
    assert GoType(p) == "bool";
    assert '*' !in "bool";
  }

  /** Anything reached through a pointer, including the two table entries
      whose Go type is itself a pointer, takes one address slot. */
  lemma PointerParam(p: Param)
    requires p.indirections > 0 || (p.indirections == 0 && p.typeName in {"UINT_PTR", "REFGUID"})
    ensures MarshalParam(p) == Marshaled(["uintptr(unsafe.Pointer(" + p.name + "))"], "", {})
  {
    if p.indirections == 0 {
      assert GoType(p)[0] == '*';
    }
    assert TotalIndirection(p) > 0;
  }

  /** A wide string by value takes one slot, the address of its UTF-16
      buffer, and needs the `log` import for the conversion code. */
  lemma WideStringParam(p: Param)
    requires p.typeName in {"LPWSTR", "LPCWSTR"} && p.indirections <= 0
    ensures MarshalParam(p).Marshaled?
    ensures MarshalParam(p).slots == ["uintptr(unsafe.Pointer(&" + p.name + "_rawval[0]))"]
    ensures MarshalParam(p).imports == {LogImport}
  {
    assert GoType(p) == "string";
    assert '*' !in "string";
  }

  /** A parameter `genSyscallParams` can handle: anything but the IDL type
      `string` by value. */
  predicate Convertible(p: Param) {
    !(p.typeName == "string" && p.indirections <= 0)
  }

  predicate AllConvertible(params: seq<Param>) {
    forall i :: 0 <= i < |params| ==> Convertible(params[i])
  }

  /** One parameter's slots, conversion code and extra imports; nothing
      for a parameter that cannot be marshaled. */
  function SlotsOf(p: Param): seq<string> {
    match MarshalParam(p)
    case Marshaled(slots, _, _) => slots
    case Unconvertible(_) => []
  }

  function CodeOf(p: Param): string {
    match MarshalParam(p)
    case Marshaled(_, code, _) => code
    case Unconvertible(_) => ""
  }

  function ConversionImports(p: Param): set<string> {
    match MarshalParam(p)
    case Marshaled(_, _, imports) => imports
    case Unconvertible(_) => {}
  }

  /** The flattened slot list of a parameter list, in parameter order. */
  function AllSlots(params: seq<Param>): seq<string> {
    if params == [] then [] else AllSlots(params[..|params| - 1]) + SlotsOf(params[|params| - 1])
  }

  /** The extra imports the parameters' conversions register. */
  function AllImports(params: seq<Param>): set<string> {
    if params == [] then {} else AllImports(params[..|params| - 1]) + ConversionImports(params[|params| - 1])
  }

  /** The conversion code of each parameter, in parameter order. */
  function ConvertLines(params: seq<Param>): seq<string> {
    if params == [] then [] else ConvertLines(params[..|params| - 1]) + [CodeOf(params[|params| - 1])]
  }

  /** The number of VARIANT-by-value parameters. */
  function VariantCount(params: seq<Param>): nat {
    if params == [] then 0
    else VariantCount(params[..|params| - 1]) + (if IsVariantValue(params[|params| - 1]) then 1 else 0)
  }

  /** The flattened slot list of convertible parameters has one entry per
      parameter plus two more for each VARIANT by value. */
  lemma {:induction false} AllSlotsCount(params: seq<Param>)
    requires AllConvertible(params)
    ensures |AllSlots(params)| == |params| + 2 * VariantCount(params)
  {
    if params != [] {
      var init, last := params[..|params| - 1], params[|params| - 1];
      assert forall i :: 0 <= i < |init| ==> init[i] == params[i];
      AllSlotsCount(init);
      UnconvertibleIff(last);
      SlotCount(last);
    }
  }

  /** Conversions only ever add the `log` import. */
  lemma {:induction false} AllImportsLogOnly(params: seq<Param>)
    ensures AllImports(params) <= {LogImport}
  {
    if params != [] {
      AllImportsLogOnly(params[..|params| - 1]);
    }
  }

  /** Marshaling one more parameter extends the slot list, the imports and
      the conversion lines by that parameter's own. */
  lemma MarshalStep(params: seq<Param>, i: nat)
    requires i < |params|
    ensures AllSlots(params[..i + 1]) == AllSlots(params[..i]) + SlotsOf(params[i])
    ensures AllImports(params[..i + 1]) == AllImports(params[..i]) + ConversionImports(params[i])
    ensures ConvertLines(params[..i + 1]) == ConvertLines(params[..i]) + [CodeOf(params[i])]
  {
    assert params[..i + 1][..i] == params[..i];
  }

  /** One more convertible parameter keeps the prefix convertible. */
  lemma ConvertibleStep(params: seq<Param>, i: nat)
    requires i < |params| && AllConvertible(params[..i]) && Convertible(params[i])
    ensures AllConvertible(params[..i + 1])
  {
    var ps := params[..i + 1];
    forall j | 0 <= j < |ps|
      ensures Convertible(ps[j])
    {
      if j < i {
        assert ps[j] == params[..i][j];
      }
    }
  }

  /** The call entry point and the argument count it is written for. */
  datatype Tier = Tier(func: string, required: nat)

  /** The tier chosen for a call counted as `count` words
      (`len(m.Params) + 1`): Syscall up to 3, Syscall6 up to 6, Syscall9 up
      to 9, and, with no error, Syscall again above 9. */
  function SelectTier(count: int): Tier {
    if count <= 3 then Tier("Syscall", 3)
    else if count <= 6 then Tier("Syscall6", 6)
    else if count <= 9 then Tier("Syscall9", 9)
    else Tier("Syscall", 3)
  }

  /** The if-chain of backend/generator.go:160-170 that picks the entry
      point and its argument count from the call's word count. */
  method ChooseTier(numSyscallParams: int) returns (syscallFunc: string, numSyscallRequired: nat)
    ensures Tier(syscallFunc, numSyscallRequired) == SelectTier(numSyscallParams)
  {
    syscallFunc := "Syscall";
    numSyscallRequired := 3;
    if numSyscallParams <= 3 {
    } else if numSyscallParams <= 6 {
      syscallFunc := "Syscall6";
      numSyscallRequired := 6;
    } else if numSyscallParams <= 9 {
      syscallFunc := "Syscall9";
      numSyscallRequired := 9;
    }
  }

  predicate IsTierSize(k: int) {
    k == 3 || k == 6 || k == 9
  }

  /** Up to 9 the chosen tier is the smallest of 3, 6 and 9 that holds the
      count, and its entry point is the one written for that size; above 9
      the choice falls back to Syscall and 3. */
  lemma TierIsSmallest(count: int)
    ensures count <= 9 ==>
      && IsTierSize(SelectTier(count).required)
      && count <= SelectTier(count).required
      && forall k :: IsTierSize(k) && count <= k ==> SelectTier(count).required <= k
    ensures count > 9 ==> SelectTier(count) == Tier("Syscall", 3)
    ensures SelectTier(count).func ==
      match SelectTier(count).required
      case 3 => "Syscall"
      case 6 => "Syscall6"
      case _ => "Syscall9"
  {
  }

  /** The slot list padded with `"0"` up to `required - 1` entries. */
  function Padded(slots: seq<string>, required: nat): seq<string> {
    if |slots| < required - 1 then slots + seq(required - 1 - |slots|, _ => "0") else slots
  }

  /** Padding keeps the slots as a prefix, never truncates, and only adds
      `"0"` entries up to `required - 1`. */
  lemma PaddedShape(slots: seq<string>, required: nat)
    ensures |Padded(slots, required)| == if |slots| < required - 1 then required - 1 else |slots|
    ensures Padded(slots, required)[..|slots|] == slots
    ensures forall j :: |slots| <= j < |Padded(slots, required)| ==> Padded(slots, required)[j] == "0"
  {
  }

  /** The padding loop of backend/generator.go:172-174. */
  method PadSlots(slots: seq<string>, required: nat) returns (padded: seq<string>)
    ensures padded == Padded(slots, required)
  {
    padded := slots;
    var i := |slots|;
    while i < required - 1
      invariant |padded| == i
      invariant |slots| <= i
      invariant i <= required - 1 || i == |slots|
      invariant padded == slots + seq(i - |slots|, _ => "0")
    {
      padded := padded + ["0"];
      i := i + 1;
    }
  }

  /** When every parameter takes one slot and there are at most eight, the
      padded argument count (slots plus the receiver) is exactly the size of
      the chosen tier. */
  lemma {:induction false} ArgCountFitsTier(params: seq<Param>)
    requires AllConvertible(params)
    requires VariantCount(params) == 0 && |params| + 1 <= 9
    ensures |Padded(AllSlots(params), SelectTier(|params| + 1).required)| + 1
            == SelectTier(|params| + 1).required
  {
    AllSlotsCount(params);
  }

  /** The tier is chosen from the parameter count, not the slot count: one
      VARIANT by value chooses Syscall with 3 arguments but is called with 4. */
  lemma VariantOverflowsTier(name: string)
    ensures var params := [Param([], "VARIANT", 0, name)];
      && AllConvertible(params)
      && SelectTier(|params| + 1) == Tier("Syscall", 3)
      && |Padded(AllSlots(params), 3)| + 1 == 4
  {
    var params := [Param([], "VARIANT", 0, name)];
    VariantIsNotMapped();
    assert '*' !in "VARIANT";
    assert params[..0] == [];
  }

  /** Nine or more parameters raise no error: the call stays on Syscall with
      3 arguments while more than 3 are passed. */
  lemma {:induction false} NoTierAboveNine(params: seq<Param>)
    requires AllConvertible(params) && |params| >= 9
    ensures SelectTier(|params| + 1) == Tier("Syscall", 3)
    ensures |Padded(AllSlots(params), 3)| + 1 > 3
  {
    AllSlotsCount(params);
  }

  /** The slots of a two-parameter list: the first's, then the second's. */
  lemma TwoParamSlots(p0: Param, p1: Param)
    ensures AllSlots([p0, p1]) == SlotsOf(p0) + SlotsOf(p1)
  {
    var ps, s0, s1 := [p0, p1], SlotsOf(p0), SlotsOf(p1);
    assert ps[..1] == [p0] && ps[..1][..0] == [];
    assert AllSlots(ps[..1]) == [] + s0;
    assert [] + s0 == s0;
    assert AllSlots(ps) == AllSlots(ps[..1]) + s1;
  }

  /** A method `(flag bool, count T*)`: the boolean goes through its 0/1
      local and the pointer by address, in that order. */
  lemma BoolAndPointerMethod(flag: Param, count: Param)
    requires flag.typeName in {"BOOL", "bool"} && flag.indirections == 0
    requires count.indirections > 0
    ensures AllConvertible([flag, count])
    ensures AllSlots([flag, count]) == ["uintptr(" + flag.name + "_bool)", "uintptr(unsafe.Pointer(" + count.name + "))"]
  {
    TwoParamSlots(flag, count);
    BoolParam(flag);
    PointerParam(count);
  }
}
