/** The fixed IDL-to-Go synonym table and the pure half of `mapType`
    (backend/generator.go:18-37, 194-205): which Go type a name becomes and
    which import that Go type needs. The half that records the import in the
    generator is `Backend.Generator.MapType`. */
module TypeMapping {
  import opened Text

  /** `typeMap`: IDL platform aliases and their Go spelling. */
  const TypeMap: map<string, string> := map[
    "LONG" := "int32",
    "DWORD" := "uint32",
    "ULONG" := "uint32",
    "BYTE" := "byte",
    "LPWSTR" := "string",
    "LPCWSTR" := "string",
    "GUID" := "ole.GUID",
    "UINT_PTR" := "*int32",
    "BOOL" := "bool",
    "REFGUID" := "*ole.GUID",
    "HWND" := "wintypes.HWND",
    "HBITMAP" := "wintypes.HBITMAP",
    "REFPROPERTYKEY" := "wintypes.PROPERTYKEY",
    "PROPVARIANT" := "uintptr"
  ]

  /** The table's keys, listed. */
  const TypeMapKeys: set<string> := {"LONG", "DWORD", "ULONG", "BYTE", "LPWSTR", "LPCWSTR",
    "GUID", "UINT_PTR", "BOOL", "REFGUID", "HWND", "HBITMAP", "REFPROPERTYKEY", "PROPVARIANT"}

  lemma KeysListed()
    ensures TypeMap.Keys == TypeMapKeys
  {
  }

  /** `olePackageStruct`: parent interfaces that live in the go-ole package. */
  const OlePackageStruct: set<string> := {"IUnknown"}

  /** The import lines the generator can register. */
  const OleImport := "ole \"github.com/go-ole/go-ole\""
  const WintypesImport := "\"github.com/jd3nn1s/gomidl/wintypes\""
  const UnsafeImport := "\"unsafe\""
  const SyscallImport := "\"syscall\""
  const LogImport := "\"log\""

  const KnownImports: set<string> :=
    {OleImport, WintypesImport, UnsafeImport, SyscallImport, LogImport}

  /** The Go type an IDL type name becomes: the table's entry for a key,
      the name itself otherwise (it is taken to be a user-declared type). */
  function MappedName(t: string): string {
    if t in TypeMap then TypeMap[t] else t
  }

  /** The import a Go type needs, judged from its spelling alone: a
      `wintypes.` prefix needs wintypes, an `ole.` prefix needs go-ole, and
      nothing else (so `*ole.GUID` needs nothing). */
  function ImportsOf(goType: string): (r: set<string>)
    ensures r <= {WintypesImport, OleImport} && |r| <= 1
    ensures WintypesImport in r <==> HasPrefix(goType, "wintypes.")
    ensures OleImport in r <==> HasPrefix(goType, "ole.")
  {
    if HasPrefix(goType, "wintypes.") then
      FirstCharDecides(goType, "ole.");
      {WintypesImport}
    else if HasPrefix(goType, "ole.") then {OleImport}
    else {}
  }

  /** A text whose first character differs from a prefix's does not start
      with it. */
  lemma FirstCharDecides(s: string, p: string)
    requires |p| > 0 && |s| > 0 && s[0] != p[0]
    ensures !HasPrefix(s, p)
  {
    if |p| <= |s| {
      assert s[..|p|][0] == s[0];
    }
  }

  /** No value of the table is one of its keys, so mapping a mapped name
      again changes nothing. */
  lemma MapTypeIdempotent(t: string)
    ensures MappedName(MappedName(t)) == MappedName(t)
  {
    if t in TypeMap {
      var v := TypeMap[t];
      ValueShape(t);
      if v in TypeMap {
        KeyShape(v);
      }
    }
  }

  /** The first characters of the table's values. */
  const ValueStarts: set<char> := {'i', 'u', 'b', 's', 'o', '*', 'w'}

  /** Every key is a non-empty upper-case name. */
  lemma KeyShape(k: string)
    requires k in TypeMap
    ensures |k| > 0 && 'A' <= k[0] <= 'Z' && k[0] !in ValueStarts
  {
    assert k in TypeMapKeys by {
      assert k in TypeMap.Keys;
      KeysListed();
    }
  }

  /** Every value starts with one of a few lower-case letters or `*`. */
  lemma ValueShape(k: string)
    requires k in TypeMap
    ensures |TypeMap[k]| > 0 && TypeMap[k][0] in ValueStarts
  {
    assert k in TypeMap.Keys;
    KeysListed();
  }

  /** The imports a table key brings in: wintypes for exactly the three
      window-system aliases, go-ole for exactly GUID, nothing for the rest
      (REFGUID maps to `*ole.GUID`, whose prefix is `*`). */
  lemma TableImports(t: string)
    requires t in TypeMap
    ensures ImportsOf(MappedName(t)) == {WintypesImport} <==> t in {"HWND", "HBITMAP", "REFPROPERTYKEY"}
    ensures ImportsOf(MappedName(t)) == {OleImport} <==> t == "GUID"
    ensures ImportsOf(MappedName(t)) == {} <==> t !in {"HWND", "HBITMAP", "REFPROPERTYKEY", "GUID"}
  {
    var g := MappedName(t);
    assert t in TypeMap.Keys;
    KeysListed();
    if t == "GUID" {
      assert g == "ole.GUID" && g[..4] == "ole.";
    } else if t == "HWND" {
      assert g[..9] == "wintypes.";
    } else if t == "HBITMAP" {
      assert g[..9] == "wintypes.";
    } else if t == "REFPROPERTYKEY" {
      assert g[..9] == "wintypes.";
    } else if t == "REFGUID" {
      FirstCharDecides(g, "ole.");
      FirstCharDecides(g, "wintypes.");
    } else {
      assert g in {"int32", "uint32", "byte", "string", "*int32", "bool", "uintptr"};
      FirstCharDecides(g, "ole.");
      FirstCharDecides(g, "wintypes.");
    }
  }

  /** Exactly three names map to Go's `string`: the two wide-string aliases
      and `string` itself. */
  lemma MapsToString(t: string)
    ensures MappedName(t) == "string" <==> t in {"LPWSTR", "LPCWSTR", "string"}
  {
    if t in TypeMap {
      KeysListed();
    }
  }
}
