/** The parsed IDL nodes the code generator reads (ast/ast.go). Only the
    fields the generator looks at are kept; the parser builds these values
    once and the generator never changes them. */
module Ast {

  /** The token kind of a parameter attribute. Only `in` and `out` change
      what the generator writes; every other attribute kind is `Other`. */
  datatype TokenType = In | Out | Other

  /** `[in]`, `[out]`, `[out(retval)]`, ... on a parameter: the attribute's
      kind and its optional argument (empty when there is none). */
  datatype ParamAttr = ParamAttr(val: string, kind: TokenType)

  /** A method parameter: attributes, declared IDL type name, number of `*`
      written after the type (a Go `int`, so it may in principle be
      negative), and the parameter's name. */
  datatype Param = Param(
    attributes: seq<ParamAttr>,
    typeName: string,
    indirections: int,
    name: string)

  /** A method of an interface, with its parameters in declaration order. */
  datatype Method = Method(name: string, params: seq<Param>)

  /** An interface: its name, its parent's name ("" when none is written)
      and its methods in vtable order. */
  datatype Interface = Interface(name: string, parentName: string, methods: seq<Method>)

  /** One enumerator: its name and its literal value ("" when none is given). */
  datatype EnumValue = EnumValue(name: string, val: string)

  datatype Enum = Enum(name: string, values: seq<EnumValue>)

  /** `typedef <typeName> <name>;` */
  datatype Typedef = Typedef(name: string, typeName: string)

  /** A struct field; its indirection count is read by the parser but
      ignored by the generator. */
  datatype StructField = StructField(typeName: string, name: string, indirections: int)

  datatype Struct = Struct(name: string, fields: seq<StructField>)
}
