/**
 The primitive-type table of src/schema.ts (`TypeMap`) and the lookup that
 `setSchemaType` performs in it: a ksqlDB kind, optionally with the kind of an
 array's members, is mapped to a GraphQL type. The table is an untyped object,
 so several lookups hand back something that is not a GraphQL type at all;
 those results are kept as `Junk` rather than dropped, because the source
 stores them.
 */
module TypeMapping {
  import opened Wrappers

  /** The GraphQL built-in scalars the model tells apart. `GraphQLInt` exists in
      the GraphQL library; nothing in the table maps to it. */
  datatype Scalar = GraphQLString | GraphQLFloat | GraphQLBoolean | GraphQLInt

  /** What can stand in the `type` slot of a field entry. */
  datatype Ty =
    | Named(scalar: Scalar)                          // a scalar type
    | List(item: Scalar)                             // new GraphQLList(scalar)
    | Object(name: string, fields: map<string, Ty>)  // new GraphQLObjectType({ name, fields })
    | Junk                                           // undefined, `{}`, or the ARRAY sub-table

  /** The values stored under the top-level keys of `TypeMap`. */
  datatype TableValue =
    | ScalarEntry(scalar: Scalar)  // STRING, VARCHAR, BIGINT, DOUBLE, INTEGER, BOOLEAN
    | ArrayTable                   // ARRAY: a second table keyed by member kind
    | StructTable                  // STRUCT: the empty object `{}`

  /** The six primitive keys, which appear both at the top level and in the ARRAY table. */
  function PrimitiveScalar(kind: string): Option<Scalar>
  {
    if kind == "STRING" || kind == "VARCHAR" then Some(GraphQLString)
    // BIGINT goes to Float: ksqlDB's 64-bit integers overflow GraphQL's 32-bit Int.
    else if kind == "BIGINT" || kind == "DOUBLE" || kind == "INTEGER" then Some(GraphQLFloat)
    else if kind == "BOOLEAN" then Some(GraphQLBoolean)
    else None
  }

  /** `TypeMap[kind]`, with `None` for a kind that is not a key (the `== null` test). */
  function TypeMap(kind: string): Option<TableValue>
  {
    if kind == "ARRAY" then Some(ArrayTable)
    else if kind == "STRUCT" then Some(StructTable)
    else match PrimitiveScalar(kind)
      case Some(s) => Some(ScalarEntry(s))
      case None => None
  }

  ghost predicate IsSupportedKind(kind: string)
  {
    kind in {"STRING", "VARCHAR", "BIGINT", "DOUBLE", "INTEGER", "BOOLEAN", "ARRAY", "STRUCT"}
  }

  /** `TypeMap[kind][member]`: only the ARRAY table has keys; indexing a scalar or `{}` gives undefined. */
  function Index(v: TableValue, member: string): Ty
  {
    match v
    case ArrayTable =>
      (match PrimitiveScalar(member)
       case Some(s) => List(s)
       case None => Junk)
    case _ => Junk
  }

  /** `TypeMap[kind]` used directly as a type. */
  function AsType(v: TableValue): Ty
  {
    match v
    case ScalarEntry(s) => Named(s)
    case _ => Junk
  }

  /** The type `setSchemaType` stores for a leaf field of this kind and member kind,
      or `None` when it stores nothing (and reports the kind as unsupported). */
  function Resolve(kind: string, memberKind: Option<string>): (r: Option<Ty>)
    ensures r.None? <==> !IsSupportedKind(kind)
    ensures r.Some? ==> !r.value.Object?
  {
    match TypeMap(kind)
    case None => None
    case Some(v) =>
      match memberKind
      case Some(m) => Some(Index(v, m))
      case None => Some(AsType(v))
  }

  /** `isInputType` of the GraphQL library (section 3.4.2 of the GraphQL
      specification, June 2018): scalars, and lists of input types, are input
      types; object types are output-only; a value that is not a GraphQL type is
      neither. */
  predicate IsInputType(t: Ty)
  {
    match t
    case Named(_) => true
    case List(_) => true
    case Object(_, _) => false
    case Junk => false
  }

  /** Is the scalar, or the element of the list, GraphQL's integer type? */
  predicate IsIntegerType(t: Ty)
  {
    (t.Named? && t.scalar == GraphQLInt) || (t.List? && t.item == GraphQLInt)
  }

  /** The primitive kinds map to the documented scalars, and only those kinds do. */
  lemma {:induction false} PrimitiveMapping(kind: string)
    ensures Resolve(kind, None) == Some(Named(GraphQLString)) <==> kind == "STRING" || kind == "VARCHAR"
    ensures Resolve(kind, None) == Some(Named(GraphQLFloat))
        <==> kind == "BIGINT" || kind == "DOUBLE" || kind == "INTEGER"
    ensures Resolve(kind, None) == Some(Named(GraphQLBoolean)) <==> kind == "BOOLEAN"
  {
  }

  /** `ARRAY` with a primitive member kind maps to the list of that member's scalar;
      with any other member kind (`STRUCT`, `ARRAY`, an unknown name) it stores Junk. */
  lemma {:induction false} ArrayMapping(member: string)
    ensures Resolve("ARRAY", Some(member)) ==
      match PrimitiveScalar(member)
      case Some(s) => Some(List(s))
      case None => Some(Junk)
    ensures PrimitiveScalar(member).Some? ==> Resolve(member, None) == Some(Named(PrimitiveScalar(member).value))
  {
  }

  /** The odd corners of the table: each is stored, as a non-type. */
  lemma {:induction false} OddCorners()
    ensures Resolve("ARRAY", None) == Some(Junk)
    ensures Resolve("STRUCT", None) == Some(Junk)
    ensures Resolve("ARRAY", Some("STRUCT")) == Some(Junk)
    ensures forall m :: Resolve("STRUCT", Some(m)) == Some(Junk)
    ensures forall k, m :: PrimitiveScalar(k).Some? ==> Resolve(k, Some(m)) == Some(Junk)
  {
  }

  /** No kind, with or without a member kind, maps to an integer type. */
  lemma {:induction false} NeverInteger(kind: string, memberKind: Option<string>)
    ensures Resolve(kind, memberKind).Some? ==> !IsIntegerType(Resolve(kind, memberKind).value)
  {
  }

  /** A type the table yields is an input type exactly when it is a real GraphQL type. */
  lemma {:induction false} ResolvedInputIffNotJunk(kind: string, memberKind: Option<string>)
    requires Resolve(kind, memberKind).Some?
    ensures IsInputType(Resolve(kind, memberKind).value) <==> Resolve(kind, memberKind).value != Junk
  {
  }
}
