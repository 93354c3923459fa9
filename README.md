# ksqldb-graphql schema core, modelled in Dafny

This project models the part of ksqldb-graphql that turns a catalog of ksqlDB
source descriptions (streams and tables, each with a name, a nested field list
and its write queries) into the GraphQL field tables the library hands to
`new GraphQLSchema(...)` and to resolver generation. Everything modelled is in
`src/schema.ts`:

- **Type mapping** (`type_map.dfy`, module `TypeMapping`). The `TypeMap` table
  maps a ksqlDB kind, with the member kind of an array when there is one, to a
  GraphQL type. `setSchemaType`'s lookup is included. The table is an untyped
  object, so some lookups return something that is not a GraphQL type at all:
  - `ARRAY` without a member kind gives the inner table;
  - `STRUCT` gives `{}`;
  - `ARRAY` of an unsupported member kind gives `undefined`.

  The source stores these values under the field name, so the model keeps them
  as `Junk` rather than dropping them.
- **Structural builder** (`schema_builder.dfy`, module `SchemaBuilder`). This is
  `setSchemaType`, `buildSchemaObject` and `generateSchemaFromKsql`: a recursive
  left fold over a field list into a name-keyed map.
  - A leaf field is written unconditionally.
  - A struct field is inserted only if its name is absent.
- **Capabilities** (`capabilities.dfy`, module `Capabilities`).
  - `generateGraqphQLArgs` keeps the input-typed fields as arguments.
  - The subscription, mutation and query reducers fold the per-source configs
    into tables keyed by source name.
  - The query reducer admits a source only when its first catalog entry has a
    write query (it is materialized).
- **Assembly** (`assembly.dfy`, module `Assembly`). This is the table-building
  part of `generateSchemaAndFields`:
  - the `for`/`push` loop over the catalog;
  - the three folds;
  - the `KsqlDBGraphQLError: Missing` sentinel when no source is materialized;
  - the resolver query table, which is the query table without the sentinel.

  The sentinel keeps the Query root type non-empty. The root must exist
  (section 3.2 of the GraphQL specification, June 2018), and an object type
  needs at least one field (section 3.6).

Each `reduce` in the source starts from a fresh `{}` that no other code sees.
Each is therefore a pure left fold (`BuildFields`, `Reduce`) defined by peeling
off the last element. `generateSchemaAndFields` is a method: it keeps the
`for` loop, the reassigned `queryFields`, and a loop for the filter-and-copy of
the resolver query table. Each loop is proved against those folds.

The model follows the code in two places where the code's behaviour may look
surprising:
- A struct field with an empty `fields` array is accepted. It becomes an object
  type with no fields.
- A leaf field silently replaces an earlier struct entry of the same name.
  Only a later struct is refused and warned about.

## Model

| member | source | states |
|---|---|---|
| TypeMapping.Resolve | src/schema.ts:37-57 | The lookup stores nothing exactly when the kind is not a key of the table. Whatever it stores is never an object type. |
| TypeMapping.PrimitiveMapping | src/schema.ts:19-25 | STRING and VARCHAR map to String; BIGINT, DOUBLE and INTEGER map to Float; BOOLEAN maps to Boolean. Each of these holds in both directions: no other kind maps there. |
| TypeMapping.ArrayMapping | src/schema.ts:26-33 | ARRAY with a primitive member kind maps to the list of that member's scalar, the same scalar the member kind maps to on its own. Any other member kind yields a non-type. |
| TypeMapping.OddCorners | src/schema.ts:34-55 | ARRAY without a member kind, STRUCT with or without one, and a primitive kind with a member kind are each stored as a non-type. |
| TypeMapping.NeverInteger | src/schema.ts:19-35 | No kind, with or without a member kind, maps to GraphQL's integer type. This covers 64-bit BIGINT. |
| TypeMapping.ResolvedInputIffNotJunk | src/schema.ts:19-57 | A stored type is an input type exactly when it is a real GraphQL type. |
| SchemaBuilder.LeafStep | src/schema.ts:37-57 | A leaf of an unsupported kind leaves the accumulator unchanged. A supported leaf ends up under its name, overwriting any earlier entry, and no other entry changes. |
| SchemaBuilder.NestedStep | src/schema.ts:59-72 | A struct whose name is absent adds exactly one key: an object type named after the field, over the build of its sub-list from `{}`. A struct whose name is present leaves the accumulator unchanged. |
| SchemaBuilder.BuildFieldsAppend | src/schema.ts:63 | Building a concatenated field list equals building the second part on top of the first. |
| SchemaBuilder.BuildFieldsKeys | src/schema.ts:59-72 | The built keys are the accumulator's keys plus the names of the fields that contribute: structs and supported leaves. |
| SchemaBuilder.BuildFieldsKeepsEntry | src/schema.ts:59-72 | An existing entry survives any field list that has no supported leaf of that name. |
| SchemaBuilder.LastLeafWins | src/schema.ts:48-55 | A supported leaf's type is the final entry under its name when no later supported leaf shares the name. This holds even over an earlier struct of that name. |
| SchemaBuilder.FirstNestedKept | src/schema.ts:64-65 | The first struct of a name that is absent so far is the final entry, as long as no later leaf overwrites it. |
| SchemaBuilder.LaterNestedDropped | src/schema.ts:64-69 | A struct whose name is already present changes nothing: building with it equals building without it. |
| SchemaBuilder.DuplicateStructsKeepFirst | src/schema.ts:64-69 | For two structs of one name, only the first one's object type is kept. |
| SchemaBuilder.BuildFieldsWellFormed | src/schema.ts:59-72 | Building on a well-formed accumulator keeps it well formed at every nesting depth. Every object type is named after the key it sits under, which is its field's name, and no integer type occurs anywhere. |
| SchemaBuilder.GenerateSchemaFromKsql | src/schema.ts:74-83 | The config carries the source's name. Its field keys are exactly the contributing fields' names, and every nested entry is well formed. |
| Capabilities.GenerateGraphQLArgs | src/schema.ts:86-92 | The arguments are a sub-map of the fields. Every argument is an unchanged field of input type. |
| Capabilities.ArgsAreScalarRestriction | src/schema.ts:86-92 | A field is an argument if and only if its type is a scalar or a list of scalars. Object types and non-types are never arguments. |
| Capabilities.FirstIndex | src/schema.ts:97 | `find` gives nothing exactly when no catalog entry has the name. Otherwise it gives the first entry of that name. |
| Capabilities.FindSource | src/schema.ts:97 | The source found is the first catalog entry of the name, and it is absent exactly when no entry has that name. |
| Capabilities.KeyedFoldKeys | src/schema.ts:115-132 | A fold whose step writes one entry under each config's name has exactly the configs' names as keys. |
| Capabilities.KeyedFoldLast | src/schema.ts:115-132 | In such a fold, the entry under a name is the one written by the last config of that name. |
| Capabilities.SubscriptionTable | src/schema.ts:114-123 | The subscription table has one key per source name. Each entry is the last config's own object type with its derived arguments, named after its key. |
| Capabilities.MutationTable | src/schema.ts:125-132 | The mutation table has one key per source name. Every entry has type `KsqlDBMutation` and the last config's derived arguments. |
| Capabilities.QueryKeys | src/schema.ts:94-112 | The query table's keys are exactly the names whose first catalog entry has a non-empty write-query list. |
| Capabilities.QueryEntry | src/schema.ts:99-108 | A query entry is the subscription entry of its name when one exists. Otherwise it is a real field config, never the sentinel. |
| Capabilities.QueryTableAliases | src/schema.ts:94-112 | When every source has a subscription entry, each query entry is that subscription entry, so the fallback branch is never taken. |
| Assembly.WithSentinel | src/schema.ts:150-158 | The Query table is never empty. An empty table becomes exactly `{KsqlDBGraphQLError: Missing}`, and a non-empty one is kept. |
| Assembly.DropMissing | src/schema.ts:174-181 | The resolver table keeps exactly the entries that are not `Missing`, unchanged. |
| Assembly.SentinelRoundTrip | src/schema.ts:150-181 | Installing the sentinel and then dropping `Missing` entries gives back any table without `Missing`. So the resolver query table is empty when nothing is materialized, and otherwise equals the query table. |
| Assembly.SchemasNames | src/schema.ts:139-142 | The pushed configs follow the catalog's order and names. Their names, materialized names and last-of-name positions are the catalog's. |
| Assembly.SubscriptionsOfCatalog | src/schema.ts:144 | Every catalog name is subscribable, with the entry built from the catalog's last entry of that name. No entry is the sentinel. |
| Assembly.MutationsOfCatalog | src/schema.ts:145 | Every catalog name accepts mutations. Its entry is the acknowledgement type with the last entry's derived arguments. |
| Assembly.QueriesOfCatalog | src/schema.ts:147 | The query table holds exactly the materialized catalog names, each aliasing its subscription entry. |
| Assembly.ResolvableQueries | src/schema.ts:174-181 | The filter-and-copy loop produces exactly the query table without its `Missing` entries. |
| Assembly.GenerateSchemaAndFields | src/schema.ts:133-186 | The roots are named Query, Subscription and Mutation, and the resolver subscription and mutation tables are the schema's. Subscriptions and mutations cover every source name with the last entry's configs. Query is never empty and falls back to the sentinel exactly when nothing is materialized. The resolver query table is exactly the materialized names, each entry equal to the subscription entry. |
| Assembly.StreamAndTableExample | src/schema.ts:133-147 | For a stream with an id and a string list and a materialized table: both names are sources, only the table is materialized, and the stream's fields (id as String, tags as a list of String) are all arguments. |

## Left out

- `schemas` (src/schema.ts:188-208) is not part of this model. It fetches streams and tables from the ksqlDB client over the network, filters them, and logs and swallows errors.
- `buildKsqlDBGraphQL` (src/schema.ts:210-242) is not part of this model. It is Promise plumbing, `printSchema` output, and the resolver generator of `src/resolvers`, which this model does not include.
- The graphql library is not modelled:
  - `GraphQLObjectType` and `GraphQLSchema` construction and validation, including type-name uniqueness, are outside the model. Type objects are values (`Object`, `SourceObject`), so the object identity of the types built at src/schema.ts:65, 96 and 116 is not captured.
  - `isInputType` is modelled as a predicate that holds exactly for scalars and lists of scalars (section 3.4.2 of the GraphQL specification, June 2018).
- `Missing` and `KsqlDBMutation` come from `src/graphQLObjectTypes`, which is not part of this model. They are opaque distinct constants.
- `console.error` and `console.warn` diagnostics (unsupported kind, duplicate struct, no materialized views) are output only, with no effect on the tables. They are left out.
- Capabilities.GenerateSubscription, Capabilities.GenerateMutations, Capabilities.GenerateQueries and SchemaBuilder.BuildSchemaObject: the in-place writes to the accumulator are modelled as new map values. Each fold starts from a fresh `{}` that nothing else holds, so no caller can observe the difference. The aliasing between query and subscription entries is stated as equality of values.
- Field names and kinds that are JavaScript prototype keys (`constructor`, `toString`, `__proto__`) hit inherited properties of the source's plain objects. The model treats them like any other string.
- A `fields` slot that is neither null nor an array is silently ignored by the source (src/schema.ts:62). The model's field schema has no such value.
- The source types `query` in the reducers as `any`. The model accepts only configs built by `generateSchemaFromKsql`, which is the only way `generateSchemaAndFields` calls them.
