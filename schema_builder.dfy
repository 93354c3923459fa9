/**
 The structural builder of src/schema.ts: `setSchemaType`, `buildSchemaObject`
 and `generateSchemaFromKsql` turn a ksqlDB source's nested field list into a
 map from field name to GraphQL type. Each `reduce` over a field list starts
 from a fresh `{}` that nothing else can see, so the in-place writes to the
 accumulator are modelled as map values threaded through a left fold.
 */
module SchemaBuilder {
  import opened Wrappers
  import opened TypeMapping

  /** The `fields` slot of a field's schema: absent (`null`) or an array of sub-fields. */
  datatype SubFields = Null | Array(items: seq<Field>)

  /** A ksqlDB field schema: its kind, the kind of its members (arrays) and its sub-fields (structs). */
  datatype FieldSchema = FieldSchema(kind: string, memberKind: Option<string>, fields: SubFields)

  datatype Field = Field(name: string, schema: FieldSchema)

  /** One stream or table of the ksqlDB catalog; only the length of `writeQueries` matters here. */
  datatype SourceDescription = SourceDescription(name: string, fields: seq<Field>, writeQueries: seq<string>)

  /** The field map the builder produces: `KSqlDBEntities`, each entry `{ type }`. */
  type Entities = map<string, Ty>

  /** A `GraphQLObjectTypeConfig`: a type name and its field map. */
  datatype ObjectConfig = ObjectConfig(name: string, fields: Entities)

  /** The type a leaf field resolves to, or `None` when its kind is not in the table. */
  function LeafType(f: Field): Option<Ty>
  {
    Resolve(f.schema.kind, f.schema.memberKind)
  }

  /** A leaf the builder writes: no sub-fields and a kind the table knows. */
  predicate IsStoredLeaf(f: Field)
  {
    f.schema.fields.Null? && LeafType(f).Some?
  }

  /** Does this field put (or try to put) an entry under its name? */
  predicate Contributes(f: Field)
  {
    f.schema.fields.Array? || IsStoredLeaf(f)
  }

  /** The names of the fields of `fs` that put an entry into the accumulator. */
  ghost function ContributedNames(fs: seq<Field>): set<string>
  {
    set i | 0 <= i < |fs| && Contributes(fs[i]) :: fs[i].name
  }

  /** No stored leaf of `fs` is named `k`: nothing in `fs` can overwrite an entry under `k`. */
  ghost predicate NoLeafNamed(fs: seq<Field>, k: string)
  {
    forall i | 0 <= i < |fs| :: !(IsStoredLeaf(fs[i]) && fs[i].name == k)
  }

  /** `setSchemaType`: an unsupported kind leaves the accumulator as it is; otherwise the
      resolved type is written under the field's name, overwriting what was there. */
  function SetSchemaType(accum: Entities, field: Field): Entities
  {
    match LeafType(field)
    case None => accum
    case Some(t) => accum[field.name := t]
  }

  /** `buildSchemaObject`: a leaf goes through `setSchemaType`; a struct builds its own
      sub-list from `{}` and is inserted as an object type named after the field, but
      only when no entry exists under that name (otherwise the first entry is kept). */
  function BuildSchemaObject(accum: Entities, field: Field): Entities
    decreases field, 1
  {
    match field.schema.fields
    case Null => SetSchemaType(accum, field)
    case Array(children) =>
      var nested := BuildFields(map[], children);
      if field.name in accum then accum else accum[field.name := Object(field.name, nested)]
  }

  /** `fields.reduce(buildSchemaObject, accum)`: a left fold, written by peeling off the last field. */
  function BuildFields(accum: Entities, fields: seq<Field>): Entities
    decreases fields, 0
  {
    if fields == [] then accum
    else BuildSchemaObject(BuildFields(accum, fields[..|fields| - 1]), fields[|fields| - 1])
  }

  /** `generateSchemaFromKsql`: the object type config of one source. */
  function GenerateSchemaFromKsql(source: SourceDescription): (r: ObjectConfig)
    ensures r.name == source.name
    ensures r.fields.Keys == ContributedNames(source.fields)
    ensures EntriesWellFormed(r.fields)
  {
    BuildFieldsKeys(map[], source.fields);
    BuildFieldsWellFormed(map[], source.fields);
    ObjectConfig(source.name, BuildFields(map[], source.fields))
  }

  // ---------------------------------------------------------------------------
  // Single steps
  // ---------------------------------------------------------------------------

  /** A leaf with an unsupported kind adds nothing; a supported one ends up under its
      name whatever was there before, and no other entry changes. */
  lemma {:induction false} LeafStep(accum: Entities, f: Field)
    requires f.schema.fields.Null?
    ensures LeafType(f).None? ==> BuildSchemaObject(accum, f) == accum
    ensures LeafType(f).Some? ==>
      var r := BuildSchemaObject(accum, f);
      && r.Keys == accum.Keys + {f.name}
      && r[f.name] == LeafType(f).value
      && forall k | k in accum && k != f.name :: r[k] == accum[k]
  {
  }

  /** Insert-if-absent for a struct field: an absent name gains exactly one new key, an
      object type named after the field over the build of its sub-list; a present name
      leaves the accumulator unchanged. */
  lemma {:induction false} NestedStep(accum: Entities, f: Field)
    requires f.schema.fields.Array?
    ensures f.name in accum ==> BuildSchemaObject(accum, f) == accum
    ensures f.name !in accum ==>
      var r := BuildSchemaObject(accum, f);
      && r.Keys == accum.Keys + {f.name}
      && |r| == |accum| + 1
      && r[f.name] == Object(f.name, BuildFields(map[], f.schema.fields.items))
      && forall k | k in accum :: r[k] == accum[k]
  {
  }

  // ---------------------------------------------------------------------------
  // Whole field lists
  // ---------------------------------------------------------------------------

  /** Folding over a concatenation is folding over each part in turn. */
  lemma {:induction false} BuildFieldsAppend(accum: Entities, a: seq<Field>, b: seq<Field>)
    ensures BuildFields(accum, a + b) == BuildFields(BuildFields(accum, a), b)
    decreases |b|
  {
    if b == [] {
      assert a + b == a;
    } else {
      assert (a + b)[..|a + b| - 1] == a + b[..|b| - 1];
      assert (a + b)[|a + b| - 1] == b[|b| - 1];
      BuildFieldsAppend(accum, a, b[..|b| - 1]);
    }
  }

  /** The keys after a build are the keys before it plus the name of every field that
      contributes: nothing is ever removed, unsupported leaves add nothing. */
  lemma {:induction false} BuildFieldsKeys(accum: Entities, fields: seq<Field>)
    ensures BuildFields(accum, fields).Keys == accum.Keys + ContributedNames(fields)
    decreases |fields|
  {
    if fields != [] {
      var init, last := fields[..|fields| - 1], fields[|fields| - 1];
      BuildFieldsKeys(accum, init);
      assert ContributedNames(fields) == ContributedNames(init) + (if Contributes(last) then {last.name} else {}) by {
        forall n | n in ContributedNames(fields)
          ensures n in ContributedNames(init) + (if Contributes(last) then {last.name} else {})
        {
          var i :| 0 <= i < |fields| && Contributes(fields[i]) && fields[i].name == n;
          if i < |init| {
            assert init[i] == fields[i];
          }
        }
        forall n | n in ContributedNames(init)
          ensures n in ContributedNames(fields)
        {
          var i :| 0 <= i < |init| && Contributes(init[i]) && init[i].name == n;
          assert fields[i] == init[i];
        }
        if Contributes(last) {
          assert fields[|fields| - 1] == last;
        }
      }
    }
  }

  /** An entry present before the build survives it unchanged unless a stored leaf of
      the same name follows: later structs of that name are dropped. */
  lemma {:induction false} BuildFieldsKeepsEntry(accum: Entities, fields: seq<Field>, k: string)
    requires k in accum
    requires NoLeafNamed(fields, k)
    ensures k in BuildFields(accum, fields) && BuildFields(accum, fields)[k] == accum[k]
    decreases |fields|
  {
    if fields != [] {
      var init, last := fields[..|fields| - 1], fields[|fields| - 1];
      assert NoLeafNamed(init, k) by {
        forall i | 0 <= i < |init| ensures !(IsStoredLeaf(init[i]) && init[i].name == k) {
          assert init[i] == fields[i];
        }
      }
      BuildFieldsKeepsEntry(accum, init, k);
      assert !(IsStoredLeaf(last) && last.name == k);
    }
  }

  /** Last leaf wins: a stored leaf that no later stored leaf of the same name follows
      determines the entry under its name, whatever came before it. */
  lemma {:induction false} LastLeafWins(accum: Entities, pre: seq<Field>, f: Field, post: seq<Field>)
    requires IsStoredLeaf(f)
    requires NoLeafNamed(post, f.name)
    ensures f.name in BuildFields(accum, pre + [f] + post)
    ensures BuildFields(accum, pre + [f] + post)[f.name] == LeafType(f).value
  {
    BuildFieldsAppend(accum, pre + [f], post);
    BuildFieldsAppend(accum, pre, [f]);
    assert [f][..0] == [];
    BuildFieldsKeepsEntry(BuildFields(accum, pre + [f]), post, f.name);
  }

  /** The first struct of a name that reaches the accumulator stays there, as an object type
      named after the field over its own sub-list, unless a later stored leaf overwrites it. */
  lemma {:induction false} FirstNestedKept(accum: Entities, pre: seq<Field>, f: Field, post: seq<Field>)
    requires f.schema.fields.Array?
    requires f.name !in BuildFields(accum, pre)
    requires NoLeafNamed(post, f.name)
    ensures f.name in BuildFields(accum, pre + [f] + post)
    ensures BuildFields(accum, pre + [f] + post)[f.name] == Object(f.name, BuildFields(map[], f.schema.fields.items))
  {
    BuildFieldsAppend(accum, pre + [f], post);
    BuildFieldsAppend(accum, pre, [f]);
    assert [f][..0] == [];
    BuildFieldsKeepsEntry(BuildFields(accum, pre + [f]), post, f.name);
  }

  /** A struct whose name is already taken changes nothing: the build with it equals the
      build without it (the "already exists" warning path). */
  lemma {:induction false} LaterNestedDropped(accum: Entities, pre: seq<Field>, f: Field, post: seq<Field>)
    requires f.schema.fields.Array?
    requires f.name in BuildFields(accum, pre)
    ensures BuildFields(accum, pre + [f] + post) == BuildFields(accum, pre + post)
  {
    BuildFieldsAppend(accum, pre + [f], post);
    BuildFieldsAppend(accum, pre, [f]);
    BuildFieldsAppend(accum, pre, post);
    assert [f][..0] == [];
  }

  /** Two sibling structs of one name, with no other field of that name: one entry, the first. */
  lemma {:induction false} DuplicateStructsKeepFirst(f: Field, g: Field)
    requires f.schema.fields.Array? && g.schema.fields.Array? && f.name == g.name
    ensures BuildFields(map[], [f, g]) == map[f.name := Object(f.name, BuildFields(map[], f.schema.fields.items))]
  {
    assert [f, g][..1] == [f];
    assert [f][..0] == [];
    var first := BuildFields(map[], [f]);
    assert BuildFields(map[], [f][..0]) == map[];
    assert first == BuildSchemaObject(map[], f);
    assert f.name in first;
    assert BuildFields(map[], [f, g]) == BuildSchemaObject(first, g);
  }

  // ---------------------------------------------------------------------------
  // Shape of what is built, at every depth
  // ---------------------------------------------------------------------------

  /** An entry is well formed under key `k` when an object type there is named `k` and the
      entry is not an integer type. */
  predicate EntryOk(k: string, t: Ty)
  {
    (t.Object? ==> t.name == k) && !IsIntegerType(t)
  }

  /** Every object type nested in `t` is named after the key it sits under, and no integer
      type occurs anywhere in it. */
  predicate WellFormed(t: Ty)
  {
    match t
    case Object(_, fs) => forall k | k in fs :: EntryOk(k, fs[k]) && WellFormed(fs[k])
    case _ => !IsIntegerType(t)
  }

  predicate EntriesWellFormed(m: Entities)
  {
    forall k | k in m :: EntryOk(k, m[k]) && WellFormed(m[k])
  }

  /** One step keeps a well-formed accumulator well formed. */
  lemma {:induction false} BuildSchemaObjectWellFormed(accum: Entities, field: Field)
    requires EntriesWellFormed(accum)
    ensures EntriesWellFormed(BuildSchemaObject(accum, field))
    decreases field, 1
  {
    match field.schema.fields
    case Null =>
      NeverInteger(field.schema.kind, field.schema.memberKind);
    case Array(children) =>
      BuildFieldsWellFormed(map[], children);
  }

  /** A build keeps a well-formed accumulator well formed: nested object types are named
      after their originating field at every depth, and nothing is an integer type. */
  lemma {:induction false} BuildFieldsWellFormed(accum: Entities, fields: seq<Field>)
    requires EntriesWellFormed(accum)
    ensures EntriesWellFormed(BuildFields(accum, fields))
    decreases fields, 0
  {
    if fields != [] {
      BuildFieldsWellFormed(accum, fields[..|fields| - 1]);
      BuildSchemaObjectWellFormed(BuildFields(accum, fields[..|fields| - 1]), fields[|fields| - 1]);
    }
  }
}
