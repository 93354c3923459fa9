/**
 The table-building part of `generateSchemaAndFields` in src/schema.ts: build
 one object type config per source, fold them into the subscription, mutation
 and query tables, install the `KsqlDBGraphQLError: Missing` sentinel when the
 query table is empty, and derive the resolver query table by dropping the
 sentinel again.
 */
module Assembly {
  import opened Wrappers
  import opened TypeMapping
  import opened SchemaBuilder
  import opened Capabilities

  /** The name of the sentinel query field. */
  const SentinelName: string := "KsqlDBGraphQLError"

  /** A root object type `new GraphQLObjectType({ name, fields })`. */
  datatype RootObject = RootObject(name: string, fields: Table)

  /** The three roots handed to `new GraphQLSchema(...)`. */
  datatype Schema = Schema(query: RootObject, subscription: RootObject, mutation: RootObject)

  /** The field tables handed on for resolver generation. */
  datatype ResolverFields = ResolverFields(queryFields: Table, subscriptionFields: Table, mutationFields: Table)

  datatype SchemaAndFields = SchemaAndFields(schema: Schema, fields: ResolverFields)

  /** The object type configs the `for` loop pushes: one per catalog entry, in order. */
  function Schemas(streams: seq<SourceDescription>): seq<ObjectConfig>
  {
    seq(|streams|, i requires 0 <= i < |streams| => GenerateSchemaFromKsql(streams[i]))
  }

  /** The names of the catalog entries. */
  ghost function SourceNames(streams: seq<SourceDescription>): set<string>
  {
    set i | 0 <= i < |streams| :: streams[i].name
  }

  /** The names whose first catalog entry has a write query. */
  ghost function MaterializedNames(streams: seq<SourceDescription>): set<string>
  {
    set i | 0 <= i < |streams| && IsMaterialized(streams, streams[i].name) :: streams[i].name
  }

  /** `streams[i]` is the last catalog entry of its name. */
  ghost predicate LastSource(streams: seq<SourceDescription>, i: int)
  {
    0 <= i < |streams| && forall j | i < j < |streams| :: streams[j].name != streams[i].name
  }

  /** The query table after the fallback: an empty table becomes the single sentinel field,
      so the Query root type always has a field (sections 3.2 and 3.6 of the GraphQL
      specification, June 2018); a non-empty one is kept as it is. */
  function WithSentinel(queryFields: Table): (r: Table)
    ensures |r| > 0
    ensures queryFields != map[] ==> r == queryFields
    ensures queryFields == map[] ==> r.Keys == {SentinelName} && r[SentinelName] == Missing
  {
    if |queryFields| == 0 then map[SentinelName := Missing] else queryFields
  }

  /** The resolver query table: every entry that is not the sentinel. */
  ghost function DropMissing(queryFields: Table): (r: Table)
    ensures r.Keys <= queryFields.Keys
    ensures forall k | k in r :: r[k] == queryFields[k] != Missing
    ensures forall k | k in queryFields && queryFields[k] != Missing :: k in r
  {
    map k | k in queryFields && queryFields[k] != Missing :: queryFields[k]
  }

  /** Installing the sentinel and dropping it again gives back a table that never held it:
      the resolver query table is empty when nothing is materialized and is the query table
      itself otherwise. */
  lemma {:induction false} SentinelRoundTrip(queryFields: Table)
    requires forall k | k in queryFields :: queryFields[k] != Missing
    ensures DropMissing(WithSentinel(queryFields)) == queryFields
  {
    if queryFields == map[] {
      assert DropMissing(WithSentinel(queryFields)).Keys == {};
    }
  }

  /** The configs carry the catalog's names in the catalog's order. */
  lemma {:induction false} SchemasNames(streams: seq<SourceDescription>)
    ensures |Schemas(streams)| == |streams|
    ensures forall i | 0 <= i < |streams| :: Schemas(streams)[i].name == streams[i].name
    ensures Names(Schemas(streams)) == SourceNames(streams)
    ensures MaterializedAmong(streams, Schemas(streams)) == MaterializedNames(streams)
    ensures forall i | 0 <= i < |streams| :: LastSource(streams, i) <==> LastOfName(Schemas(streams), i)
  {
    var xs := Schemas(streams);
    forall n | n in SourceNames(streams) ensures n in Names(xs) {
      var i :| 0 <= i < |streams| && streams[i].name == n;
      assert xs[i].name == n;
    }
    forall n | n in MaterializedNames(streams) ensures n in MaterializedAmong(streams, xs) {
      var i :| 0 <= i < |streams| && IsMaterialized(streams, streams[i].name) && streams[i].name == n;
      assert xs[i].name == n;
    }
  }

  /** The subscription table `schemas.reduce(generateSubscription, {})`. */
  ghost function SubscriptionFieldsOf(streams: seq<SourceDescription>): Table
  {
    Reduce(GenerateSubscription, map[], Schemas(streams))
  }

  /** The mutation table `schemas.reduce(generateMutations, {})`. */
  ghost function MutationFieldsOf(streams: seq<SourceDescription>): Table
  {
    Reduce(GenerateMutations, map[], Schemas(streams))
  }

  /** The query table before the fallback, `schemas.reduce(generateQueries(streams, subscriptionFields), {})`. */
  ghost function QueryFieldsOf(streams: seq<SourceDescription>): Table
  {
    Reduce(GenerateQueries(streams, SubscriptionFieldsOf(streams)), map[], Schemas(streams))
  }

  /** Every catalog name is subscribable; its entry is the source's own object type with its
      derived arguments, taken from the last catalog entry of the name. */
  lemma {:induction false} SubscriptionsOfCatalog(streams: seq<SourceDescription>)
    ensures SubscriptionFieldsOf(streams).Keys == SourceNames(streams)
    ensures forall i | LastSource(streams, i) ::
      SubscriptionFieldsOf(streams)[streams[i].name] == SubscriptionEntry(GenerateSchemaFromKsql(streams[i]))
    ensures forall n | n in SubscriptionFieldsOf(streams) :: SubscriptionFieldsOf(streams)[n] != Missing
  {
    var xs := Schemas(streams);
    SchemasNames(streams);
    SubscriptionTable(xs);
    forall i | LastSource(streams, i)
      ensures SubscriptionFieldsOf(streams)[streams[i].name] == SubscriptionEntry(GenerateSchemaFromKsql(streams[i]))
    {
      assert LastOfName(xs, i);
    }
  }

  /** Every catalog name accepts mutations, typed by the acknowledgement type, with the
      derived arguments of the last catalog entry of the name. */
  lemma {:induction false} MutationsOfCatalog(streams: seq<SourceDescription>)
    ensures MutationFieldsOf(streams).Keys == SourceNames(streams)
    ensures forall i | LastSource(streams, i) ::
      MutationFieldsOf(streams)[streams[i].name] == RootField(KsqlDBMutation, GenerateGraphQLArgs(GenerateSchemaFromKsql(streams[i]).fields))
  {
    var xs := Schemas(streams);
    SchemasNames(streams);
    MutationTable(xs);
    forall i | LastSource(streams, i)
      ensures MutationFieldsOf(streams)[streams[i].name] == RootField(KsqlDBMutation, GenerateGraphQLArgs(GenerateSchemaFromKsql(streams[i]).fields))
    {
      assert LastOfName(xs, i);
    }
  }

  /** The query table (before the fallback) holds exactly the materialized names, each entry
      being the subscription entry of that name. */
  lemma {:induction false} QueriesOfCatalog(streams: seq<SourceDescription>)
    ensures QueryFieldsOf(streams).Keys == MaterializedNames(streams)
    ensures forall n | n in QueryFieldsOf(streams) ::
      n in SubscriptionFieldsOf(streams) && QueryFieldsOf(streams)[n] == SubscriptionFieldsOf(streams)[n] != Missing
  {
    var xs, subs := Schemas(streams), SubscriptionFieldsOf(streams);
    SchemasNames(streams);
    SubscriptionTable(xs);
    assert subs.Keys == Names(xs);
    forall i | 0 <= i < |xs| ensures xs[i].name in subs {
      assert xs[i].name in Names(xs);
    }
    forall n | n in subs ensures subs[n] != Missing {
      assert subs[n].RootField?;
    }
    QueryTableAliases(streams, subs, xs);
    var t := Reduce(GenerateQueries(streams, subs), map[], xs);
    assert QueryFieldsOf(streams) == t;
  }

  /** `Object.keys(queryFields).filter(key => queryFields[key] !== Missing).reduce(...)`:
      copy every entry that is not the sentinel into a fresh table. */
  method ResolvableQueries(queryFields: Table) returns (resolverQueryFields: Table)
    ensures resolverQueryFields == DropMissing(queryFields)
  {
    resolverQueryFields := map[];
    var pending := queryFields.Keys;
    while pending != {}
      invariant pending <= queryFields.Keys
      invariant resolverQueryFields == DropMissing(queryFields) - pending
      decreases pending
    {
      var key :| key in pending;
      if queryFields[key] != Missing {
        resolverQueryFields := resolverQueryFields[key := queryFields[key]];
      }
      pending := pending - {key};
    }
  }

  /** `generateSchemaAndFields`, without the construction of the GraphQL objects themselves. */
  method GenerateSchemaAndFields(streams: seq<SourceDescription>) returns (r: SchemaAndFields)
    // the three roots, and the resolver tables that share their field tables
    ensures r.schema.query.name == "Query"
    ensures r.schema.subscription.name == "Subscription"
    ensures r.schema.mutation.name == "Mutation"
    ensures r.fields.subscriptionFields == r.schema.subscription.fields
    ensures r.fields.mutationFields == r.schema.mutation.fields
    // every source is subscribable, with its own type and its derived arguments
    ensures r.schema.subscription.fields.Keys == SourceNames(streams)
    ensures forall i | LastSource(streams, i) ::
      r.schema.subscription.fields[streams[i].name] == SubscriptionEntry(GenerateSchemaFromKsql(streams[i]))
    // every source accepts mutations, acknowledged by the mutation type
    ensures r.schema.mutation.fields.Keys == SourceNames(streams)
    ensures forall i | LastSource(streams, i) ::
      r.schema.mutation.fields[streams[i].name] == RootField(KsqlDBMutation, GenerateGraphQLArgs(GenerateSchemaFromKsql(streams[i]).fields))
    // the Query root is never empty
    ensures |r.schema.query.fields| > 0
    ensures MaterializedNames(streams) == {} ==>
      r.schema.query.fields == map[SentinelName := Missing] && r.fields.queryFields == map[]
    ensures MaterializedNames(streams) != {} ==>
      r.schema.query.fields.Keys == MaterializedNames(streams) && r.fields.queryFields == r.schema.query.fields
    // resolvable queries: exactly the materialized sources, each aliasing its subscription
    ensures r.fields.queryFields.Keys == MaterializedNames(streams)
    ensures forall n | n in r.fields.queryFields :: r.fields.queryFields[n] == r.fields.subscriptionFields[n]
  {
    var schemas: seq<ObjectConfig> := [];
    for i := 0 to |streams|
      invariant schemas == Schemas(streams[..i])
    {
      assert Schemas(streams[..i + 1]) == Schemas(streams[..i]) + [GenerateSchemaFromKsql(streams[i])];
      schemas := schemas + [GenerateSchemaFromKsql(streams[i])];
    }
    assert streams[..|streams|] == streams;

    var subscriptionFields := Reduce(GenerateSubscription, map[], schemas);
    var mutationFields := Reduce(GenerateMutations, map[], schemas);
    var queryFields := Reduce(GenerateQueries(streams, subscriptionFields), map[], schemas);
    assert queryFields == QueryFieldsOf(streams);
    SubscriptionsOfCatalog(streams);
    MutationsOfCatalog(streams);
    QueriesOfCatalog(streams);
    SentinelRoundTrip(queryFields);

    if |queryFields| == 0 {
      queryFields := map[SentinelName := Missing];
    }
    assert queryFields == WithSentinel(QueryFieldsOf(streams));

    var resolverQueryFields := ResolvableQueries(queryFields);

    r := SchemaAndFields(
      Schema(
        RootObject("Query", queryFields),
        RootObject("Subscription", subscriptionFields),
        RootObject("Mutation", mutationFields)),
      ResolverFields(resolverQueryFields, subscriptionFields, mutationFields));
  }

  /** The catalog of one stream `S` (an id and a list of tags, no write queries) and one
      table `T` (an id, materialized): both are subscribable and accept mutations, only
      `T` is queryable, and the tags list is an argument of `S`. */
  lemma {:induction false} StreamAndTableExample()
    ensures var id := Field("id", FieldSchema("STRING", None, Null));
      var tags := Field("tags", FieldSchema("ARRAY", Some("STRING"), Null));
      var streams := [SourceDescription("S", [id, tags], []), SourceDescription("T", [id], ["CTAS_T_0"])];
      && SourceNames(streams) == {"S", "T"}
      && MaterializedNames(streams) == {"T"}
      && GenerateSchemaFromKsql(streams[0]).fields == map["id" := Named(GraphQLString), "tags" := List(GraphQLString)]
      && GenerateGraphQLArgs(GenerateSchemaFromKsql(streams[0]).fields) == GenerateSchemaFromKsql(streams[0]).fields
  {
    var id := Field("id", FieldSchema("STRING", None, Null));
    var tags := Field("tags", FieldSchema("ARRAY", Some("STRING"), Null));
    var s := SourceDescription("S", [id, tags], []);
    var t := SourceDescription("T", [id], ["CTAS_T_0"]);
    var streams := [s, t];
    assert SourceNames(streams) == {"S", "T"} by {
      assert streams[0].name == "S" && streams[1].name == "T";
    }
    assert FindSource(streams, "S") == Some(s) by {
      assert FirstIndex(streams, "S") == Some(0);
    }
    assert FindSource(streams, "T") == Some(t) by {
      assert FirstIndex(streams[1..], "T") == Some(0);
      assert FirstIndex(streams, "T") == Some(1);
    }
    assert MaterializedNames(streams) == {"T"} by {
      assert IsMaterialized(streams, streams[1].name);
      assert !IsMaterialized(streams, streams[0].name);
    }
    assert LeafType(id) == Some(Named(GraphQLString));
    assert LeafType(tags) == Some(List(GraphQLString));
    var built := BuildFields(map[], [id, tags]);
    assert [id, tags][..1] == [id];
    assert [id][..0] == [];
    assert BuildFields(map[], [id]) == map["id" := Named(GraphQLString)];
    assert built == BuildSchemaObject(BuildFields(map[], [id]), tags);
    assert built == map["id" := Named(GraphQLString), "tags" := List(GraphQLString)];
  }
}
