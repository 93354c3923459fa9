/**
 The capability classifier of src/schema.ts: `generateGraqphQLArgs`,
 `generateSubscription`, `generateMutations` and `generateQueries` fold the
 list of built object type configs into the subscription, mutation and query
 field tables, each keyed by source name.
 */
module Capabilities {
  import opened Wrappers
  import opened TypeMapping
  import opened SchemaBuilder

  /** The type of a root field: a source's own object type, or the shared mutation
      acknowledgement type `KsqlDBMutation` (an opaque constant of the library's caller). */
  datatype RootType = SourceObject(name: string, fields: Entities) | KsqlDBMutation

  /** A root field config `{ type, args }`, or the opaque sentinel config `Missing`. */
  datatype RootField = RootField(ty: RootType, args: Entities) | Missing

  /** A field table of a root type, keyed by field (source) name. */
  type Table = map<string, RootField>

  /** `generateGraqphQLArgs`: the fields usable as arguments, those whose type is an input type. */
  function GenerateGraphQLArgs(fields: Entities): (args: Entities)
    ensures args.Keys <= fields.Keys
    ensures forall k | k in args :: args[k] == fields[k] && IsInputType(args[k])
  {
    map k | k in fields && IsInputType(fields[k]) :: fields[k]
  }

  /** The arguments are exactly the scalar and list-of-scalar fields, unchanged: object
      types and non-types are never arguments, and no input-typed field is lost. */
  lemma {:induction false} ArgsAreScalarRestriction(fields: Entities)
    ensures forall k :: k in GenerateGraphQLArgs(fields) <==> k in fields && (fields[k].Named? || fields[k].List?)
    ensures forall k | k in GenerateGraphQLArgs(fields) :: !fields[k].Object? && fields[k] != Junk
  {
  }

  /** The subscription entry of one source: its own object type with its derived arguments. */
  function SubscriptionEntry(query: ObjectConfig): RootField
  {
    RootField(SourceObject(query.name, query.fields), GenerateGraphQLArgs(query.fields))
  }

  /** The mutation entry of one source: the acknowledgement type with the source's derived arguments. */
  function MutationEntry(query: ObjectConfig): RootField
  {
    RootField(KsqlDBMutation, GenerateGraphQLArgs(query.fields))
  }

  /** `generateSubscription`: every source is subscribable. */
  function GenerateSubscription(accum: Table, query: ObjectConfig): Table
  {
    accum[query.name := SubscriptionEntry(query)]
  }

  /** `generateMutations`: every source accepts mutations. */
  function GenerateMutations(accum: Table, query: ObjectConfig): Table
  {
    accum[query.name := MutationEntry(query)]
  }

  /** The position of the first catalog entry named `name`, if any. */
  function FirstIndex(streams: seq<SourceDescription>, name: string): (r: Option<nat>)
    ensures r.None? <==> forall i | 0 <= i < |streams| :: streams[i].name != name
    ensures r.Some? ==> FirstNamed(streams, name, r.value)
  {
    if streams == [] then None
    else if streams[0].name == name then Some(0)
    else
      match FirstIndex(streams[1..], name)
      case None =>
        assert forall i | 1 <= i < |streams| :: streams[i] == streams[1..][i - 1];
        None
      case Some(i) => Some(i + 1)
  }

  /** `streams.find(stream => stream.name === name)`: the first catalog entry of that name. */
  function FindSource(streams: seq<SourceDescription>, name: string): (r: Option<SourceDescription>)
    ensures r.None? <==> forall i | 0 <= i < |streams| :: streams[i].name != name
    ensures r.Some? ==> exists i | 0 <= i < |streams| :: FirstNamed(streams, name, i) && streams[i] == r.value
  {
    match FirstIndex(streams, name)
    case None => None
    case Some(i) => Some(streams[i])
  }

  /** `i` is the position of the first catalog entry named `name`. */
  ghost predicate FirstNamed(streams: seq<SourceDescription>, name: string, i: int)
  {
    0 <= i < |streams| && streams[i].name == name && forall j | 0 <= j < i :: streams[j].name != name
  }

  /** A source is materialized (queryable) when the first catalog entry of its name has a
      write query. */
  predicate IsMaterialized(streams: seq<SourceDescription>, name: string)
  {
    var found := FindSource(streams, name);
    found.Some? && |found.value.writeQueries| > 0
  }

  /** The reducer built by `generateQueries(streams, subscriptionFields)`: a materialized
      source gets the subscription entry of its name when there is one, else its own
      object type with its derived arguments; any other source is skipped. */
  function GenerateQueries(streams: seq<SourceDescription>, subscriptionFields: Table): (Table, ObjectConfig) -> Table
  {
    (accum: Table, query: ObjectConfig) =>
      if IsMaterialized(streams, query.name) then
        accum[query.name :=
          if query.name in subscriptionFields then subscriptionFields[query.name]
          else SubscriptionEntry(query)]
      else accum
  }

  /** `xs.reduce(step, accum)`: a left fold, written by peeling off the last element. */
  function Reduce(step: (Table, ObjectConfig) -> Table, accum: Table, xs: seq<ObjectConfig>): Table
    decreases |xs|
  {
    if xs == [] then accum else step(Reduce(step, accum, xs[..|xs| - 1]), xs[|xs| - 1])
  }

  /** The names of a list of configs. */
  ghost function Names(xs: seq<ObjectConfig>): set<string>
  {
    set i | 0 <= i < |xs| :: xs[i].name
  }

  /** `xs[i]` is the last config of its name. */
  ghost predicate LastOfName(xs: seq<ObjectConfig>, i: int)
  {
    0 <= i < |xs| && forall j | i < j < |xs| :: xs[j].name != xs[i].name
  }

  /** Every name of `xs` has a last config. */
  lemma {:induction false} LastOfNameExists(xs: seq<ObjectConfig>, n: string)
    requires n in Names(xs)
    ensures exists i :: LastOfName(xs, i) && xs[i].name == n
    decreases |xs|
  {
    var last := |xs| - 1;
    if xs[last].name == n {
      assert LastOfName(xs, last);
    } else {
      var init := xs[..last];
      assert n in Names(init) by {
        var k :| 0 <= k < |xs| && xs[k].name == n;
        assert init[k] == xs[k];
      }
      LastOfNameExists(init, n);
      var i :| LastOfName(init, i) && init[i].name == n;
      assert xs[i] == init[i];
      assert LastOfName(xs, i);
    }
  }

  /** The names of `xs` are those of all but its last config, and that of its last. */
  lemma {:induction false} NamesSnoc(xs: seq<ObjectConfig>)
    requires xs != []
    ensures Names(xs) == Names(xs[..|xs| - 1]) + {xs[|xs| - 1].name}
  {
    var init := xs[..|xs| - 1];
    forall n | n in Names(xs) ensures n in Names(init) + {xs[|xs| - 1].name} {
      var i :| 0 <= i < |xs| && xs[i].name == n;
      if i < |init| { assert init[i] == xs[i]; }
    }
    forall n | n in Names(init) ensures n in Names(xs) {
      var i :| 0 <= i < |init| && init[i].name == n;
      assert xs[i] == init[i];
    }
  }

  /** A fold whose every step writes `entry(query)` under the query's name yields a table keyed
      by exactly the names of `xs`. */
  lemma {:induction false} KeyedFoldKeys(step: (Table, ObjectConfig) -> Table, entry: ObjectConfig -> RootField, xs: seq<ObjectConfig>)
    requires forall accum, query :: step(accum, query) == accum[query.name := entry(query)]
    ensures Reduce(step, map[], xs).Keys == Names(xs)
    decreases |xs|
  {
    if xs != [] {
      KeyedFoldKeys(step, entry, xs[..|xs| - 1]);
      NamesSnoc(xs);
    }
  }

  /** In such a fold the last config of a name decides the entry under that name. */
  lemma {:induction false} KeyedFoldLast(step: (Table, ObjectConfig) -> Table, entry: ObjectConfig -> RootField, xs: seq<ObjectConfig>, i: nat)
    requires forall accum, query :: step(accum, query) == accum[query.name := entry(query)]
    requires LastOfName(xs, i)
    ensures xs[i].name in Reduce(step, map[], xs)
    ensures Reduce(step, map[], xs)[xs[i].name] == entry(xs[i])
    decreases |xs|
  {
    var init, last := xs[..|xs| - 1], xs[|xs| - 1];
    if i < |init| {
      assert init[i] == xs[i];
      assert last.name != xs[i].name;
      KeyedFoldLast(step, entry, init, i);
    }
  }

  /** The subscription table has one entry per source name: that of the last config of the
      name, its own object type with its derived arguments. */
  lemma {:induction false} SubscriptionTable(xs: seq<ObjectConfig>)
    ensures Reduce(GenerateSubscription, map[], xs).Keys == Names(xs)
    ensures forall i | LastOfName(xs, i) :: Reduce(GenerateSubscription, map[], xs)[xs[i].name] == SubscriptionEntry(xs[i])
    ensures forall n | n in Reduce(GenerateSubscription, map[], xs) ::
      var e := Reduce(GenerateSubscription, map[], xs)[n]; e.RootField? && e.ty.SourceObject? && e.ty.name == n
  {
    KeyedFoldKeys(GenerateSubscription, SubscriptionEntry, xs);
    forall i | LastOfName(xs, i) ensures Reduce(GenerateSubscription, map[], xs)[xs[i].name] == SubscriptionEntry(xs[i]) {
      KeyedFoldLast(GenerateSubscription, SubscriptionEntry, xs, i);
    }
    forall n | n in Reduce(GenerateSubscription, map[], xs)
      ensures var e := Reduce(GenerateSubscription, map[], xs)[n]; e.RootField? && e.ty.SourceObject? && e.ty.name == n
    {
      LastOfNameExists(xs, n);
      var i :| LastOfName(xs, i) && xs[i].name == n;
      KeyedFoldLast(GenerateSubscription, SubscriptionEntry, xs, i);
    }
  }

  /** The mutation table has one entry per source name, always of the acknowledgement type,
      with the derived arguments of the last config of the name. */
  lemma {:induction false} MutationTable(xs: seq<ObjectConfig>)
    ensures Reduce(GenerateMutations, map[], xs).Keys == Names(xs)
    ensures forall i | LastOfName(xs, i) :: Reduce(GenerateMutations, map[], xs)[xs[i].name] == RootField(KsqlDBMutation, GenerateGraphQLArgs(xs[i].fields))
    ensures forall n | n in Reduce(GenerateMutations, map[], xs) :: Reduce(GenerateMutations, map[], xs)[n].RootField? && Reduce(GenerateMutations, map[], xs)[n].ty == KsqlDBMutation
  {
    KeyedFoldKeys(GenerateMutations, MutationEntry, xs);
    forall i | LastOfName(xs, i) ensures Reduce(GenerateMutations, map[], xs)[xs[i].name] == RootField(KsqlDBMutation, GenerateGraphQLArgs(xs[i].fields)) {
      KeyedFoldLast(GenerateMutations, MutationEntry, xs, i);
    }
    forall n | n in Reduce(GenerateMutations, map[], xs)
      ensures Reduce(GenerateMutations, map[], xs)[n].RootField? && Reduce(GenerateMutations, map[], xs)[n].ty == KsqlDBMutation
    {
      LastOfNameExists(xs, n);
      var i :| LastOfName(xs, i) && xs[i].name == n;
      KeyedFoldLast(GenerateMutations, MutationEntry, xs, i);
    }
  }

  /** The names among `xs` that are materialized in the catalog. */
  ghost function MaterializedAmong(streams: seq<SourceDescription>, xs: seq<ObjectConfig>): set<string>
  {
    set i | 0 <= i < |xs| && IsMaterialized(streams, xs[i].name) :: xs[i].name
  }

  /** The materialized names among `xs` are those among all but its last config, and the
      last config's name when it is materialized. */
  lemma {:induction false} MaterializedAmongSnoc(streams: seq<SourceDescription>, xs: seq<ObjectConfig>)
    requires xs != []
    ensures MaterializedAmong(streams, xs) == MaterializedAmong(streams, xs[..|xs| - 1])
      + (if IsMaterialized(streams, xs[|xs| - 1].name) then {xs[|xs| - 1].name} else {})
  {
    var init, last := xs[..|xs| - 1], xs[|xs| - 1];
    var extra := if IsMaterialized(streams, last.name) then {last.name} else {};
    forall n | n in MaterializedAmong(streams, xs) ensures n in MaterializedAmong(streams, init) + extra {
      var i :| 0 <= i < |xs| && IsMaterialized(streams, xs[i].name) && xs[i].name == n;
      if i < |init| { assert init[i] == xs[i]; }
    }
    forall n | n in MaterializedAmong(streams, init) ensures n in MaterializedAmong(streams, xs) {
      var i :| 0 <= i < |init| && IsMaterialized(streams, init[i].name) && init[i].name == n;
      assert xs[i] == init[i];
    }
  }

  /** The query table holds exactly the materialized names among the configs. */
  lemma {:induction false} QueryKeys(streams: seq<SourceDescription>, subscriptionFields: Table, xs: seq<ObjectConfig>)
    ensures Reduce(GenerateQueries(streams, subscriptionFields), map[], xs).Keys == MaterializedAmong(streams, xs)
    decreases |xs|
  {
    if xs != [] {
      QueryKeys(streams, subscriptionFields, xs[..|xs| - 1]);
      MaterializedAmongSnoc(streams, xs);
    }
  }

  /** A query entry is the subscription entry of its name whenever that exists, and a real
      field config (never the sentinel) otherwise. */
  lemma {:induction false} QueryEntry(streams: seq<SourceDescription>, subscriptionFields: Table, xs: seq<ObjectConfig>, n: string)
    requires n in Reduce(GenerateQueries(streams, subscriptionFields), map[], xs)
    ensures n in subscriptionFields ==> Reduce(GenerateQueries(streams, subscriptionFields), map[], xs)[n] == subscriptionFields[n]
    ensures n !in subscriptionFields ==> Reduce(GenerateQueries(streams, subscriptionFields), map[], xs)[n].RootField?
    decreases |xs|
  {
    var init, last := xs[..|xs| - 1], xs[|xs| - 1];
    var before := Reduce(GenerateQueries(streams, subscriptionFields), map[], init);
    if !(IsMaterialized(streams, last.name) && last.name == n) {
      QueryEntry(streams, subscriptionFields, init, n);
    }
  }

  /** When every source has a subscription entry, the query table aliases it: each query entry
      is the subscription entry of the same name, so the fallback branch is never taken. */
  lemma {:induction false} QueryTableAliases(streams: seq<SourceDescription>, subscriptionFields: Table, xs: seq<ObjectConfig>)
    requires forall i | 0 <= i < |xs| :: xs[i].name in subscriptionFields
    requires forall n | n in subscriptionFields :: subscriptionFields[n] != Missing
    ensures Reduce(GenerateQueries(streams, subscriptionFields), map[], xs).Keys == MaterializedAmong(streams, xs)
    ensures forall n | n in Reduce(GenerateQueries(streams, subscriptionFields), map[], xs) ::
      Reduce(GenerateQueries(streams, subscriptionFields), map[], xs)[n] == subscriptionFields[n] != Missing
  {
    QueryKeys(streams, subscriptionFields, xs);
    var t := Reduce(GenerateQueries(streams, subscriptionFields), map[], xs);
    forall n | n in t ensures n in subscriptionFields && t[n] == subscriptionFields[n] {
      var i :| 0 <= i < |xs| && IsMaterialized(streams, xs[i].name) && xs[i].name == n;
      QueryEntry(streams, subscriptionFields, xs, n);
    }
  }
}
