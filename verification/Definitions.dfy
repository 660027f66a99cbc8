/** The tables engine.New builds from the definitions, and what validated definitions guarantee about them. */
module Definitions {
  import opened Wrappers
  import opened Lists
  import opened Spec
  import opened ChannelCodec

  const PUBLIC_PREFIX := "public."

  datatype WatchRef = WatchRef(queryName: string, watch: Watch)

  datatype Config = Config(queries: map<string, QueryDef>, watches: map<string, seq<WatchRef>>)

  function QualifiedTable(table: string): string { PUBLIC_PREFIX + table }

  function DefOf(query: Query): QueryDef { QueryDef(query.name, query.sql, ParamCountOf(query.sql)) }

  function AddWatch(watches: map<string, seq<WatchRef>>, name: string, watch: Watch): map<string, seq<WatchRef>> {
    var table := QualifiedTable(watch.table);
    watches[table := (if table in watches then watches[table] else []) + [WatchRef(name, watch)]]
  }

  function AddWatches(
    watches: map<string, seq<WatchRef>>, name: string, added: seq<Watch>): map<string, seq<WatchRef>>
  {
    if added == [] then watches
    else AddWatch(AddWatches(watches, name, added[..|added| - 1]), name, added[|added| - 1])
  }

  function AddQuery(config: Config, query: Query): Config {
    Config(config.queries[query.name := DefOf(query)], AddWatches(config.watches, query.name, query.watches))
  }

  function ConfigOf(definitions: seq<Query>): Config {
    if definitions == [] then Config(map[], map[])
    else AddQuery(ConfigOf(definitions[..|definitions| - 1]), definitions[|definitions| - 1])
  }

  /** What LoadConfig accepts: every query validates and no name is declared twice. */
  ghost predicate ValidDefinitions(definitions: seq<Query>) {
    && (forall i | 0 <= i < |definitions| :: Validate(definitions[i]).None?)
    && (forall i, j | 0 <= i < j < |definitions| :: definitions[i].name != definitions[j].name)
  }

  ghost predicate RefFits(queries: map<string, QueryDef>, table: string, ref: WatchRef) {
    && ref.queryName in queries
    && WatchFits(ref.watch, queries[ref.queryName].arity)
    && table == QualifiedTable(ref.watch.table)
  }

  ghost predicate WellFormed(config: Config) {
    && NamedQueries(config.queries)
    && (forall t | t in config.watches :: |config.watches[t]| > 0)
    && (forall t, i | t in config.watches && 0 <= i < |config.watches[t]| ::
          RefFits(config.queries, t, config.watches[t][i]))
  }

  lemma {:induction false} AddWatchesWellFormed(config: Config, name: string, added: seq<Watch>)
    requires WellFormed(config) && name in config.queries
    requires forall k | 0 <= k < |added| :: WatchFits(added[k], config.queries[name].arity)
    ensures WellFormed(Config(config.queries, AddWatches(config.watches, name, added)))
  {
    if added == [] {
    } else {
      AddWatchesWellFormed(config, name, added[..|added| - 1]);
    }
  }

  /** A new name leaves the queries the existing watches refer to as they are. */
  lemma NamesInPrefix(definitions: seq<Query>, name: string)
    ensures name in ConfigOf(definitions).queries ==> exists i :: 0 <= i < |definitions| && definitions[i].name == name
  {
    if definitions != [] {
      NamesInPrefix(definitions[..|definitions| - 1], name);
    }
  }

  lemma AddQueryWellFormed(config: Config, query: Query)
    requires WellFormed(config) && Validate(query).None? && query.name !in config.queries
    ensures WellFormed(AddQuery(config, query))
  {
    var named := config.(queries := config.queries[query.name := DefOf(query)]);
    ValidatedWatchesFit(query);
    forall t, i | t in config.watches && 0 <= i < |config.watches[t]|
      ensures RefFits(named.queries, t, config.watches[t][i])
    {
      assert RefFits(config.queries, t, config.watches[t][i]);
    }
    assert WellFormed(named);
    AddWatchesWellFormed(named, query.name, query.watches);
  }

  lemma FirstDefinitions(definitions: seq<Query>, n: nat)
    requires ValidDefinitions(definitions) && n < |definitions|
    ensures ValidDefinitions(definitions[..n]) && definitions[n].name !in ConfigOf(definitions[..n]).queries
  {
    NamesInPrefix(definitions[..n], definitions[n].name);
  }

  /** Validated definitions with distinct names build well-formed tables. */
  lemma {:induction false} ValidDefinitionsAreWellFormed(definitions: seq<Query>)
    requires ValidDefinitions(definitions)
    ensures WellFormed(ConfigOf(definitions))
  {
    if definitions == [] {
    } else {
      var n := |definitions| - 1;
      FirstDefinitions(definitions, n);
      ValidDefinitionsAreWellFormed(definitions[..n]);
      AddQueryWellFormed(ConfigOf(definitions[..n]), definitions[n]);
    }
  }

  // ----- what the tables hold

  ghost predicate HasRef(watches: map<string, seq<WatchRef>>, table: string, ref: WatchRef) {
    table in watches && ref in watches[table]
  }

  lemma AddWatchRefs(watches: map<string, seq<WatchRef>>, name: string, watch: Watch, table: string, ref: WatchRef)
    ensures HasRef(AddWatch(watches, name, watch), table, ref) <==>
      HasRef(watches, table, ref) || (table == QualifiedTable(watch.table) && ref == WatchRef(name, watch))
  {
  }

  lemma {:induction false} AddWatchesRefs(
    watches: map<string, seq<WatchRef>>, name: string, added: seq<Watch>, table: string, ref: WatchRef)
    ensures HasRef(AddWatches(watches, name, added), table, ref) <==>
      HasRef(watches, table, ref)
      || (ref.queryName == name && table == QualifiedTable(ref.watch.table) && ref.watch in added)
  {
    if added == [] {
    } else {
      var n := |added| - 1;
      AddWatchesRefs(watches, name, added[..n], table, ref);
      AddWatchRefs(AddWatches(watches, name, added[..n]), name, added[n], table, ref);
      assert added == added[..n] + [added[n]];
    }
  }

  /** The watch table holds exactly the declared watches, each under its query's name and its qualified table. */
  lemma {:induction false} RefsAreDeclared(definitions: seq<Query>, table: string, ref: WatchRef)
    ensures HasRef(ConfigOf(definitions).watches, table, ref) <==>
      exists i :: 0 <= i < |definitions| && ref.queryName == definitions[i].name
                  && ref.watch in definitions[i].watches && table == QualifiedTable(ref.watch.table)
  {
    if definitions == [] {
    } else {
      var n := |definitions| - 1;
      RefsAreDeclared(definitions[..n], table, ref);
      AddWatchesRefs(ConfigOf(definitions[..n]).watches, definitions[n].name, definitions[n].watches, table, ref);
      assert forall i | 0 <= i < n :: definitions[..n][i] == definitions[i];
    }
  }

  /** The query table holds each declared query under its name. */
  lemma {:induction false} QueriesAreDeclared(definitions: seq<Query>, i: nat)
    requires ValidDefinitions(definitions) && i < |definitions|
    ensures definitions[i].name in ConfigOf(definitions).queries
    ensures ConfigOf(definitions).queries[definitions[i].name] == DefOf(definitions[i])
  {
    var n := |definitions| - 1;
    if i == n {
    } else {
      QueriesAreDeclared(definitions[..n], i);
    }
  }

  // ----- the tables to publish

  function BareTable(table: string): string {
    if HasPrefix(table, PUBLIC_PREFIX) then table[|PUBLIC_PREFIX|..] else table
  }

  lemma BareOfQualified(table: string)
    ensures BareTable(QualifiedTable(table)) == table
  {
    assert QualifiedTable(table)[..|PUBLIC_PREFIX|] == PUBLIC_PREFIX;
  }

  /** Every key of the watch table is a qualified name, so two keys never share a bare name. */
  lemma BareTableInjective(config: Config, s: string, t: string)
    requires WellFormed(config) && s in config.watches && t in config.watches
    requires BareTable(s) == BareTable(t)
    ensures s == t
  {
    assert RefFits(config.queries, s, config.watches[s][0]) && RefFits(config.queries, t, config.watches[t][0]);
    BareOfQualified(config.watches[s][0].watch.table);
    BareOfQualified(config.watches[t][0].watch.table);
  }

  /** Each bare name of a table in `keys`, once. */
  ghost predicate BareNames(names: seq<string>, keys: set<string>) {
    && NoDuplicates(names)
    && forall name :: name in names <==> exists t :: t in keys && BareTable(t) == name
  }

  lemma AddBareName(config: Config, names: seq<string>, keys: set<string>, table: string)
    requires WellFormed(config)
    requires keys <= config.watches.Keys && table in config.watches && table !in keys
    requires BareNames(names, keys)
    ensures BareNames(names + [BareTable(table)], keys + {table})
  {
    var bare := BareTable(table);
    if bare in names {
      var t :| t in keys && BareTable(t) == bare;
      BareTableInjective(config, t, table);
    }
    forall name ensures name in names + [bare] <==> exists t :: t in keys + {table} && BareTable(t) == name {
      if name in names {
        var t :| t in keys && BareTable(t) == name;
        assert t in keys + {table};
      } else if name == bare {
        assert table in keys + {table};
      }
    }
  }

  /** The bare watched table names, each once, sorted. */
  method WatchedTables(config: Config) returns (tables: seq<string>)
    requires WellFormed(config)
    ensures Sorted(tables) && NoDuplicates(tables)
    ensures forall name :: name in tables <==> QualifiedTable(name) in config.watches
    ensures forall name | name in tables :: ValidIdentifier(name)
  {
    var names: seq<string> := [];
    var rest := config.watches.Keys;
    ghost var done := {};
    while rest != {}
      invariant done + rest == config.watches.Keys && done !! rest
      invariant BareNames(names, done)
      decreases rest
    {
      var table :| table in rest;
      AddBareName(config, names, done, table);
      names := names + [BareTable(table)];
      rest := rest - {table};
      done := done + {table};
    }
    AreWatched(config, names);
    tables := Sort(names);
    SameElements(tables, names);
    assert forall name :: name in tables <==> name in ToSet(tables);
  }

  lemma AreWatched(config: Config, names: seq<string>)
    requires WellFormed(config) && BareNames(names, config.watches.Keys)
    ensures forall name :: name in names <==> QualifiedTable(name) in config.watches
    ensures forall name | name in names :: ValidIdentifier(name)
  {
    forall name ensures name in names <==> QualifiedTable(name) in config.watches {
      BareOfQualified(name);
      if name in names {
        var t :| t in config.watches.Keys && BareTable(t) == name;
        assert RefFits(config.queries, t, config.watches[t][0]);
        BareOfQualified(config.watches[t][0].watch.table);
      }
    }
    forall name | name in names ensures ValidIdentifier(name) {
      BareOfQualified(name);
      var ref := config.watches[QualifiedTable(name)][0];
      assert RefFits(config.queries, QualifiedTable(name), ref);
      BareOfQualified(ref.watch.table);
    }
  }
}
