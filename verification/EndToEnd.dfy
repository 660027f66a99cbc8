/**
 * From a committed row change to the published doc, for the tables built from definitions. DeclaredWatches says that
 * validated definitions build well-formed tables that hold every declared watch.
 */
module EndToEnd {
  import opened Wrappers
  import opened Spec
  import opened Values
  import opened ChannelCodec
  import opened Definitions
  import opened EventMapping
  import opened EngineCore
  import opened Protocol
  import opened ProtocolInvariants
  import opened Guarantees
  import opened Convergence
  import opened Freshness
  import opened Staleness
  import opened System

  /** A state some run over these tables reaches. */
  ghost predicate AgentState(config: Config, s: State) { WellFormed(config) && Reachable(RulesOf(config), s) }

  /** A running one with nothing left to do. */
  ghost predicate SettledState(config: Config, s: State) {
    AgentState(config, s) && s.running && Stuck(RulesOf(config), s)
  }

  /** Change `i` of the history is a transaction and the event one of its row changes. */
  ghost predicate IsEvent(config: Config, s: State, i: nat, event: Event) {
    && WellFormed(config) && i < |s.history|
    && exists events :: event in events && s.history[i].ops == CommitOps(config, events)
  }

  /** Query `name` watches the event's table with `watch`. */
  ghost predicate Watches(config: Config, name: string, watch: Watch, event: Event) {
    WellFormed(config) && HasRef(config.watches, event.table, WatchRef(name, watch))
  }

  /** Validated definitions build well-formed tables, in which every declared watch watches its table. */
  lemma DeclaredWatches(definitions: seq<Query>, query: Query, watch: Watch, event: Event)
    requires ValidDefinitions(definitions) && query in definitions && watch in query.watches
    requires event.table == QualifiedTable(watch.table)
    ensures Watches(ConfigOf(definitions), query.name, watch, event)
    ensures
      query.name in ConfigOf(definitions).queries && ConfigOf(definitions).queries[query.name] == DefOf(query)
  {
    ValidDefinitionsAreWellFormed(definitions);
    var d :| 0 <= d < |definitions| && definitions[d] == query;
    QueriesAreDeclared(definitions, d);
    RefsAreDeclared(definitions, event.table, WatchRef(query.name, watch));
  }

  lemma WatchedQuery(config: Config, name: string, watch: Watch, event: Event)
    requires Watches(config, name, watch, event)
    ensures RefFits(config.queries, event.table, WatchRef(name, watch)) && config.queries[name].name == name
  {
    var refs := config.watches[event.table];
    var k :| 0 <= k < |refs| && refs[k] == WatchRef(name, watch);
    assert RefFits(config.queries, event.table, refs[k]);
  }

  /** What a watch asks for is among the ops of the transaction. */
  lemma WatchOps(config: Config, s: State, i: nat, name: string, watch: Watch, event: Event, op: Op) returns (j: nat)
    requires IsEvent(config, s, i, event) && Watches(config, name, watch, event) && name in config.queries
    requires op in RefOps(config.queries, WatchRef(name, watch), event)
    ensures j < |s.history[i].ops| && s.history[i].ops[j] == op
  {
    var refs := RefsOf(config, event.table);
    var k :| 0 <= k < |refs| && refs[k] == WatchRef(name, watch);
    assert forall m | 0 <= m < |refs| :: RefFits(config.queries, event.table, refs[m]);
    WatchAsks(config.queries, refs, event, op, k);
    var events :| event in events && s.history[i].ops == CommitOps(config, events);
    EventOpInCommit(config, events, event, op);
    j :| 0 <= j < |s.history[i].ops| && s.history[i].ops[j] == op;
  }

  // ----- column watches

  lemma CarriedEventMarks(
    config: Config, s: State, i: nat, name: string, watch: Watch, event: Event, values: seq<string>)
    returns (j: nat)
    requires IsEvent(config, s, i, event)
    requires Watches(config, name, watch, event) && HasColumns(watch) && Carries(event, watch.columns, values)
    ensures j < |s.history[i].ops| && s.history[i].ops[j] == Mark(BuildChannel(name, values))
  {
    WatchedQuery(config, name, watch, event);
    var op := Mark(BuildChannel(name, values));
    RefOpsExactly(config.queries, WatchRef(name, watch), event, op);
    j := WatchOps(config, s, i, name, watch, event, op);
  }

  /**
   * Column watches. Once the change of a row has been handled, the live doc named by its old or new column values
   * has been published from a read that saw the change, or is on the way to it.
   */
  lemma RowChangeReachesDoc(
    config: Config, s: State, i: nat, event: Event, name: string, watch: Watch, values: seq<string>)
    requires AgentState(config, s) && i < s.position && IsEvent(config, s, i, event)
    requires Watches(config, name, watch, event) && HasColumns(watch) && Carries(event, watch.columns, values)
    requires BuildChannel(name, values) in s.engine.live
    ensures Reaches(s, BuildChannel(name, values), i + 1)
  {
    var j := CarriedEventMarks(config, s, i, name, watch, event, values);
    NoLostUpdate(RulesOf(config), s, i, j, BuildChannel(name, values));
  }

  /** And when nothing is left to do it has been published, whether or not the change had been handled before. */
  lemma SettledRowChangeIsPublished(
    config: Config, s: State, i: nat, event: Event, name: string, watch: Watch, values: seq<string>)
    requires SettledState(config, s) && IsEvent(config, s, i, event)
    requires Watches(config, name, watch, event) && HasColumns(watch) && Carries(event, watch.columns, values)
    requires BuildChannel(name, values) in s.engine.live
    ensures Latest(s.published, BuildChannel(name, values)) >= i + 1
  {
    var j := CarriedEventMarks(config, s, i, name, watch, event, values);
    Converged(RulesOf(config), s, i, j, BuildChannel(name, values));
  }

  // ----- watches without mapping

  /**
   * Watches without columns or a reverse index. Any change of the table, TRUNCATE included, reaches the query's
   * one doc, and it is published when nothing is left to do.
   */
  lemma TableChangeReachesDoc(config: Config, s: State, i: nat, event: Event, name: string, watch: Watch)
    requires AgentState(config, s) && s.running && IsEvent(config, s, i, event)
    requires Watches(config, name, watch, event) && !HasColumns(watch) && !HasKeysSql(watch)
    requires BuildChannel(name, []) in s.engine.live
    ensures i < s.position ==> Reaches(s, BuildChannel(name, []), i + 1)
    ensures SettledState(config, s) ==> Latest(s.published, BuildChannel(name, [])) >= i + 1
  {
    WatchedQuery(config, name, watch, event);
    var op := Mark(BuildChannel(name, []));
    assert RefOps(config.queries, WatchRef(name, watch), event)[0] == op;
    var j := WatchOps(config, s, i, name, watch, event, op);
    if i < s.position {
      NoLostUpdate(RulesOf(config), s, i, j, BuildChannel(name, []));
    }
    if SettledState(config, s) {
      Converged(RulesOf(config), s, i, j, BuildChannel(name, []));
    }
  }

  // ----- reverse-index watches

  /** The reverse-index run an event asks for through `watch`. */
  function AskedKey(name: string, watch: Watch, args: seq<Value>): LookupKey {
    LookupKey(name, watch.keysSql, args)
  }

  /** Change `i` asks for a lookup: its event supplies the arguments of a reverse index. */
  ghost predicate AsksFor(
    config: Config, s: State, i: nat, event: Event, name: string, watch: Watch, args: seq<Value>)
  {
    && IsEvent(config, s, i, event)
    && Watches(config, name, watch, event) && !HasColumns(watch) && HasKeysSql(watch)
    && Supplies(event, watch, args)
  }

  lemma SuppliedEventAsks(
    config: Config, s: State, i: nat, event: Event, name: string, watch: Watch, args: seq<Value>)
    returns (j: nat)
    requires AsksFor(config, s, i, event, name, watch, args) && name in config.queries
    ensures j < |s.history[i].ops|
    ensures s.history[i].ops[j] == Ask(AskedKey(name, watch, args), Lookup(config.queries[name], watch, args))
  {
    WatchedQuery(config, name, watch, event);
    var op := Ask(AskedKey(name, watch, args), Lookup(config.queries[name], watch, args));
    RefOpsExactly(config.queries, WatchRef(name, watch), event, op);
    j := WatchOps(config, s, i, name, watch, event, op);
  }

  /**
   * Reverse-index watches. Once the change has been handled, its lookup is pending or in a worker's hands, or the
   * index has been read at a version that includes the change, and every live doc hit then has been published from a
   * read no older or is on the way to it.
   */
  lemma LookupChangeReachesDocs(
    config: Config, s: State, i: nat, event: Event, name: string, watch: Watch, args: seq<Value>)
    requires AgentState(config, s) && i < s.position && AsksFor(config, s, i, event, name, watch, args)
    ensures KeyReaches(RulesOf(config), s, AskedKey(name, watch, args), i + 1)
  {
    WatchedQuery(config, name, watch, event);
    var j := SuppliedEventAsks(config, s, i, event, name, watch, args);
    NoLostUpdate(RulesOf(config), s, i, j, "");
  }

  /** And when nothing is left to do it has been read at such a version, and every live doc hit then is published. */
  lemma SettledLookupChangeIsPublished(
    config: Config, s: State, i: nat, event: Event, name: string, watch: Watch, args: seq<Value>)
    requires SettledState(config, s) && AsksFor(config, s, i, event, name, watch, args)
    ensures KeyShown(RulesOf(config), s, AskedKey(name, watch, args), i + 1)
  {
    WatchedQuery(config, name, watch, event);
    var j := SuppliedEventAsks(config, s, i, event, name, watch, args);
    Converged(RulesOf(config), s, i, j, "");
  }

  /** A live doc that every read since the change hits is then itself published no older than the change. */
  lemma SettledHitDocIsPublished(
    config: Config, s: State, i: nat, event: Event, name: string, watch: Watch, args: seq<Value>, c: Channel)
    requires SettledState(config, s) && AsksFor(config, s, i, event, name, watch, args)
    requires c in s.engine.live && HitSince(RulesOf(config), s.history, AskedKey(name, watch, args), c, i + 1)
    ensures Latest(s.published, c) >= i + 1
  {
    WatchedQuery(config, name, watch, event);
    var j := SuppliedEventAsks(config, s, i, event, name, watch, args);
    HitChannelConverged(RulesOf(config), s, i, j, c);
  }

  // ----- exactly when a change is published

  ghost function Changes(config: Config, commits: seq<RowCommit>): seq<Change>
    requires WellFormed(config)
  {
    seq(|commits|, k requires 0 <= k < |commits| => ToChange(config, commits[k]))
  }

  lemma ChangesAreValid(config: Config, commits: seq<RowCommit>)
    requires WellFormed(config)
    ensures AllValid(RulesOf(config), Changes(config, commits))
  {
    forall k | 0 <= k < |commits| ensures ValidChange(RulesOf(config), Changes(config, commits)[k]) {
      CommitIsValid(config, commits[k]);
    }
  }

  /**
   * For any transactions and any contents of the reverse indexes: transaction `i` is published on a live doc in every
   * run that works them off if and only if some transaction from `i` on marks the doc, or asks for a lookup key every
   * possible read of which hits the doc from that transaction to the end, by a row or over the cap.
   */
  lemma RowChangeShownExactly(config: Config, commits: seq<RowCommit>, i: nat, c: Channel)
    requires WellFormed(config) && Parses(config.queries, c) && i < |commits|
    ensures
      var h := Changes(config, commits);
      Shown(RulesOf(config), h, i, c) <==> Forced(RulesOf(config), h, i, c)
  {
    ChangesAreValid(config, commits);
    ShownExactly(RulesOf(config), Changes(config, commits), i, c);
  }

  // ----- the hypotheses about lookups are met

  /** Whatever rows a declared reverse index holds, over the cap or not, a read hits the docs they name. */
  lemma HeldRowsHit(
    config: Config, h: seq<Change>, key: LookupKey, lookup: Lookup, rows: seq<seq<Value>>, c: Channel)
    requires WellFormed(config) && key.query in config.queries
    requires |h| == 1 && h[0].index(key) == Index(|rows|, RowChannels(config.queries[key.query], rows))
    requires c in RowChannels(config.queries[key.query], rows)
    ensures Hits(RulesOf(config), h, 1, key, lookup, c)
  {
    RowChannelsParse(config, key.query, rows);
  }

  /** Whatever rows a declared reverse index holds, some settled state meets what the theorems ask for. */
  lemma LookupStateExists(
    config: Config, event: Event, name: string, watch: Watch, args: seq<Value>, rows: seq<seq<Value>>, c: Channel)
    returns (s: State)
    requires Watches(config, name, watch, event) && !HasColumns(watch) && HasKeysSql(watch)
    requires Supplies(event, watch, args) && name in config.queries && c in RowChannels(config.queries[name], rows)
    ensures SettledState(config, s) && 0 < s.position
    ensures AsksFor(config, s, 0, event, name, watch, args) && c in s.engine.live
    ensures HitSince(RulesOf(config), s.history, AskedKey(name, watch, args), c, 1)
  {
    var commit := RowCommit([event], key => rows);
    var h := Changes(config, [commit]);
    RowChannelsParse(config, name, rows);
    s := SettlesWith(config, [commit], c);
    OneEventCommit(config, commit, event, s);
    var key := AskedKey(name, watch, args);
    forall u, lookup | 1 <= u <= 1 ensures Hits(RulesOf(config), h, u, key, lookup, c) {
      HeldRowsHit(config, h, key, lookup, rows, c);
    }
  }

  /** A process that starts after these transactions, with one live doc, and settles. */
  lemma SettlesWith(config: Config, commits: seq<RowCommit>, c: Channel) returns (s: State)
    requires WellFormed(config) && Parses(config.queries, c)
    ensures SettledState(config, s) && s.history == Changes(config, commits) && s.position == |commits|
    ensures c in s.engine.live
  {
    var h := Changes(config, commits);
    ChangesAreValid(config, commits);
    BootsLive(RulesOf(config), h, c);
    s := SettlesLive(RulesOf(config), Booted(h, c), c);
  }

  lemma OneEventCommit(config: Config, commit: RowCommit, event: Event, s: State)
    requires WellFormed(config) && event in commit.events && s.history == Changes(config, [commit])
    ensures IsEvent(config, s, 0, event)
  {
  }
}
