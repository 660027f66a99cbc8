/**
 * From the replication connection to the published doc: what becomes of each row change the server sends, in terms of
 * the definitions and of the rows, or of the message's own columns.
 */
module Delivery {
  import opened Wrappers
  import opened Spec
  import opened Values
  import opened ChannelCodec
  import opened Definitions
  import opened EventMapping
  import opened EngineCore
  import opened Protocol
  import opened Guarantees
  import opened Convergence
  import opened System
  import opened EndToEnd
  import opened Stream = ReplicationStream
  import opened Pipeline
  import Decoder

  /** Some reachable process starts the connections, over the tables of validated definitions. */
  ghost predicate Delivered(
    definitions: seq<Query>, txns: seq<Transaction>, s: State, starts: seq<Lsn>,
    turns: seq<seq<Turn<Decoder.Event>>>, logs: seq<seq<Entry<Decoder.Event>>>, sent: seq<Decoder.Wire>)
  {
    && ValidDefinitions(definitions) && AgentState(ConfigOf(definitions), s)
    && Delivers(ConfigOf(definitions), txns, s, starts, turns, logs, sent)
  }

  /** Row change of transaction `k` in a table some definition watches with `watch`. */
  ghost predicate Watched(
    definitions: seq<Query>, txns: seq<Transaction>, k: nat, decoded: Decoder.Event, query: Query, watch: Watch)
  {
    && k < |txns| && decoded in txns[k].events
    && query in definitions && watch in query.watches
    && decoded.schema == "public" && decoded.table == watch.table
  }

  /** The process after the connections, in which everything has been handled. */
  lemma HandlesAll(
    definitions: seq<Query>, txns: seq<Transaction>, s: State, starts: seq<Lsn>,
    turns: seq<seq<Turn<Decoder.Event>>>, logs: seq<seq<Entry<Decoder.Event>>>, sent: seq<Decoder.Wire>)
    returns (steps: seq<Step>, t: State)
    requires Delivered(definitions, txns, s, starts, turns, logs, sent)
    ensures RunsTo(RulesOf(ConfigOf(definitions)), s, steps, t) && AgentState(ConfigOf(definitions), t)
    ensures t.running && t.position == |txns| && t.history == s.history
  {
    var config := ConfigOf(definitions);
    steps, t := ConnectionsDeliver(config, txns, s, starts, turns, logs, sent);
    RunsStayReachable(RulesOf(config), s, steps, t);
  }

  /** The row change is an event of change `k` of the history, and the watch watches its table. */
  lemma WatchedEvent(
    definitions: seq<Query>, txns: seq<Transaction>, k: nat, decoded: Decoder.Event, query: Query, watch: Watch,
    t: State)
    returns (event: Event)
    requires ValidDefinitions(definitions) && WellFormed(ConfigOf(definitions))
    requires Committed(ConfigOf(definitions), t.history, txns) && Watched(definitions, txns, k, decoded, query, watch)
    ensures IsEvent(ConfigOf(definitions), t, k, event)
    ensures Watches(ConfigOf(definitions), query.name, watch, event)
    ensures event.oldData == decoded.oldData && event.newData == decoded.newData
  {
    event := ToEvent(decoded);
    var events := txns[k].events;
    var i :| 0 <= i < |events| && events[i] == decoded;
    assert ToEvents(events)[i] == event;
    assert "public" + "." == PUBLIC_PREFIX;
    DeclaredWatches(definitions, query, watch, event);
  }

  /**
   * Column watches. When all connections are done, the live doc of the values that the old or new row of a row change
   * carries in the watch's columns has been published from a read that saw its transaction, or is on the way to it. And
   * when nothing is left to do it has been published.
   */
  lemma RowChangeIsDelivered(
    definitions: seq<Query>, txns: seq<Transaction>, s: State, starts: seq<Lsn>,
    turns: seq<seq<Turn<Decoder.Event>>>, logs: seq<seq<Entry<Decoder.Event>>>, sent: seq<Decoder.Wire>,
    k: nat, decoded: Decoder.Event, query: Query, watch: Watch, values: seq<string>)
    returns (steps: seq<Step>, t: State)
    requires Delivered(definitions, txns, s, starts, turns, logs, sent)
    requires Watched(definitions, txns, k, decoded, query, watch) && HasColumns(watch)
    requires CarriedBy(decoded.oldData, watch.columns, values) || CarriedBy(decoded.newData, watch.columns, values)
    ensures RunsTo(RulesOf(ConfigOf(definitions)), s, steps, t) && t.position == |txns|
    ensures
      var c := BuildChannel(query.name, values);
      && (c in t.engine.live ==> Reaches(t, c, k + 1))
      && forall u | SettledState(ConfigOf(definitions), u) && u.history == s.history && c in u.engine.live ::
           Latest(u.published, c) >= k + 1
  {
    var config := ConfigOf(definitions);
    var c := BuildChannel(query.name, values);
    steps, t := HandlesAll(definitions, txns, s, starts, turns, logs, sent);
    var event := WatchedEvent(definitions, txns, k, decoded, query, watch, t);
    if c in t.engine.live {
      RowChangeReachesDoc(config, t, k, event, query.name, watch, values);
    }
    forall u | SettledState(config, u) && u.history == s.history && c in u.engine.live
      ensures Latest(u.published, c) >= k + 1
    {
      assert IsEvent(config, u, k, event);
      SettledRowChangeIsPublished(config, u, k, event, query.name, watch, values);
    }
  }

  /** Bare watches. The same of the query's one doc, for any change of the table. */
  lemma TableChangeIsDelivered(
    definitions: seq<Query>, txns: seq<Transaction>, s: State, starts: seq<Lsn>,
    turns: seq<seq<Turn<Decoder.Event>>>, logs: seq<seq<Entry<Decoder.Event>>>, sent: seq<Decoder.Wire>,
    k: nat, decoded: Decoder.Event, query: Query, watch: Watch)
    returns (steps: seq<Step>, t: State)
    requires Delivered(definitions, txns, s, starts, turns, logs, sent)
    requires Watched(definitions, txns, k, decoded, query, watch) && !HasColumns(watch) && !HasKeysSql(watch)
    ensures RunsTo(RulesOf(ConfigOf(definitions)), s, steps, t) && t.position == |txns|
    ensures
      var c := BuildChannel(query.name, []);
      && (c in t.engine.live ==> Reaches(t, c, k + 1))
      && forall u | SettledState(ConfigOf(definitions), u) && u.history == s.history && c in u.engine.live ::
           Latest(u.published, c) >= k + 1
  {
    var config := ConfigOf(definitions);
    var c := BuildChannel(query.name, []);
    steps, t := HandlesAll(definitions, txns, s, starts, turns, logs, sent);
    var event := WatchedEvent(definitions, txns, k, decoded, query, watch, t);
    if c in t.engine.live {
      TableChangeReachesDoc(config, t, k, event, query.name, watch);
    }
    forall u | SettledState(config, u) && u.history == s.history && c in u.engine.live
      ensures Latest(u.published, c) >= k + 1
    {
      assert IsEvent(config, u, k, event);
      TableChangeReachesDoc(config, u, k, event, query.name, watch);
    }
  }

  /**
   * Reverse-index watches. The lookup with the arguments the new row supplies, or the old row without one, is pending,
   * in a worker's hands, or has been read late enough and every live doc hit then is on the way. And when nothing is
   * left to do it has been read late enough and every live doc hit then is published.
   */
  lemma LookupChangeIsDelivered(
    definitions: seq<Query>, txns: seq<Transaction>, s: State, starts: seq<Lsn>,
    turns: seq<seq<Turn<Decoder.Event>>>, logs: seq<seq<Entry<Decoder.Event>>>, sent: seq<Decoder.Wire>,
    k: nat, decoded: Decoder.Event, query: Query, watch: Watch, args: seq<Value>)
    returns (steps: seq<Step>, t: State)
    requires Delivered(definitions, txns, s, starts, turns, logs, sent)
    requires Watched(definitions, txns, k, decoded, query, watch) && !HasColumns(watch) && HasKeysSql(watch)
    requires SuppliedBy(if decoded.newData.Some? then decoded.newData else decoded.oldData, watch, args)
    ensures RunsTo(RulesOf(ConfigOf(definitions)), s, steps, t) && t.position == |txns|
    ensures
      var r, key := RulesOf(ConfigOf(definitions)), LookupKey(query.name, watch.keysSql, args);
      && KeyReaches(r, t, key, k + 1)
      && forall u | SettledState(ConfigOf(definitions), u) && u.history == s.history :: KeyShown(r, u, key, k + 1)
  {
    var config := ConfigOf(definitions);
    steps, t := HandlesAll(definitions, txns, s, starts, turns, logs, sent);
    var event := WatchedEvent(definitions, txns, k, decoded, query, watch, t);
    LookupChangeReachesDocs(config, t, k, event, query.name, watch, args);
    forall u | SettledState(config, u) && u.history == s.history
      ensures KeyShown(RulesOf(config), u, LookupKey(query.name, watch.keysSql, args), k + 1)
    {
      assert IsEvent(config, u, k, event);
      SettledLookupChangeIsPublished(config, u, k, event, query.name, watch, args);
    }
  }

  // ----- from the message's own columns

  /** The tuple's text columns under these names carry `values` in the given columns. */
  ghost predicate TupleCarries(
    tuple: Option<Decoder.Tuple>, relation: Decoder.Relation, columns: seq<string>, values: seq<string>)
  {
    && tuple.Some? && |tuple.value| <= |relation.columns| && |values| == |columns|
    && forall m | 0 <= m < |columns| ::
         exists i: nat ::
           && i < |tuple.value| && Decoder.LastOfName(tuple.value, relation.columns, i)
           && relation.columns[i] == columns[m] && tuple.value[i].TextColumn?
           && ChannelValue(tuple.value[i].value) == Some(values[m])
  }

  /** The old or new tuple of the row message does. */
  ghost predicate MessageCarries(
    body: Decoder.Logical, relation: Decoder.Relation, columns: seq<string>, values: seq<string>)
  {
    match body
    case Insert(_, tuple) => TupleCarries(tuple, relation, columns, values)
    case Update(_, before, tuple) =>
      TupleCarries(before, relation, columns, values) || TupleCarries(tuple, relation, columns, values)
    case Delete(_, before) => TupleCarries(before, relation, columns, values)
    case _ => false
  }

  lemma TupleRowCarries(
    row: Option<Row>, tuple: Option<Decoder.Tuple>, relation: Decoder.Relation, columns: seq<string>,
    values: seq<string>)
    requires Decoder.Fits(tuple, relation) && Decoder.RowIs(row, tuple, relation)
    requires TupleCarries(tuple, relation, columns, values)
    ensures CarriedBy(row, columns, values)
  {
    forall m | 0 <= m < |columns|
      ensures columns[m] in row.value && ChannelValue(row.value[columns[m]]) == Some(values[m])
    {
      var i: nat :|
        i < |tuple.value| && Decoder.LastOfName(tuple.value, relation.columns, i)
        && relation.columns[i] == columns[m] && tuple.value[i].TextColumn?
        && ChannelValue(tuple.value[i].value) == Some(values[m]);
      assert Decoder.HasValue(tuple.value, i);
    }
  }

  lemma EventCarries(
    event: Decoder.Event, body: Decoder.Logical, relation: Decoder.Relation, columns: seq<string>, values: seq<string>)
    requires Decoder.IsRowMessage(body) && Decoder.IsRowEvent(event, body, relation)
    requires MessageCarries(body, relation, columns, values)
    ensures CarriedBy(event.oldData, columns, values) || CarriedBy(event.newData, columns, values)
  {
    match body {
      case Insert(_, tuple) => TupleRowCarries(event.newData, tuple, relation, columns, values);
      case Update(_, before, tuple) =>
        if TupleCarries(before, relation, columns, values) {
          TupleRowCarries(event.oldData, before, relation, columns, values);
        } else {
          TupleRowCarries(event.newData, tuple, relation, columns, values);
        }
      case Delete(_, before) => TupleRowCarries(event.oldData, before, relation, columns, values);
    }
  }

  lemma OnlyLatest(sent: seq<Decoder.Wire>, id: Decoder.RelationId, a: Decoder.Relation, b: Decoder.Relation)
    requires Decoder.LatestDescription(sent, id, a) && Decoder.LatestDescription(sent, id, b)
    ensures a == b
  {
    var i :|
      0 <= i < |sent| && sent[i].body == Decoder.RelationMessage(id, a)
      && forall k | i < k < |sent| :: !(sent[k].body.RelationMessage? && sent[k].body.id == id);
    var j :|
      0 <= j < |sent| && sent[j].body == Decoder.RelationMessage(id, b)
      && forall k | j < k < |sent| :: !(sent[k].body.RelationMessage? && sent[k].body.id == id);
    assert i == j;
  }

  lemma {:induction false} SentStays(sent: seq<Decoder.Wire>, i: nat, n: nat)
    requires Decoder.Consistent(sent) && i <= n <= |sent|
    ensures Decoder.EventsSent(sent, i) <= Decoder.EventsSent(sent, n)
    decreases n - i
  {
    if i < n {
      SentStays(sent, i, n - 1);
    }
  }

  /** An event the server sends on the connection is one of a transaction that commits from its start on. */
  lemma SentIsCommitted(txns: seq<Transaction>, start: Lsn, sent: seq<Decoder.Wire>, i: nat, event: Decoder.Event)
    returns (k: nat)
    requires Decoder.Consistent(sent) && i < |sent|
    requires Decoder.EventsSent(sent, i + 1) == Decoder.EventsSent(sent, i) + [event]
    requires Decoder.EventsSent(sent, |sent|) == EventsFrom(txns, start)
    ensures Before(txns, start) <= k < |txns| && event in txns[k].events
  {
    SentStays(sent, i + 1, |sent|);
    var x := |Decoder.EventsSent(sent, i)|;
    assert EventsFrom(txns, start)[x] == event;
    EventFrom(txns, start, x);
    var j;
    k, j := EventAt(txns, Count(txns, Before(txns, start)) + x);
    if k < Before(txns, start) {
      CountGrows(txns, k + 1, Before(txns, start));
    }
  }

  /**
   * From the wire to the doc: a row message of the last connection, of a relation described as a watched table, whose
   * old or new text columns carry the watch's values, belongs to a transaction the doc of these values is published at,
   * or is on the way to.
   */
  lemma MessageIsDelivered(
    definitions: seq<Query>, txns: seq<Transaction>, s: State, starts: seq<Lsn>,
    turns: seq<seq<Turn<Decoder.Event>>>, logs: seq<seq<Entry<Decoder.Event>>>, sent: seq<Decoder.Wire>,
    i: nat, relation: Decoder.Relation, query: Query, watch: Watch, values: seq<string>)
    returns (steps: seq<Step>, t: State, k: nat)
    requires Delivered(definitions, txns, s, starts, turns, logs, sent)
    requires Decoder.Announced(sent) && i < |sent| && Decoder.IsRowMessage(sent[i].body)
    requires Decoder.LatestDescription(sent[..i], sent[i].body.id, relation)
    requires query in definitions && watch in query.watches && HasColumns(watch)
    requires relation.schema == "public" && relation.name == watch.table
    requires MessageCarries(sent[i].body, relation, watch.columns, values)
    ensures RunsTo(RulesOf(ConfigOf(definitions)), s, steps, t) && t.position == |txns|
    ensures Before(txns, starts[|logs| - 1]) <= k < |txns|
    ensures
      var c := BuildChannel(query.name, values);
      && (c in t.engine.live ==> Reaches(t, c, k + 1))
      && forall u | SettledState(ConfigOf(definitions), u) && u.history == s.history && c in u.engine.live ::
           Latest(u.published, c) >= k + 1
  {
    var event, described := Decoder.RowYieldsOneEvent(sent, i);
    OnlyLatest(sent[..i], sent[i].body.id, relation, described);
    EventCarries(event, sent[i].body, relation, watch.columns, values);
    k := SentIsCommitted(txns, starts[|logs| - 1], sent, i, event);
    steps, t := RowChangeIsDelivered(
      definitions, txns, s, starts, turns, logs, sent, k, event, query, watch, values);
  }
}
