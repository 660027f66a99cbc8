/** Ties the protocol to the definitions: real row changes give valid changes, and the methods are its runs. */
module System {
  import opened Wrappers
  import opened Spec
  import opened Values
  import opened ChannelCodec
  import opened Definitions
  import opened EventMapping
  import opened EngineCore
  import opened Protocol

  /** A committed transaction: its row changes, and the rows every reverse index holds from then on. */
  datatype RowCommit = RowCommit(events: seq<Event>, rows: LookupKey -> seq<seq<Value>>)

  function RulesOf(config: Config): Rules {
    Rules(c => Parses(config.queries, c), (name, c) => InQuery(name, c))
  }

  function IndexOf(config: Config, commit: RowCommit, key: LookupKey): Index {
    if key.query in config.queries
    then Index(|commit.rows(key)|, RowChannels(config.queries[key.query], commit.rows(key)))
    else Index(0, [])
  }

  /** What the events of a transaction ask for, one after the other. */
  function CommitOps(config: Config, events: seq<Event>): seq<Op>
    requires WellFormed(config)
  {
    if events == [] then []
    else CommitOps(config, events[..|events| - 1]) + EventOps(config, events[|events| - 1])
  }

  function ToChange(config: Config, commit: RowCommit): Change
    requires WellFormed(config)
  {
    Change(CommitOps(config, commit.events), key => IndexOf(config, commit, key))
  }

  lemma OneEventOps(config: Config, event: Event)
    requires WellFormed(config)
    ensures CommitOps(config, [event]) == EventOps(config, event)
  {
    assert [event][..0] == [] && CommitOps(config, []) == [];
  }

  lemma CommitOpsNext(config: Config, events: seq<Event>, event: Event)
    requires WellFormed(config)
    ensures CommitOps(config, events + [event]) == CommitOps(config, events) + EventOps(config, event)
  {
    assert (events + [event])[..|events|] == events;
  }

  lemma Associates<T>(a: seq<T>, b: seq<T>, c: seq<T>)
    ensures a + b + c == a + (b + c)
  {
  }

  lemma CommitOpsConcatNext(config: Config, a: seq<Event>, b: seq<Event>, event: Event)
    requires WellFormed(config) && CommitOps(config, a + b) == CommitOps(config, a) + CommitOps(config, b)
    ensures CommitOps(config, a + (b + [event])) == CommitOps(config, a) + CommitOps(config, b + [event])
  {
    CommitOpsNext(config, a + b, event);
    CommitOpsNext(config, b, event);
    Associates(a, b, [event]);
    Associates(CommitOps(config, a), CommitOps(config, b), EventOps(config, event));
  }

  lemma {:induction false} CommitOpsConcat(config: Config, a: seq<Event>, b: seq<Event>)
    requires WellFormed(config)
    ensures CommitOps(config, a + b) == CommitOps(config, a) + CommitOps(config, b)
  {
    if b == [] {
      assert a + b == a;
    } else {
      var n := |b| - 1;
      CommitOpsConcat(config, a, b[..n]);
      CommitOpsConcatNext(config, a, b[..n], b[n]);
      assert b[..n] + [b[n]] == b;
    }
  }

  lemma CommitOpsLast(config: Config, events: seq<Event>)
    requires WellFormed(config) && events != []
    ensures
      var n := |events| - 1;
      CommitOps(config, events) == CommitOps(config, events[..n]) + EventOps(config, events[n])
  {
  }

  /** A transaction asks for all that its events ask for. */
  lemma {:induction false} EventOpInCommit(config: Config, events: seq<Event>, event: Event, op: Op)
    requires WellFormed(config) && event in events && op in EventOps(config, event)
    ensures op in CommitOps(config, events)
  {
    var n := |events| - 1;
    CommitOpsLast(config, events);
    if event != events[n] {
      EventOpInCommit(config, events[..n], event, op);
    }
  }

  // ----- keys derived from rows

  /** The segments a watch reads off a row come back from the channel as the bound arguments, in column order. */
  lemma RowKeyBindsColumns(config: Config, table: string, ref: WatchRef, row: Row)
    requires WellFormed(config) && RefFits(config.queries, table, ref) && HasColumns(ref.watch)
    requires RowSegments(ref.watch.columns, row).Some?
    ensures
      var query := config.queries[ref.queryName];
      var columns := ref.watch.columns;
      exists c, values ::
        && RowOps(query, ref.watch, Some(row)) == [Mark(c)]
        && ParseChannel(config.queries, c) == Ok(Parsed(query, values))
        && |values| == |columns|
        && forall i | 0 <= i < |columns| :: columns[i] in row && ChannelValue(row[columns[i]]) == Some(values[i])
  {
    var query := config.queries[ref.queryName];
    var columns := ref.watch.columns;
    var values := RowSegments(columns, row).value;
    ParseOfBuild(config.queries, ref.queryName, values);
    assert RowOps(query, ref.watch, Some(row)) == [Mark(BuildChannel(query.name, values))];
    forall i | 0 <= i < |columns| ensures ChannelValue(row[columns[i]]) == Some(values[i]) {
      assert ColumnValues(columns, row)[i] == row[columns[i]];
    }
  }

  /** The channel of a declared query and as many valid values as its text has parameters names that text and them. */
  lemma ChannelNamesItsRun(definitions: seq<Query>, query: Query, values: seq<string>)
    requires ValidDefinitions(definitions) && query in definitions
    requires |values| == ParamCountOf(query.sql) && ValidValues(values)
    ensures
      var parsed := ParseChannel(ConfigOf(definitions).queries, BuildChannel(query.name, values));
      parsed.Ok? && parsed.value.query.sql == query.sql && parsed.value.values == values
  {
    ValidDefinitionsAreWellFormed(definitions);
    var d :| 0 <= d < |definitions| && definitions[d] == query;
    QueriesAreDeclared(definitions, d);
    ParseOfBuild(ConfigOf(definitions).queries, query.name, values);
  }

  /** Every mark is a parseable channel, and every lookup one of its key's query. */
  ghost predicate OpsFit(queries: map<string, QueryDef>, ops: seq<Op>) {
    && (forall i | 0 <= i < |ops| && ops[i].Mark? :: Parses(queries, ops[i].channel))
    && (forall i | 0 <= i < |ops| && ops[i].Ask? :: ops[i].lookup.query.name == ops[i].key.query)
  }

  lemma OpsFitConcat(queries: map<string, QueryDef>, a: seq<Op>, b: seq<Op>)
    requires OpsFit(queries, a) && OpsFit(queries, b)
    ensures OpsFit(queries, a + b)
  {
  }

  lemma RowOpsFit(config: Config, table: string, ref: WatchRef, row: Option<Row>)
    requires WellFormed(config) && RefFits(config.queries, table, ref) && HasColumns(ref.watch)
    ensures OpsFit(config.queries, RowOps(config.queries[ref.queryName], ref.watch, row))
  {
    if row.Some? && RowSegments(ref.watch.columns, row.value).Some? {
      ParseOfBuild(config.queries, ref.queryName, RowSegments(ref.watch.columns, row.value).value);
    }
  }

  lemma BareWatchParses(config: Config, name: string)
    requires WellFormed(config) && name in config.queries && config.queries[name].arity == 0
    ensures Parses(config.queries, BuildChannel(name, []))
  {
    ParseOfBuild(config.queries, name, []);
  }

  lemma RefOpsFit(config: Config, table: string, ref: WatchRef, event: Event)
    requires WellFormed(config) && RefFits(config.queries, table, ref)
    ensures OpsFit(config.queries, RefOps(config.queries, ref, event))
  {
    if HasColumns(ref.watch) {
      RowOpsFit(config, table, ref, event.oldData);
      RowOpsFit(config, table, ref, event.newData);
    } else if !HasKeysSql(ref.watch) {
      BareWatchParses(config, ref.queryName);
    }
  }

  lemma {:induction false} RefsOpsFit(config: Config, table: string, refs: seq<WatchRef>, event: Event)
    requires WellFormed(config)
    requires forall k | 0 <= k < |refs| ::
        refs[k].queryName in config.queries && RefFits(config.queries, table, refs[k])
    ensures OpsFit(config.queries, RefsOps(config.queries, refs, event))
  {
    if refs == [] {
    } else {
      var n := |refs| - 1;
      RefsOpsFit(config, table, refs[..n], event);
      RefOpsFit(config, table, refs[n], event);
      OpsFitConcat(
        config.queries, RefsOps(config.queries, refs[..n], event), RefOps(config.queries, refs[n], event));
    }
  }

  /** Every channel a reverse-index run marks parses, and the over-cap fallback of its query selects it. */
  lemma {:induction false} RowChannelsParse(config: Config, name: string, rows: seq<seq<Value>>)
    requires WellFormed(config) && name in config.queries
    ensures forall c | c in RowChannels(config.queries[name], rows) :: Parses(config.queries, c) && InQuery(name, c)
  {
    var query := config.queries[name];
    if rows == [] || |rows[0]| != query.arity {
    } else {
      RowChannelsParse(config, name, rows[1..]);
      if AllRender(rows[0]) {
        var c := BuildChannel(query.name, RenderAll(rows[0]));
        ParseOfBuild(config.queries, name, RenderAll(rows[0]));
        PrefixSelectsQuery(config.queries, name, c);
      }
    }
  }

  lemma {:induction false} CommitOpsFit(config: Config, events: seq<Event>)
    requires WellFormed(config)
    ensures OpsFit(config.queries, CommitOps(config, events))
  {
    if events == [] {
    } else {
      var n := |events| - 1;
      var refs := RefsOf(config, events[n].table);
      CommitOpsFit(config, events[..n]);
      assert forall k | 0 <= k < |refs| :: RefFits(config.queries, events[n].table, refs[k]);
      RefsOpsFit(config, events[n].table, refs, events[n]);
      OpsFitConcat(config.queries, CommitOps(config, events[..n]), EventOps(config, events[n]));
    }
  }

  /** Over well-formed tables every transaction is a valid change of the protocol. */
  lemma CommitIsValid(config: Config, commit: RowCommit)
    requires WellFormed(config)
    ensures ValidChange(RulesOf(config), ToChange(config, commit))
  {
    CommitOpsFit(config, commit.events);
    forall key: LookupKey, c | c in IndexOf(config, commit, key).channels
      ensures Parses(config.queries, c) && InQuery(key.query, c)
    {
      assert key.query in config.queries;
      RowChannelsParse(config, key.query, commit.rows(key));
    }
  }

  /**
   * With validated definitions every transaction is a valid change of the protocol, so everything proved about the
   * protocol's runs holds of the runs of the real definitions.
   */
  lemma RowCommitsAreValid(definitions: seq<Query>, commit: RowCommit)
    requires ValidDefinitions(definitions)
    ensures WellFormed(ConfigOf(definitions))
    ensures ValidChange(RulesOf(ConfigOf(definitions)), ToChange(ConfigOf(definitions), commit))
  {
    ValidDefinitionsAreWellFormed(definitions);
    CommitIsValid(ConfigOf(definitions), commit);
  }

  // ----- the methods as runs

  /** An op and its signal. */
  lemma HandlesOne(r: Rules, s: State, steps: seq<Step>, t: State) returns (u: State)
    requires RunsTo(r, s, steps, t) && t.running && t.handling.Some? && |t.handling.value| > 0
    ensures RunsTo(r, s, steps + [HandleOp] + [ProducerSignal], u)
    ensures u.engine == Signal(ApplyOp(t.engine, t.handling.value[0])) && u.handling == Some(t.handling.value[1..])
    ensures u.running && u.signals == t.signals && u.position == t.position && u.history == t.history
    ensures u.acked == t.acked
  {
    var handled := Apply(r, t, HandleOp);
    RunsToOneMore(r, s, steps, t, HandleOp);
    RunsToOneMore(r, s, steps + [HandleOp], handled, ProducerSignal);
    u := Apply(r, handled, ProducerSignal);
  }

  ghost predicate HandlerOnly(steps: seq<Step>) { forall k | 0 <= k < |steps| :: steps[k].IsHandler() }

  /** From the middle of a transaction, handling runs on by itself through its next ops. */
  lemma {:induction false} HandlesSome(r: Rules, s: State, ops: seq<Op>, rest: seq<Op>)
    returns (steps: seq<Step>, t: State)
    requires s.running && s.handling == Some(ops + rest)
    ensures RunsTo(r, s, steps, t) && HandlerOnly(steps)
    ensures t.engine == ApplyOps(s.engine, ops) && t.handling == Some(rest)
    ensures t.running && t.signals == s.signals && t.position == s.position && t.history == s.history
    ensures t.acked == s.acked
  {
    if ops == [] {
      RunsToNothing(r, s);
      assert ops + rest == rest;
      steps, t := [], s;
    } else {
      var n := |ops| - 1;
      assert ops[..n] + ([ops[n]] + rest) == ops + rest;
      steps, t := HandlesSome(r, s, ops[..n], [ops[n]] + rest);
      t := HandlesOne(r, s, steps, t);
      steps := steps + [HandleOp] + [ProducerSignal];
    }
  }

  lemma HandlesStart(r: Rules, s: State)
    requires s.running && s.handling.None? && s.position < |s.history|
    ensures Enabled(r, s, HandleStart)
    ensures Apply(r, s, HandleStart) == s.(handling := Some(s.history[s.position].ops))
  {
  }

  lemma HandlesEnd(r: Rules, s: State)
    requires s.running && s.handling == Some([])
    ensures Enabled(r, s, HandleEnd)
    ensures Apply(r, s, HandleEnd) == s.(handling := None, position := s.position + 1)
  {
  }

  /** HandleEvent without interruption is a run of the protocol, ending in the engine state the method ensures. */
  lemma HandleEventIsARun(r: Rules, s: State) returns (steps: seq<Step>, t: State)
    requires s.running && s.handling.None? && s.position < |s.history|
    ensures RunsTo(r, s, steps, t) && HandlerOnly(steps)
    ensures t.engine == ApplyOps(s.engine, s.history[s.position].ops)
    ensures t.position == s.position + 1 && t.handling.None? && t.signals == s.signals
    ensures t.running && t.history == s.history && t.acked == s.acked
  {
    var ops := s.history[s.position].ops;
    HandlesStart(r, s);
    OneStep(r, s, HandleStart);
    assert ops + [] == ops;
    var all, u := HandlesSome(r, Apply(r, s, HandleStart), ops, []);
    RunsCompose(r, s, [HandleStart], Apply(r, s, HandleStart), all, u);
    HandlesEnd(r, u);
    RunsToOneMore(r, s, [HandleStart] + all, u, HandleEnd);
    steps, t := [HandleStart] + all + [HandleEnd], Apply(r, u, HandleEnd);
  }

  lemma MarksOne(r: Rules, s: State, steps: seq<Step>, t: State, w: nat) returns (u: State)
    requires RunsTo(r, s, steps, t) && Ready(t, w) && t.At(w).LookupMarking? && |t.At(w).rows| > 0
    ensures RunsTo(r, s, steps + [MarksRow(w)] + [Signalling(w)], u)
    ensures Ready(u, w) && u.At(w) == LookupMarking(t.At(w).key, t.At(w).read, t.At(w).rows[1..])
    ensures u.engine == Signal(MarkDirty(t.engine, t.At(w).rows[0]))
  {
    var marked := Apply(r, t, MarksRow(w));
    RunsToOneMore(r, s, steps, t, MarksRow(w));
    RunsToOneMore(r, s, steps + [MarksRow(w)], marked, Signalling(w));
    u := Apply(r, marked, Signalling(w));
  }

  lemma MarksNext(e: Core, done: seq<Channel>, c: Channel)
    ensures ApplyOps(e, Marks(done + [c])) == Signal(MarkDirty(ApplyOps(e, Marks(done)), c))
  {
    assert Marks(done + [c])[..|done|] == Marks(done);
  }

  lemma {:induction false} MarksRest(
    r: Rules, s: State, steps: seq<Step>, t: State, w: nat, e: Core, done: seq<Channel>)
    returns (all: seq<Step>, u: State)
    requires RunsTo(r, s, steps, t) && Ready(t, w) && t.At(w).LookupMarking? && t.engine == ApplyOps(e, Marks(done))
    ensures RunsTo(r, s, all, u) && Ready(u, w)
    ensures u.At(w) == LookupMarking(t.At(w).key, t.At(w).read, [])
    ensures u.engine == ApplyOps(e, Marks(done + t.At(w).rows))
    decreases |t.At(w).rows|
  {
    var rows := t.At(w).rows;
    if rows == [] {
      assert done + rows == done;
      all, u := steps, t;
    } else {
      var next := MarksOne(r, s, steps, t, w);
      MarksNext(e, done, rows[0]);
      all, u := MarksRest(r, s, steps + [MarksRow(w)] + [Signalling(w)], next, w, e, done + [rows[0]]);
      assert done + [rows[0]] + rows[1..] == done + rows;
    }
  }

  lemma MarksNothing(r: Rules, s: State, w: nat)
    requires Ready(s, w) && s.At(w).LookupMarking? && s.At(w).rows == []
    ensures Enabled(r, s, RowsDone(w)) && Apply(r, s, RowsDone(w)).engine == s.engine
    ensures Ready(Apply(r, s, RowsDone(w)), w)
    ensures Apply(r, s, RowsDone(w)).At(w) == LookupFinish(s.At(w).key, Some(s.At(w).read))
  {
  }

  /** RunLookup on returned rows without interruption is a run of the protocol, ending as the method ensures. */
  lemma RunLookupIsARun(r: Rules, s: State, w: nat) returns (steps: seq<Step>, t: State)
    requires Ready(s, w) && s.At(w).LookupMarking?
    ensures RunsTo(r, s, steps, t)
    ensures t.engine == ApplyOps(s.engine, Marks(s.At(w).rows))
    ensures Ready(t, w) && t.At(w) == LookupFinish(s.At(w).key, Some(s.At(w).read))
  {
    RunsToNothing(r, s);
    assert Marks([]) == [];
    var all, u := MarksRest(r, s, [], s, w, s.engine, []);
    assert [] + s.At(w).rows == s.At(w).rows;
    MarksNothing(r, u, w);
    RunsToOneMore(r, s, all, u, RowsDone(w));
    steps, t := all + [RowsDone(w)], Apply(r, u, RowsDone(w));
  }
}
