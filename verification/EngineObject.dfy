/**
 * The engine object. Each method runs its critical sections and signals in order and ends in the state the
 * functions of EngineCore give; module Protocol interleaves those same sections.
 *
 * Answers of the customer database and of foony are parameters. The clock is a parameter too.
 */
module EngineObject {
  import opened Wrappers
  import opened Spec
  import opened Values
  import opened ChannelCodec
  import opened Definitions
  import opened EventMapping
  import opened Units
  import Core = EngineCore

  type Time = Core.Time

  lemma RowChannelsStep(query: QueryDef, rows: seq<seq<Value>>)
    requires rows != [] && |rows[0]| == query.arity
    ensures AllRender(rows[0]) ==>
      Core.Marks(RowChannels(query, rows))
      == [Mark(BuildChannel(query.name, RenderAll(rows[0])))] + Core.Marks(RowChannels(query, rows[1..]))
    ensures !AllRender(rows[0]) ==> RowChannels(query, rows) == RowChannels(query, rows[1..])
  {
    assert [] + RowChannels(query, rows[1..]) == RowChannels(query, rows[1..]);
  }

  lemma ApplyOne(e: Core.Core, op: Op)
    ensures Core.ApplyOps(e, [op]) == Core.Signal(Core.ApplyOp(e, op))
  {
    assert [op][..0] == [];
    assert Core.ApplyOps(e, [op][..0]) == e;
  }

  lemma RefsOpsNext(e: Core.Core, queries: map<string, QueryDef>, refs: seq<WatchRef>, i: nat, event: Event)
    requires i < |refs| && forall k | 0 <= k < |refs| :: refs[k].queryName in queries
    ensures Core.ApplyOps(e, RefsOps(queries, refs[..i + 1], event))
      == Core.ApplyOps(Core.ApplyOps(e, RefsOps(queries, refs[..i], event)), RefOps(queries, refs[i], event))
  {
    assert refs[..i + 1][..i] == refs[..i];
    Core.ApplyOpsConcat(e, RefsOps(queries, refs[..i], event), RefOps(queries, refs[i], event));
  }

  /** A query text and the values bound to its parameters. */
  datatype DocRun = DocRun(sql: string, args: seq<string>)

  class Engine {
    const config: Config
    var dirty: set<Channel>
    var inflight: set<Channel>
    var lookups: map<LookupKey, Lookup>
    var lookupInflight: set<LookupKey>
    var live: map<Channel, Time>
    var wake: bool

    ghost function State(): Core.Core
      reads this
    {
      Core.Core(dirty, inflight, lookups, lookupInflight, live, wake)
    }

    /** The watches of one query, each under its qualified table. */
    static method WatchTables(watches: map<string, seq<WatchRef>>, query: Query)
      returns (longer: map<string, seq<WatchRef>>)
      ensures longer == AddWatches(watches, query.name, query.watches)
    {
      longer := watches;
      for j := 0 to |query.watches|
        invariant longer == AddWatches(watches, query.name, query.watches[..j])
      {
        assert query.watches[..j + 1][..j] == query.watches[..j];
        longer := AddWatch(longer, query.name, query.watches[j]);
      }
      assert query.watches[..|query.watches|] == query.watches;
    }

    constructor (definitions: seq<Query>)
      requires ValidDefinitions(definitions)
      ensures config == ConfigOf(definitions) && WellFormed(config)
      ensures State() == Core.EMPTY
    {
      var queries: map<string, QueryDef> := map[];
      var watches: map<string, seq<WatchRef>> := map[];
      for i := 0 to |definitions|
        invariant Config(queries, watches) == ConfigOf(definitions[..i])
      {
        var query := definitions[i];
        assert definitions[..i + 1][..i] == definitions[..i];
        queries := queries[query.name := QueryDef(query.name, query.sql, ParamCountOf(query.sql))];
        watches := WatchTables(watches, query);
      }
      assert definitions[..|definitions|] == definitions;
      ValidDefinitionsAreWellFormed(definitions);
      config := Config(queries, watches);
      dirty, inflight, lookups, lookupInflight, live, wake := {}, {}, map[], {}, map[], false;
    }

    method Signal()
      modifies this`wake
      ensures State() == Core.Signal(old(State()))
    {
      wake := true;
    }

    method MarkDirty(channel: Channel)
      modifies this
      ensures State() == Core.Signal(Core.MarkDirty(old(State()), channel))
    {
      dirty := dirty + {channel};
      Signal();
    }

    // ----- subscriber interest

    method Warm(channel: Channel, now: Time)
      modifies this
      ensures State() ==
        if Parses(config.queries, channel) then Core.Signal(Core.Warm(old(State()), channel, now)) else old(State())
    {
      if ParseChannel(config.queries, channel).Err? {
        return;
      }
      live := live[channel := now];
      dirty := dirty + {channel};
      Signal();
    }

    method Touch(channel: Channel, now: Time)
      modifies this
      ensures State() ==
        if !Parses(config.queries, channel) then old(State())
        else Core.SignalIf(Core.Touch(old(State()), channel, now), channel !in old(live))
    {
      if ParseChannel(config.queries, channel).Err? {
        return;
      }
      var wasLive := channel in live;
      live := live[channel := now];
      if !wasLive {
        dirty := dirty + {channel};
        Signal();
      }
    }

    /** The leases a complete poll keeps. */
    method KeepRecent(now: Time) returns (renewed: map<Channel, Time>)
      ensures renewed == Core.Kept(live, true, now)
    {
      renewed := map[];
      var rest := live.Keys;
      while rest != {}
        invariant rest <= live.Keys
        invariant renewed == map c | c in live && c !in rest && now - live[c] < Core.TOUCH_GRACE :: live[c]
        decreases rest
      {
        var channel :| channel in rest;
        if now - live[channel] < Core.TOUCH_GRACE {
          renewed := renewed[channel := live[channel]];
        }
        rest := rest - {channel};
      }
    }

    /** One listed channel: `complete` says whether `renewed` is a new map or the live map itself. */
    method RenewLease(
      channel: Channel, complete: bool, now: Time, renewed: map<Channel, Time>, dirtied: bool,
      ghost kept: map<Channel, Time>, ghost before: set<Channel>, ghost start: set<Channel>)
      returns (renewed': map<Channel, Time>, dirtied': bool)
      requires !complete ==> kept == live
      requires renewed == kept + map c | c in before :: now
      requires dirty == start + (before - live.Keys) && dirtied == (before - live.Keys != {})
      modifies this`dirty
      ensures renewed' == kept + map c | c in before + {channel} :: now
      ensures dirty == start + (before + {channel} - live.Keys)
      ensures dirtied' == (before + {channel} - live.Keys != {})
    {
      // An incomplete poll adds to the live map itself, so it sees the channels it has already added.
      var wasLive := if complete then channel in live else channel in renewed;
      assert before + {channel} - live.Keys ==
             if channel in live then before - live.Keys else before - live.Keys + {channel};
      dirtied' := dirtied;
      if !wasLive {
        dirty := dirty + {channel};
        dirtied' := true;
      }
      renewed' := renewed[channel := now];
    }

    method SyncLive(channels: seq<Channel>, complete: bool, now: Time)
      modifies this
      ensures
        var listed := Core.Listed(c => Parses(config.queries, c), channels);
        State() == Core.SignalIf(
                     Core.SyncLive(old(State()), listed, complete, now), listed - old(live).Keys != {})
    {
      ghost var parses := c => Parses(config.queries, c);
      var renewed := live;
      if complete {
        renewed := KeepRecent(now);
      }
      ghost var kept := renewed;
      ghost var listed: set<Channel> := {};
      var dirtied := false;
      assert kept + (map c | c in listed :: now) == kept;
      for i := 0 to |channels|
        invariant unchanged(`live, `inflight, `lookups, `lookupInflight, `wake)
        invariant listed == Core.Listed(parses, channels[..i])
        invariant renewed == kept + map c | c in listed :: now
        invariant dirty == old(dirty) + (listed - live.Keys)
        invariant dirtied == (listed - live.Keys != {})
      {
        ListedNext(parses, channels, i);
        if ParseChannel(config.queries, channels[i]).Ok? {
          renewed, dirtied := RenewLease(channels[i], complete, now, renewed, dirtied, kept, listed, old(dirty));
          listed := listed + {channels[i]};
        }
      }
      assert channels[..|channels|] == channels;
      live := renewed;
      if dirtied {
        Signal();
      }
    }

    static lemma ListedNext(parses: Channel -> bool, channels: seq<Channel>, i: nat)
      requires i < |channels|
      ensures Core.Listed(parses, channels[..i + 1]) ==
        Core.Listed(parses, channels[..i]) + if parses(channels[i]) then {channels[i]} else {}
    {
    }

    // ----- row changes

    method MarkFromRow(query: QueryDef, watch: Watch, row: Option<Row>)
      modifies this
      ensures State() == Core.ApplyOps(old(State()), RowOps(query, watch, row))
      ensures (forall values :: !CarriedBy(row, watch.columns, values)) ==> State() == old(State())
      ensures forall values | CarriedBy(row, watch.columns, values) ::
          dirty == old(dirty) + {BuildChannel(query.name, values)} && wake
    {
      if row.None? {
        return;
      }
      var values: seq<string> := [];
      for i := 0 to |watch.columns|
        invariant State() == old(State())
        invariant |values| == i
        invariant forall k | 0 <= k < i ::
            watch.columns[k] in row.value && ChannelValue(row.value[watch.columns[k]]) == Some(values[k])
      {
        if watch.columns[i] !in row.value {
          return;
        }
        var value := ChannelValue(row.value[watch.columns[i]]);
        if value.None? {
          assert i < |watch.columns| && ChannelValue(row.value[watch.columns[i]]).None?;
          Unrenderable(watch.columns, row.value, i);
          return;
        }
        values := values + [value.value];
      }
      Renderable(watch.columns, row.value, values);
      forall other | CarriedBy(row, watch.columns, other) ensures other == values {
        CarriesOnlyThese(row, watch.columns, other, values);
      }
      assert CarriedBy(row, watch.columns, values);
      var channel := BuildChannel(query.name, values);
      ApplyOne(State(), Mark(channel));
      MarkDirty(channel);
    }

    lemma Unrenderable(columns: seq<string>, row: Row, i: nat)
      requires i < |columns| && columns[i] in row && ChannelValue(row[columns[i]]).None?
      ensures RowSegments(columns, row).None?
    {
      if forall k | 0 <= k < |columns| :: columns[k] in row {
        assert ColumnValues(columns, row)[i] == row[columns[i]];
      }
    }

    lemma Renderable(columns: seq<string>, row: Row, values: seq<string>)
      requires |values| == |columns|
      requires forall k | 0 <= k < |columns| ::
          columns[k] in row && ChannelValue(row[columns[k]]) == Some(values[k])
      ensures RowSegments(columns, row) == Some(values)
    {
      assert RenderAll(ColumnValues(columns, row)) == values;
    }

    method EnqueueLookup(query: QueryDef, watch: Watch, event: Event)
      requires forall p | p in watch.keysColumns :: ValidPlaceholder(p)
      modifies this
      ensures State() == Core.ApplyOps(old(State()), AskOps(query, watch, event))
      ensures (forall args :: !Supplies(event, watch, args)) ==> State() == old(State())
      ensures forall args | Supplies(event, watch, args) ::
          lookups == old(lookups)[LookupKey(query.name, watch.keysSql, args) := Lookup(query, watch, args)] && wake
    {
      var row := if event.newData.Some? then event.newData else event.oldData;
      if row.None? {
        return;
      }
      var args, _ := FillArgs(watch.keysColumns, row.value);
      forall other | Supplies(event, watch, other) ensures args == Some(other) {
        ArgsFill(watch.keysColumns, row.value, other);
      }
      if args.None? {
        return;
      }
      ArgsFill(watch.keysColumns, row.value, args.value);
      assert Supplies(event, watch, args.value);
      var key := LookupKey(query.name, watch.keysSql, args.value);
      var lookup := Lookup(query, watch, args.value);
      ApplyOne(State(), Ask(key, lookup));
      lookups := lookups[key := lookup];
      Signal();
    }

    method HandleRef(ref: WatchRef, event: Event)
      requires WellFormed(config) && RefFits(config.queries, event.table, ref)
      modifies this
      ensures State() == Core.ApplyOps(old(State()), RefOps(config.queries, ref, event))
    {
      var query := config.queries[ref.queryName];
      if |ref.watch.columns| > 0 {
        Core.ApplyOpsConcat(
          State(), RowOps(query, ref.watch, event.oldData), RowOps(query, ref.watch, event.newData));
        MarkFromRow(query, ref.watch, event.oldData);
        MarkFromRow(query, ref.watch, event.newData);
      } else if IsBlank(ref.watch.keysSql) {
        ApplyOne(State(), Mark(BuildChannel(query.name, [])));
        MarkDirty(BuildChannel(query.name, []));
      } else {
        EnqueueLookup(query, ref.watch, event);
      }
    }

    method HandleEvent(event: Event)
      requires WellFormed(config)
      modifies this
      ensures State() == Core.ApplyOps(old(State()), EventOps(config, event))
    {
      var refs := RefsOf(config, event.table);
      assert forall k | 0 <= k < |refs| :: RefFits(config.queries, event.table, refs[k]);
      for i := 0 to |refs|
        invariant State() == Core.ApplyOps(old(State()), RefsOps(config.queries, refs[..i], event))
      {
        RefsOpsNext(old(State()), config.queries, refs, i, event);
        HandleRef(refs[i], event);
      }
      assert refs[..|refs|] == refs;
    }

    // ----- lookups

    method TakeLookup() returns (taken: Option<(LookupKey, Lookup)>)
      modifies this
      ensures taken.Some? ==>
        && Core.TakeableLookup(old(State()), taken.value.0)
        && taken.value.1 == old(lookups)[taken.value.0]
        && State() == Core.TakeLookup(old(State()), taken.value.0)
      ensures taken.None? ==>
        State() == old(State()) && forall key :: !Core.TakeableLookup(old(State()), key)
    {
      var rest := lookups.Keys;
      while rest != {}
        invariant State() == old(State()) && rest <= lookups.Keys
        invariant forall key | key in lookups && key !in rest :: key in lookupInflight
        decreases rest
      {
        var key :| key in rest;
        if key in lookupInflight {
          rest := rest - {key};
          continue;
        }
        taken := Some((key, lookups[key]));
        lookups := lookups - {key};
        lookupInflight := lookupInflight + {key};
        return;
      }
      taken := None;
    }

    method RequeueLookup(key: LookupKey, lookup: Lookup)
      modifies this
      ensures State() == Core.Signal(Core.Enqueue(old(State()), key, lookup))
    {
      lookups := lookups[key := lookup];
      Signal();
    }

    /** One live channel: dirty if it is the query's own or starts with the query's prefix. */
    method MarkIfSelected(queryName: string, exact: string, prefix: string, channel: Channel) returns (hit: bool)
      requires exact == BuildChannel(queryName, []) && prefix == exact + ":"
      modifies this`dirty
      ensures hit == InQuery(queryName, channel)
      ensures State() == if hit then Core.MarkDirty(old(State()), channel) else old(State())
    {
      hit := channel == exact || HasPrefix(channel, prefix);
      if hit {
        dirty := dirty + {channel};
      }
    }

    method MarkQueryLiveDirty(queryName: string) returns (marked: nat)
      modifies this
      ensures
        var docs := Core.LiveDocs(old(State()), InQuery, queryName);
        && marked == |docs|
        && State() == Core.SignalIf(Core.MarkAll(old(State()), docs), docs != {})
    {
      var exact := BuildChannel(queryName, []);
      var prefix := exact + ":";
      marked := 0;
      var rest := live.Keys;
      ghost var seen: set<Channel> := {};
      while rest != {}
        invariant seen == live.Keys - rest && marked == |Selected(queryName, seen)|
        invariant State() == Core.MarkAll(old(State()), Selected(queryName, seen))
        decreases rest
      {
        var channel :| channel in rest;
        SelectedNext(old(State()), queryName, seen, channel);
        var hit := MarkIfSelected(queryName, exact, prefix, channel);
        if hit {
          marked := marked + 1;
        }
        rest := rest - {channel};
        seen := seen + {channel};
      }
      assert Selected(queryName, seen) == Core.LiveDocs(old(State()), InQuery, queryName);
      if marked > 0 {
        Signal();
      }
    }

    static ghost function Selected(queryName: string, channels: set<Channel>): set<Channel> {
      set c | c in channels && InQuery(queryName, c)
    }

    static lemma SelectedNext(e: Core.Core, queryName: string, channels: set<Channel>, channel: Channel)
      requires channel !in channels
      ensures
        var was, now := Selected(queryName, channels), Selected(queryName, channels + {channel});
        if InQuery(queryName, channel)
        then |now| == |was| + 1 && Core.MarkAll(e, now) == Core.MarkDirty(Core.MarkAll(e, was), channel)
        else now == was
    {
      var was := Selected(queryName, channels);
      assert Selected(queryName, channels + {channel}) ==
             if InQuery(queryName, channel) then was + {channel} else was;
      assert e.dirty + (was + {channel}) == e.dirty + was + {channel};
    }

    method MarkRows(query: QueryDef, rows: seq<seq<Value>>)
      modifies this
      ensures State() == Core.ApplyOps(old(State()), Core.Marks(RowChannels(query, rows)))
    {
      for i := 0 to |rows|
        invariant Core.ApplyOps(old(State()), Core.Marks(RowChannels(query, rows)))
          == Core.ApplyOps(State(), Core.Marks(RowChannels(query, rows[i..])))
      {
        if |rows[i]| != query.arity {
          return;
        }
        RowChannelsStep(query, rows[i..]);
        assert rows[i..][1..] == rows[i + 1..];
        if AllRender(rows[i]) {
          var channel := BuildChannel(query.name, RenderAll(rows[i]));
          Core.ApplyOpsConcat(State(), [Mark(channel)], Core.Marks(RowChannels(query, rows[i + 1..])));
          ApplyOne(State(), Mark(channel));
          MarkDirty(channel);
        }
      }
    }

    method RunLookup(key: LookupKey, lookup: Lookup, answer: KeysAnswer)
      modifies this
      ensures State() == AfterKeys(old(State()), key, lookup, answer)
    {
      match answer {
        case TooManyKeys =>
          var _ := MarkQueryLiveDirty(lookup.query.name);
        case KeysError =>
          RequeueLookup(key, lookup);
        case Rows(rows) =>
          MarkRows(lookup.query, rows);
      }
    }

    method FinishLookup(key: LookupKey)
      modifies this
      ensures State() == Settle(Core.FinishLookup(old(State()), key))
    {
      lookupInflight := lookupInflight - {key};
      if |dirty| > 0 || |lookups.Keys| > 0 {
        Signal();
      }
    }

    // ----- docs

    method TakeDirty() returns (taken: Option<Channel>, ghost cold: set<Channel>)
      modifies this
      ensures Core.ColdTakeable(old(State()), cold)
      ensures taken.Some? ==>
        && Core.TakeableDoc(old(State()), taken.value) && taken.value in old(live)
        && State() == Core.TakeDoc(Core.DropCold(old(State()), cold), taken.value)
      ensures taken.None? ==>
        && cold == old(dirty) - old(inflight)
        && State() == Core.DropCold(old(State()), cold)
    {
      cold := {};
      var rest := dirty;
      while rest != {}
        invariant rest <= old(dirty) && rest !! cold
        invariant Core.ColdTakeable(old(State()), cold)
        invariant State() == Core.DropCold(old(State()), cold)
        invariant forall c | c in old(dirty) && c !in rest :: c in inflight || c in cold
        decreases rest
      {
        var channel :| channel in rest;
        rest := rest - {channel};
        if channel in inflight {
          continue;
        }
        dirty := dirty - {channel};
        if channel !in live {
          cold := cold + {channel};
          continue;
        }
        inflight := inflight + {channel};
        taken := Some(channel);
        return;
      }
      taken := None;
    }

    /** Runs the query with the channel's segments bound and publishes; a failure is requeued after the pause. */
    method Compute(channel: Channel, answer: DocAnswer) returns (ran: Option<DocRun>, published: bool)
      modifies this
      ensures match ParseChannel(config.queries, channel)
              case Err(_) => ran == None && !published && State() == old(State())
              case Ok(parsed) =>
                && ran == Some(DocRun(parsed.query.sql, parsed.values))
                && published == answer.PublishOk?
                && State() == AfterDoc(old(State()), channel, answer)
    {
      ran, published := None, false;
      var parsed := ParseChannel(config.queries, channel);
      if parsed.Err? {
        return;
      }
      ran := Some(DocRun(parsed.value.query.sql, parsed.value.values));
      match answer {
        case DocError => MarkDirty(channel);
        case PublishError => MarkDirty(channel);
        case PublishOk => published := true;
      }
    }

    method FinishDoc(channel: Channel)
      modifies this
      ensures State() == Settle(Core.FinishDoc(old(State()), channel))
    {
      inflight := inflight - {channel};
      if |dirty| > 0 || |lookups.Keys| > 0 {
        Signal();
      }
    }

    /** One pass of the worker loop, with no other party running. */
    method WorkerPass(keys: LookupKey -> KeysAnswer, docs: Channel -> DocAnswer) returns (idle: bool, ghost unit: Unit)
      modifies this
      ensures Picks(old(State()), unit) && idle == unit.Nothing?
      ensures State() == AfterUnit(old(State()), c => Parses(config.queries, c), unit, keys, docs)
    {
      idle := false;
      var taken := TakeLookup();
      if taken.Some? {
        var (key, lookup) := taken.value;
        RunLookup(key, lookup, keys(key));
        FinishLookup(key);
        unit := LookupUnit(key);
        return;
      }
      var channel, cold := TakeDirty();
      if channel.None? {
        return true, Nothing;
      }
      var _, _ := Compute(channel.value, docs(channel.value));
      FinishDoc(channel.value);
      unit := DocUnit(channel.value, cold);
    }
  }
}
