/** How one row change becomes marks and lookups (HandleEvent, markFromRow, enqueueLookup, runLookup). */
module EventMapping {
  import opened Wrappers
  import opened Spec
  import opened Values
  import opened ChannelCodec
  import opened Definitions

  /** A row change; TRUNCATE carries neither row. */
  datatype Event = Event(table: string, oldData: Option<Row>, newData: Option<Row>)

  /** The dedup key of a lookup: the formatted string of the source, kept as its three parts. */
  datatype LookupKey = LookupKey(query: string, keysSql: string, args: seq<Value>)

  datatype Lookup = Lookup(query: QueryDef, watch: Watch, args: seq<Value>)

  /** What one watch asks of the engine. */
  datatype Op = Mark(channel: Channel) | Ask(key: LookupKey, lookup: Lookup)

  // ----- direct column mapping

  predicate AllRender(values: seq<Value>) {
    forall i | 0 <= i < |values| :: ChannelValue(values[i]).Some?
  }

  function RenderAll(values: seq<Value>): (segments: seq<string>)
    requires AllRender(values)
    ensures |segments| == |values| && ValidValues(segments)
  {
    seq(|values|, i requires 0 <= i < |values| => ChannelValue(values[i]).value)
  }

  function ColumnValues(columns: seq<string>, row: Row): (values: seq<Value>)
    requires forall i | 0 <= i < |columns| :: columns[i] in row
    ensures |values| == |columns|
  {
    seq(|columns|, i requires 0 <= i < |columns| => row[columns[i]])
  }

  /** The segments a row yields for the mapped columns, if all are present and renderable. */
  function RowSegments(columns: seq<string>, row: Row): Option<seq<string>> {
    if (forall i | 0 <= i < |columns| :: columns[i] in row) && AllRender(ColumnValues(columns, row))
    then Some(RenderAll(ColumnValues(columns, row)))
    else None
  }

  function RowOps(query: QueryDef, watch: Watch, row: Option<Row>): seq<Op> {
    if row.None? then []
    else match RowSegments(watch.columns, row.value)
      case Some(segments) => [Mark(BuildChannel(query.name, segments))]
      case None => []
  }

  // ----- reverse-index arguments

  function PlaceholderOf(n: nat): string { "$" + FormatNat(n) }

  /** The number of a valid placeholder, 0 for any other text. */
  function PlaceholderNumber(p: string): nat {
    if !ValidPlaceholder(p) then 0
    else
      assert forall k | 0 <= k < |p[1..]| :: p[1..][k] == p[k + 1];
      Decimal(p[1..])
  }

  predicate BoundedByCount(placeholders: set<string>) {
    forall p | p in placeholders :: ValidPlaceholder(p) && PlaceholderNumber(p) <= |placeholders|
  }

  function Slot(keysColumns: map<string, string>, row: Row, i: nat): Value
    requires PlaceholderOf(i) in keysColumns && keysColumns[PlaceholderOf(i)] in row
  {
    row[keysColumns[PlaceholderOf(i)]]
  }

  /** Argument i is the column of placeholder $i; there is a result only if every placeholder and column fits. */
  function LookupArgs(keysColumns: map<string, string>, row: Row): Option<seq<Value>> {
    if BoundedByCount(keysColumns.Keys) && forall p | p in keysColumns :: keysColumns[p] in row then
      BoundedPlaceholdersAreNumbered(keysColumns.Keys);
      Some(seq(|keysColumns.Keys|, i requires 0 <= i < |keysColumns.Keys| => Slot(keysColumns, row, i + 1)))
    else None
  }

  function AskOps(query: QueryDef, watch: Watch, event: Event): seq<Op> {
    var row := if event.newData.Some? then event.newData else event.oldData;
    if row.None? then []
    else match LookupArgs(watch.keysColumns, row.value)
      case Some(args) => [Ask(LookupKey(query.name, watch.keysSql, args), Lookup(query, watch, args))]
      case None => []
  }

  // ----- the whole event

  function RefOps(queries: map<string, QueryDef>, ref: WatchRef, event: Event): seq<Op>
    requires ref.queryName in queries
  {
    var query := queries[ref.queryName];
    if HasColumns(ref.watch) then RowOps(query, ref.watch, event.oldData) + RowOps(query, ref.watch, event.newData)
    else if !HasKeysSql(ref.watch) then [Mark(BuildChannel(query.name, []))]
    else AskOps(query, ref.watch, event)
  }

  function RefsOps(queries: map<string, QueryDef>, refs: seq<WatchRef>, event: Event): seq<Op>
    requires forall i | 0 <= i < |refs| :: refs[i].queryName in queries
  {
    if refs == [] then []
    else RefsOps(queries, refs[..|refs| - 1], event) + RefOps(queries, refs[|refs| - 1], event)
  }

  function RefsOf(config: Config, table: string): seq<WatchRef> {
    if table in config.watches then config.watches[table] else []
  }

  function EventOps(config: Config, event: Event): seq<Op>
    requires WellFormed(config)
  {
    assert forall i | 0 <= i < |RefsOf(config, event.table)| ::
        RefFits(config.queries, event.table, RefsOf(config, event.table)[i]);
    RefsOps(config.queries, RefsOf(config, event.table), event)
  }

  /** The channels the rows of a reverse-index run mark: a row of the wrong width ends the run. */
  function RowChannels(query: QueryDef, rows: seq<seq<Value>>): seq<Channel> {
    if rows == [] || |rows[0]| != query.arity then []
    else
      (if AllRender(rows[0]) then [BuildChannel(query.name, RenderAll(rows[0]))] else [])
      + RowChannels(query, rows[1..])
  }

  // ----- placeholders fill every slot exactly once

  lemma PlaceholderNumberInverts(p: string)
    requires ValidPlaceholder(p)
    ensures 1 <= PlaceholderNumber(p) <= 99
    ensures PlaceholderOf(PlaceholderNumber(p)) == p
  {
    var digits := p[1..];
    assert digits[..|digits| - 1] == p[1..|p| - 1];
    if |p| == 2 {
      assert Decimal(digits) == DigitValue(p[1]);
    } else {
      assert p[1..2][..0] == "";
      assert Decimal(p[1..2]) == DigitValue(p[1]);
      assert Decimal(digits) == 10 * DigitValue(p[1]) + DigitValue(p[2]);
      assert FormatNat(DigitValue(p[1])) == [p[1]];
      assert FormatNat(10 * DigitValue(p[1]) + DigitValue(p[2])) == FormatNat(DigitValue(p[1])) + [p[2]];
    }
  }

  lemma {:induction false} PlaceholderOfInjective(m: nat, n: nat)
    requires PlaceholderOf(m) == PlaceholderOf(n)
    ensures m == n
  {
    assert PlaceholderOf(m)[1..] == FormatNat(m) && PlaceholderOf(n)[1..] == FormatNat(n);
    DecimalOfFormatNat(m);
    DecimalOfFormatNat(n);
  }

  lemma {:induction false} PlaceholdersUpTo(n: nat)
    ensures |set i: nat | 1 <= i <= n :: PlaceholderOf(i)| == n
  {
    var all := set i: nat | 1 <= i <= n :: PlaceholderOf(i);
    if n == 0 {
    } else {
      PlaceholdersUpTo(n - 1);
      var fewer := set i: nat | 1 <= i <= n - 1 :: PlaceholderOf(i);
      if PlaceholderOf(n) in fewer {
        var i: nat :| 1 <= i <= n - 1 && PlaceholderOf(i) == PlaceholderOf(n);
        PlaceholderOfInjective(i, n);
      }
      assert all == fewer + {PlaceholderOf(n)};
    }
  }

  lemma {:induction false} SubsetOfSameSize<T>(a: set<T>, b: set<T>)
    requires a <= b && |a| == |b|
    ensures a == b
  {
    assert |b - a| == |b| - |a|;
  }

  /** Pigeonhole: n distinct placeholders numbered at most n are exactly $1..$n. */
  lemma BoundedPlaceholdersAreNumbered(placeholders: set<string>)
    requires BoundedByCount(placeholders)
    ensures forall i | 1 <= i <= |placeholders| :: PlaceholderOf(i) in placeholders
    ensures placeholders == set i: nat | 1 <= i <= |placeholders| :: PlaceholderOf(i)
  {
    var n := |placeholders|;
    var all := set i: nat | 1 <= i <= n :: PlaceholderOf(i);
    forall p | p in placeholders ensures p in all {
      PlaceholderNumberInverts(p);
    }
    PlaceholdersUpTo(n);
    SubsetOfSameSize(placeholders, all);
  }

  lemma NumberedAreBounded(placeholders: set<string>, p: string)
    requires placeholders == set i: nat | 1 <= i <= |placeholders| :: PlaceholderOf(i)
    requires p in placeholders && ValidPlaceholder(p)
    ensures PlaceholderNumber(p) <= |placeholders|
  {
    var i: nat :| 1 <= i <= |placeholders| && PlaceholderOf(i) == p;
    PlaceholderNumberInverts(p);
    PlaceholderOfInjective(i, PlaceholderNumber(p));
  }

  /** Among valid placeholders, there are arguments exactly if they are $1..$n and the row has every column. */
  lemma ArgsExactly(keysColumns: map<string, string>, row: Row)
    requires forall p | p in keysColumns :: ValidPlaceholder(p)
    ensures
      var ps := keysColumns.Keys;
      LookupArgs(keysColumns, row).Some? <==>
        ps == (set i: nat | 1 <= i <= |ps| :: PlaceholderOf(i)) && forall p | p in keysColumns :: keysColumns[p] in row
  {
    var ps := keysColumns.Keys;
    if BoundedByCount(ps) {
      BoundedPlaceholdersAreNumbered(ps);
    }
    if ps == (set i: nat | 1 <= i <= |ps| :: PlaceholderOf(i)) {
      forall p | p in ps ensures PlaceholderNumber(p) <= |ps| {
        NumberedAreBounded(ps, p);
      }
    }
  }

  // ----- what an event asks for, in terms of its rows

  /** The row carries `values` in the columns: all are present and render, in this order. */
  ghost predicate CarriedBy(row: Option<Row>, columns: seq<string>, values: seq<string>) {
    && row.Some? && |values| == |columns|
    && forall i | 0 <= i < |columns| ::
         columns[i] in row.value && ChannelValue(row.value[columns[i]]) == Some(values[i])
  }

  lemma CarriesOnlyThese(row: Option<Row>, columns: seq<string>, a: seq<string>, b: seq<string>)
    requires CarriedBy(row, columns, a) && CarriedBy(row, columns, b)
    ensures a == b
  {
  }

  /** The old or the new row carries them. */
  ghost predicate Carries(event: Event, columns: seq<string>, values: seq<string>) {
    CarriedBy(event.oldData, columns, values) || CarriedBy(event.newData, columns, values)
  }

  /** A column watch marks exactly the doc of the row's values, and nothing for a row that does not carry values. */
  lemma RowOpsExactly(query: QueryDef, watch: Watch, row: Option<Row>, op: Op)
    ensures op in RowOps(query, watch, row) <==>
      exists values :: CarriedBy(row, watch.columns, values) && op == Mark(BuildChannel(query.name, values))
  {
    if row.Some? {
      if RowSegments(watch.columns, row.value).Some? {
        var values := RowSegments(watch.columns, row.value).value;
        forall i | 0 <= i < |watch.columns| ensures ChannelValue(row.value[watch.columns[i]]) == Some(values[i]) {
          assert ColumnValues(watch.columns, row.value)[i] == row.value[watch.columns[i]];
        }
        assert CarriedBy(row, watch.columns, values);
      }
      forall values | CarriedBy(row, watch.columns, values)
        ensures RowSegments(watch.columns, row.value) == Some(values)
      {
        assert RenderAll(ColumnValues(watch.columns, row.value)) == values;
      }
    }
  }

  /** Placeholder `p` is `$i` for some 1 <= i <= |args|, and argument i is the value of its column. */
  ghost predicate FillsSlot(keysColumns: map<string, string>, row: Row, args: seq<Value>, p: string)
    requires p in keysColumns
  {
    && ValidPlaceholder(p) && 1 <= PlaceholderNumber(p) <= |args|
    && keysColumns[p] in row && args[PlaceholderNumber(p) - 1] == row[keysColumns[p]]
  }

  /** The row fills the reverse index with these arguments: one per placeholder, each from its own column. */
  ghost predicate Fills(keysColumns: map<string, string>, row: Row, args: seq<Value>) {
    |args| == |keysColumns| && forall p | p in keysColumns :: FillsSlot(keysColumns, row, args, p)
  }

  lemma ArgsFill(keysColumns: map<string, string>, row: Row, args: seq<Value>)
    ensures LookupArgs(keysColumns, row) == Some(args) <==> Fills(keysColumns, row, args)
  {
    assert |keysColumns| == |keysColumns.Keys|;
    if Fills(keysColumns, row, args) {
      assert forall p | p in keysColumns.Keys :: FillsSlot(keysColumns, row, args, p);
    }
    if BoundedByCount(keysColumns.Keys) && forall p | p in keysColumns :: keysColumns[p] in row {
      var filled := LookupArgs(keysColumns, row).value;
      forall p | p in keysColumns ensures FillsSlot(keysColumns, row, filled, p) {
        assert p in keysColumns.Keys;
        PlaceholderNumberInverts(p);
      }
      if Fills(keysColumns, row, args) {
        SameFill(keysColumns, row, args, filled);
      }
    }
  }

  /** There is only one way to fill the slots. */
  lemma SameFill(keysColumns: map<string, string>, row: Row, a: seq<Value>, b: seq<Value>)
    requires BoundedByCount(keysColumns.Keys) && Fills(keysColumns, row, a) && Fills(keysColumns, row, b)
    ensures a == b
  {
    assert |keysColumns| == |keysColumns.Keys|;
    BoundedPlaceholdersAreNumbered(keysColumns.Keys);
    forall i | 0 <= i < |a| ensures a[i] == b[i] {
      var p := PlaceholderOf(i + 1);
      assert p in keysColumns;
      assert FillsSlot(keysColumns, row, a, p) && FillsSlot(keysColumns, row, b, p);
      PlaceholderNumberInverts(p);
      PlaceholderOfInjective(i + 1, PlaceholderNumber(p));
    }
  }

  /** The row supplies the arguments of the watch's reverse index. */
  ghost predicate SuppliedBy(row: Option<Row>, watch: Watch, args: seq<Value>) {
    row.Some? && Fills(watch.keysColumns, row.value, args)
  }

  /** The event's new row does, or its old row if there is no new one. */
  ghost predicate Supplies(event: Event, watch: Watch, args: seq<Value>) {
    SuppliedBy(if event.newData.Some? then event.newData else event.oldData, watch, args)
  }

  /** A reverse-index watch asks exactly for the run with the arguments supplied, and for none if there are none. */
  lemma AskOpsExactly(query: QueryDef, watch: Watch, event: Event, op: Op)
    ensures op in AskOps(query, watch, event) <==>
      exists args ::
        && Supplies(event, watch, args)
        && op == Ask(LookupKey(query.name, watch.keysSql, args), Lookup(query, watch, args))
  {
    var row := if event.newData.Some? then event.newData else event.oldData;
    if row.Some? {
      if LookupArgs(watch.keysColumns, row.value).Some? {
        var args := LookupArgs(watch.keysColumns, row.value).value;
        ArgsFill(watch.keysColumns, row.value, args);
        assert Supplies(event, watch, args);
      }
      forall args | Supplies(event, watch, args) ensures LookupArgs(watch.keysColumns, row.value) == Some(args) {
        ArgsFill(watch.keysColumns, row.value, args);
      }
    }
  }

  /** A watch under the event's table names doc `c`: by the values of a row, or as the one doc of a bare watch. */
  ghost predicate MarksBy(ref: WatchRef, event: Event, c: Channel) {
    if HasColumns(ref.watch) then
      exists values :: Carries(event, ref.watch.columns, values) && c == BuildChannel(ref.queryName, values)
    else !HasKeysSql(ref.watch) && c == BuildChannel(ref.queryName, [])
  }

  /** It asks for the run of its reverse index with the arguments the event supplies. */
  ghost predicate AsksBy(queries: map<string, QueryDef>, ref: WatchRef, event: Event, key: LookupKey, lookup: Lookup)
    requires ref.queryName in queries
  {
    && !HasColumns(ref.watch) && HasKeysSql(ref.watch)
    && exists args ::
         && Supplies(event, ref.watch, args)
         && key == LookupKey(ref.queryName, ref.watch.keysSql, args)
         && lookup == Lookup(queries[ref.queryName], ref.watch, args)
  }

  ghost predicate WantedBy(queries: map<string, QueryDef>, ref: WatchRef, event: Event, op: Op)
    requires ref.queryName in queries
  {
    match op
    case Mark(c) => MarksBy(ref, event, c)
    case Ask(key, lookup) => AsksBy(queries, ref, event, key, lookup)
  }

  lemma RefOpsExactly(queries: map<string, QueryDef>, ref: WatchRef, event: Event, op: Op)
    requires ref.queryName in queries && queries[ref.queryName].name == ref.queryName
    ensures op in RefOps(queries, ref, event) <==> WantedBy(queries, ref, event, op)
  {
    var query := queries[ref.queryName];
    if HasColumns(ref.watch) {
      RowOpsExactly(query, ref.watch, event.oldData, op);
      RowOpsExactly(query, ref.watch, event.newData, op);
    } else if HasKeysSql(ref.watch) {
      AskOpsExactly(query, ref.watch, event, op);
    }
  }

  /**
   * An event marks a doc exactly if a column watch of its table names it by the values of the old or new row, or a bare
   * watch of its table by itself; it asks for a lookup exactly if a reverse-index watch of its table is supplied with
   * the arguments.
   */
  lemma EventOpsExactly(config: Config, event: Event, op: Op)
    requires WellFormed(config)
    ensures op in EventOps(config, event) <==>
      exists ref ::
        && HasRef(config.watches, event.table, ref) && ref.queryName in config.queries
        && WantedBy(config.queries, ref, event, op)
  {
    var refs := RefsOf(config, event.table);
    forall k | 0 <= k < |refs|
      ensures refs[k].queryName in config.queries && config.queries[refs[k].queryName].name == refs[k].queryName
    {
      assert RefFits(config.queries, event.table, refs[k]);
    }
    RefsOpsExactly(config.queries, refs, event, op);
    if k :| AskedBy(config.queries, refs, event, op, k) {
      RefOpsExactly(config.queries, refs[k], event, op);
      assert HasRef(config.watches, event.table, refs[k]);
    }
    forall ref |
      HasRef(config.watches, event.table, ref) && ref.queryName in config.queries
      && WantedBy(config.queries, ref, event, op)
      ensures op in EventOps(config, event)
    {
      var k :| 0 <= k < |refs| && refs[k] == ref;
      RefOpsExactly(config.queries, refs[k], event, op);
      assert AskedBy(config.queries, refs, event, op, k);
    }
  }

  // ----- what rows and watches ask for

  /** Row `i` names the doc `c`: every value renders, and `c` is the channel of the rendered values in column order. */
  ghost predicate RowNames(query: QueryDef, row: seq<Value>, c: Channel) {
    exists values: seq<string> ::
      && |values| == |row|
      && (forall i | 0 <= i < |row| :: ChannelValue(row[i]) == Some(values[i]))
      && c == BuildChannel(query.name, values)
  }

  lemma RowNamesExactly(query: QueryDef, row: seq<Value>, c: Channel)
    ensures RowNames(query, row, c) <==> AllRender(row) && c == BuildChannel(query.name, RenderAll(row))
  {
    if RowNames(query, row, c) {
      var values: seq<string> :|
        |values| == |row| && (forall i | 0 <= i < |row| :: ChannelValue(row[i]) == Some(values[i]))
        && c == BuildChannel(query.name, values);
      assert values == RenderAll(row);
    }
    if AllRender(row) {
      var values := RenderAll(row);
      assert forall i | 0 <= i < |row| :: ChannelValue(row[i]) == Some(values[i]);
    }
  }

  /** The run gets to row `i`: the rows up to it all have the query's width. */
  ghost predicate Gets(query: QueryDef, rows: seq<seq<Value>>, i: int) {
    0 <= i < |rows| && forall k | 0 <= k <= i :: |rows[k]| == query.arity
  }

  lemma GetsNext(query: QueryDef, rows: seq<seq<Value>>, i: nat)
    requires rows != [] && |rows[0]| == query.arity
    ensures Gets(query, rows, 0)
    ensures Gets(query, rows, i + 1) <==> Gets(query, rows[1..], i)
  {
    var rest := rows[1..];
    if Gets(query, rows, i + 1) {
      assert forall k | 0 <= k <= i :: rest[k] == rows[k + 1];
    }
    if Gets(query, rest, i) {
      assert forall k | 1 <= k <= i + 1 :: rows[k] == rest[k - 1];
    }
  }

  ghost predicate NamedBy(query: QueryDef, rows: seq<seq<Value>>, i: int, c: Channel) {
    Gets(query, rows, i) && RowNames(query, rows[i], c)
  }

  /** A run marks exactly the docs named by rows before the first of the wrong width; unrenderable rows name none. */
  lemma {:induction false} RowChannelsExactly(query: QueryDef, rows: seq<seq<Value>>, c: Channel)
    ensures c in RowChannels(query, rows) <==> exists i :: NamedBy(query, rows, i, c)
  {
    if rows != [] && |rows[0]| == query.arity {
      var rest := rows[1..];
      RowChannelsExactly(query, rest, c);
      RowNamesExactly(query, rows[0], c);
      GetsNext(query, rows, 0);
      if c in RowChannels(query, rest) {
        var i :| NamedBy(query, rest, i, c);
        GetsNext(query, rows, i);
        assert NamedBy(query, rows, i + 1, c);
      }
      if RowNames(query, rows[0], c) {
        assert NamedBy(query, rows, 0, c);
      }
      forall i | NamedBy(query, rows, i, c) && i > 0 ensures c in RowChannels(query, rest) {
        GetsNext(query, rows, i - 1);
        assert NamedBy(query, rest, i - 1, c);
      }
    } else {
      assert forall i :: !Gets(query, rows, i);
    }
  }

  ghost predicate AskedBy(queries: map<string, QueryDef>, refs: seq<WatchRef>, event: Event, op: Op, k: int)
    requires forall i | 0 <= i < |refs| :: refs[i].queryName in queries
  {
    0 <= k < |refs| && op in RefOps(queries, refs[k], event)
  }

  lemma {:induction false} AskedWatch(queries: map<string, QueryDef>, refs: seq<WatchRef>, event: Event, op: Op)
    returns (k: int)
    requires forall i | 0 <= i < |refs| :: refs[i].queryName in queries
    requires op in RefsOps(queries, refs, event)
    ensures AskedBy(queries, refs, event, op, k)
  {
    var n := |refs| - 1;
    if op in RefOps(queries, refs[n], event) {
      k := n;
    } else {
      k := AskedWatch(queries, refs[..n], event, op);
      assert refs[..n][k] == refs[k];
    }
  }

  lemma {:induction false} WatchAsks(queries: map<string, QueryDef>, refs: seq<WatchRef>, event: Event, op: Op, k: int)
    requires forall i | 0 <= i < |refs| :: refs[i].queryName in queries
    requires AskedBy(queries, refs, event, op, k)
    ensures op in RefsOps(queries, refs, event)
  {
    var n := |refs| - 1;
    if k == n {
    } else {
      assert refs[..n][k] == refs[k];
      WatchAsks(queries, refs[..n], event, op, k);
    }
  }

  /** An event asks exactly for what the watches of its table ask for. */
  lemma RefsOpsExactly(queries: map<string, QueryDef>, refs: seq<WatchRef>, event: Event, op: Op)
    requires forall i | 0 <= i < |refs| :: refs[i].queryName in queries
    ensures op in RefsOps(queries, refs, event) <==> exists k :: AskedBy(queries, refs, event, op, k)
  {
    if op in RefsOps(queries, refs, event) {
      var k := AskedWatch(queries, refs, event, op);
    }
    if k :| AskedBy(queries, refs, event, op, k) {
      WatchAsks(queries, refs, event, op, k);
    }
  }

  /** The slots after the placeholders in `done`; `writes[i]` counts the writes to slot i. */
  ghost predicate Filled(
    keysColumns: map<string, string>, row: Row, done: set<string>, slots: seq<Value>, writes: seq<nat>)
  {
    && |slots| == |writes| == |keysColumns.Keys|
    && (forall p | p in done :: p in keysColumns && 1 <= PlaceholderNumber(p) <= |slots|
                                && keysColumns[p] in row && slots[PlaceholderNumber(p) - 1] == row[keysColumns[p]])
    && (forall i | 1 <= i <= |slots| :: writes[i - 1] == if PlaceholderOf(i) in done then 1 else 0)
  }

  lemma FillStep(
    keysColumns: map<string, string>, row: Row, done: set<string>, slots: seq<Value>, writes: seq<nat>, p: string)
    requires done <= keysColumns.Keys && forall p | p in keysColumns :: ValidPlaceholder(p)
    requires Filled(keysColumns, row, done, slots, writes)
    requires p in keysColumns && p !in done && keysColumns[p] in row
    requires 1 <= PlaceholderNumber(p) <= |slots|
    ensures
      var i := PlaceholderNumber(p) - 1;
      Filled(keysColumns, row, done + {p}, slots[i := row[keysColumns[p]]], writes[i := writes[i] + 1])
  {
    var index := PlaceholderNumber(p);
    PlaceholderNumberInverts(p);
    forall q | q in done ensures PlaceholderNumber(q) != index {
      PlaceholderNumberInverts(q);
    }
    forall i | 1 <= i <= |slots| && PlaceholderOf(i) == p ensures i == index {
      PlaceholderOfInjective(i, index);
    }
  }

  lemma SlotFilled(
    keysColumns: map<string, string>, row: Row, slots: seq<Value>, writes: seq<nat>, i: nat)
    requires forall p | p in keysColumns :: ValidPlaceholder(p)
    requires Filled(keysColumns, row, keysColumns.Keys, slots, writes)
    requires 1 <= i <= |slots| && PlaceholderOf(i) in keysColumns.Keys && keysColumns[PlaceholderOf(i)] in row
    ensures slots[i - 1] == Slot(keysColumns, row, i) && writes[i - 1] == 1
  {
    PlaceholderNumberInverts(PlaceholderOf(i));
    PlaceholderOfInjective(i, PlaceholderNumber(PlaceholderOf(i)));
  }

  lemma Unfillable(keysColumns: map<string, string>, row: Row, p: string)
    requires p in keysColumns && ValidPlaceholder(p)
    requires PlaceholderNumber(p) > |keysColumns.Keys| || keysColumns[p] !in row
    ensures LookupArgs(keysColumns, row) == None
  {
    assert p in keysColumns.Keys;
  }

  lemma AllFilled(keysColumns: map<string, string>, row: Row, slots: seq<Value>, writes: seq<nat>)
    requires forall p | p in keysColumns :: ValidPlaceholder(p)
    requires Filled(keysColumns, row, keysColumns.Keys, slots, writes)
    ensures LookupArgs(keysColumns, row) == Some(slots)
    ensures forall i | 0 <= i < |writes| :: writes[i] == 1
  {
    BoundedPlaceholdersAreNumbered(keysColumns.Keys);
    forall i | 0 <= i < |slots| ensures slots[i] == LookupArgs(keysColumns, row).value[i] && writes[i] == 1 {
      SlotFilled(keysColumns, row, slots, writes, i + 1);
    }
    assert slots == LookupArgs(keysColumns, row).value;
  }

  /** One slot: none if the placeholder is out of range or its column is missing. */
  method FillSlot(
    keysColumns: map<string, string>, row: Row, placeholder: string,
    slots: seq<Value>, ghost done: set<string>, ghost writes: seq<nat>)
    returns (filled: Option<seq<Value>>, ghost written: seq<nat>)
    requires forall p | p in keysColumns :: ValidPlaceholder(p)
    requires placeholder in keysColumns && placeholder !in done
    requires Filled(keysColumns, row, done, slots, writes)
    ensures filled.Some? ==> Filled(keysColumns, row, done + {placeholder}, filled.value, written)
    ensures filled.None? ==> LookupArgs(keysColumns, row) == None
  {
    written := writes;
    var index := PlaceholderNumber(placeholder);
    PlaceholderNumberInverts(placeholder);
    var column := keysColumns[placeholder];
    if index < 1 || index > |slots| || column !in row {
      Unfillable(keysColumns, row, placeholder);
      return None, written;
    }
    FillStep(keysColumns, row, done, slots, writes, placeholder);
    filled := Some(slots[index - 1 := row[column]]);
    written := writes[index - 1 := writes[index - 1] + 1];
  }

  /**
   * Fills the argument slots in whatever order the placeholders come. On success each slot has been written
   * exactly once, with its own placeholder's column.
   */
  method FillArgs(keysColumns: map<string, string>, row: Row)
    returns (args: Option<seq<Value>>, ghost writes: seq<nat>)
    requires forall p | p in keysColumns :: ValidPlaceholder(p)
    ensures args == LookupArgs(keysColumns, row)
    ensures args.Some? ==> |writes| == |args.value| && forall i | 0 <= i < |writes| :: writes[i] == 1
  {
    var slots: seq<Value> := seq(|keysColumns.Keys|, i => Null);
    writes := seq(|keysColumns.Keys|, i => 0);
    var rest := keysColumns.Keys;
    while rest != {}
      invariant rest <= keysColumns.Keys
      invariant Filled(keysColumns, row, keysColumns.Keys - rest, slots, writes)
      decreases rest
    {
      var placeholder :| placeholder in rest;
      ghost var done := keysColumns.Keys - rest;
      args, writes := FillSlot(keysColumns, row, placeholder, slots, done, writes);
      if args.None? {
        return;
      }
      slots := args.value;
      rest := rest - {placeholder};
      assert done + {placeholder} == keysColumns.Keys - rest;
    }
    assert keysColumns.Keys - rest == keysColumns.Keys;
    AllFilled(keysColumns, row, slots, writes);
    args := Some(slots);
  }
}
