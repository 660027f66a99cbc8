/** The pgoutput decoder (decodeWALData, decodeTuple) and its synchrony with the server's framing. */
module Decoder {
  import opened Wrappers
  import opened Values

  type RelationId = nat

  datatype Column = NullColumn | UnchangedColumn | TextColumn(value: Value) | OtherColumn

  type Tuple = seq<Column>

  datatype Relation = Relation(schema: string, name: string, columns: seq<string>)

  /** A message of the logical replication protocol, as far as the decoder looks at it. */
  datatype Logical =
    | RelationMessage(id: RelationId, relation: Relation)
    | Insert(id: RelationId, tuple: Option<Tuple>)
    | Update(id: RelationId, before: Option<Tuple>, tuple: Option<Tuple>)
    | Delete(id: RelationId, before: Option<Tuple>)
    | Truncate(ids: seq<RelationId>)
    | StreamStart
    | StreamStop
    | Skipped

  /**
   * A message as the server sends it: `framed` says that a transaction id precedes the body, as inside a streamed
   * transaction. Messages that are never framed carry false.
   */
  datatype Wire = Wire(framed: bool, body: Logical)

  datatype Parse = Parsed(message: Logical) | ParseError

  datatype Operation = Inserted | Updated | Deleted | Truncated

  datatype Event = Event(
    operation: Operation, schema: string, table: string, oldData: Option<Row>, newData: Option<Row>)

  /** The kinds of message whose framing depends on the stream flag. */
  predicate Frameable(body: Logical) {
    body.RelationMessage? || body.Insert? || body.Update? || body.Delete? || body.Truncate?
  }

  /** The parser reads what was sent if its flag agrees with the framing, and `misread` otherwise. */
  function ParseV2(wire: Wire, inStream: bool, misread: Parse): Parse {
    if Frameable(wire.body) && wire.framed != inStream then misread else Parsed(wire.body)
  }

  // ----- what the decoder computes

  predicate Fits(tuple: Option<Tuple>, relation: Relation) {
    tuple.None? || |tuple.value| <= |relation.columns|
  }

  function ColumnValue(column: Column): Option<Value> {
    match column
    case NullColumn => Some(Null)
    case UnchangedColumn => Some(Toast)
    case TextColumn(value) => Some(value)
    case OtherColumn => None
  }

  function TupleRow(tuple: Tuple, columns: seq<string>): Row
    requires |tuple| <= |columns|
  {
    if tuple == [] then map[]
    else
      var n := |tuple| - 1;
      var before := TupleRow(tuple[..n], columns);
      match ColumnValue(tuple[n])
      case Some(value) => before[columns[n] := value]
      case None => before
  }

  function OptionalRow(tuple: Option<Tuple>, relation: Relation): Option<Row>
    requires Fits(tuple, relation)
  {
    if tuple.None? then None else Some(TupleRow(tuple.value, relation.columns))
  }

  predicate TuplesFit(relations: map<RelationId, Relation>, body: Logical) {
    match body
    case Insert(id, tuple) => id in relations ==> Fits(tuple, relations[id])
    case Update(id, before, tuple) => id in relations ==> Fits(before, relations[id]) && Fits(tuple, relations[id])
    case Delete(id, before) => id in relations ==> Fits(before, relations[id])
    case _ => true
  }

  function TruncateEvents(relations: map<RelationId, Relation>, ids: seq<RelationId>): seq<Event> {
    if ids == [] then []
    else
      var id := ids[|ids| - 1];
      TruncateEvents(relations, ids[..|ids| - 1])
      + if id in relations then [Event(Truncated, relations[id].schema, relations[id].name, None, None)] else []
  }

  /** The events of one message, given the relations known when it arrives. */
  function EventsOf(relations: map<RelationId, Relation>, body: Logical): seq<Event>
    requires TuplesFit(relations, body)
  {
    match body
    case Insert(id, tuple) =>
      if id !in relations then []
      else [Event(Inserted, relations[id].schema, relations[id].name, None, OptionalRow(tuple, relations[id]))]
    case Update(id, before, tuple) =>
      if id !in relations then []
      else [Event(Updated, relations[id].schema, relations[id].name,
                  OptionalRow(before, relations[id]), OptionalRow(tuple, relations[id]))]
    case Delete(id, before) =>
      if id !in relations then []
      else [Event(Deleted, relations[id].schema, relations[id].name, OptionalRow(before, relations[id]), None)]
    case Truncate(ids) => TruncateEvents(relations, ids)
    case _ => []
  }

  // ----- the server's side

  /** Whether a streamed transaction is open after the messages. */
  function StreamOpen(sent: seq<Wire>): bool {
    if sent == [] then false
    else
      match sent[|sent| - 1].body
      case StreamStart => true
      case StreamStop => false
      case _ => StreamOpen(sent[..|sent| - 1])
  }

  /** The latest description the server has sent of each relation. */
  function Described(sent: seq<Wire>): map<RelationId, Relation> {
    if sent == [] then map[]
    else
      match sent[|sent| - 1].body
      case RelationMessage(id, relation) => Described(sent[..|sent| - 1])[id := relation]
      case _ => Described(sent[..|sent| - 1])
  }

  /** A server frames exactly the messages of streamed transactions, and sends tuples of their relation's width. */
  ghost predicate Consistent(sent: seq<Wire>) {
    forall i | 0 <= i < |sent| ::
      && (Frameable(sent[i].body) ==> sent[i].framed == StreamOpen(sent[..i]))
      && TuplesFit(Described(sent[..i]), sent[i].body)
  }

  /** Every relation has been described before it is used. */
  ghost predicate Announced(sent: seq<Wire>) {
    forall i | 0 <= i < |sent| :: Refers(sent[i].body) <= Described(sent[..i]).Keys
  }

  function Refers(body: Logical): set<RelationId> {
    match body
    case Insert(id, _) => {id}
    case Update(id, _, _) => {id}
    case Delete(id, _) => {id}
    case Truncate(ids) => set id | id in ids
    case _ => {}
  }

  /** The events of the first `n` messages, each under the relations described before it. */
  ghost function EventsSent(sent: seq<Wire>, n: nat): seq<Event>
    requires Consistent(sent) && n <= |sent|
  {
    if n == 0 then [] else EventsSent(sent, n - 1) + EventsOf(Described(sent[..n - 1]), sent[n - 1].body)
  }

  // ----- completeness

  /** The last description of relation `id` among the messages is `relation`. */
  ghost predicate LatestDescription(sent: seq<Wire>, id: RelationId, relation: Relation) {
    exists j ::
      && 0 <= j < |sent| && sent[j].body == RelationMessage(id, relation)
      && forall k | j < k < |sent| :: !(sent[k].body.RelationMessage? && sent[k].body.id == id)
  }

  lemma {:induction false} DescribedIsLatest(sent: seq<Wire>, id: RelationId)
    requires id in Described(sent)
    ensures LatestDescription(sent, id, Described(sent)[id])
  {
    var n := |sent| - 1;
    if sent[n].body.RelationMessage? && sent[n].body.id == id {
      assert sent[n].body == RelationMessage(id, Described(sent)[id]);
    } else {
      DescribedIsLatest(sent[..n], id);
      var j :| 0 <= j < n && sent[..n][j].body == RelationMessage(id, Described(sent)[id])
               && forall k | j < k < n :: !(sent[..n][k].body.RelationMessage? && sent[..n][k].body.id == id);
      assert sent[j].body == RelationMessage(id, Described(sent)[id]);
      forall k | j < k < |sent| ensures !(sent[k].body.RelationMessage? && sent[k].body.id == id) {
        assert k < n ==> sent[..n][k] == sent[k];
      }
    }
  }

  // ----- what a row message says

  /** Column `i` of the tuple carries a value: it is text, null or unchanged. */
  predicate HasValue(tuple: Tuple, i: int) { 0 <= i < |tuple| && !tuple[i].OtherColumn? }

  /** No later column of the tuple with the same name carries a value. */
  ghost predicate LastOfName(tuple: Tuple, columns: seq<string>, i: nat)
    requires i < |tuple| <= |columns|
  {
    forall j | i < j < |tuple| && HasValue(tuple, j) :: columns[j] != columns[i]
  }

  /** The row has the text columns with their values, the null and unchanged ones as such, and no other column. */
  ghost predicate RowHolds(row: Row, tuple: Tuple, columns: seq<string>)
    requires |tuple| <= |columns|
  {
    && (forall i: nat | HasValue(tuple, i) && LastOfName(tuple, columns, i) ::
          && columns[i] in row
          && (tuple[i].TextColumn? ==> row[columns[i]] == tuple[i].value)
          && (tuple[i].NullColumn? ==> row[columns[i]] == Null)
          && (tuple[i].UnchangedColumn? ==> row[columns[i]] == Toast))
    && (forall name | name in row :: exists i: nat :: HasValue(tuple, i) && columns[i] == name)
  }

  /** There is a row exactly if there is a tuple, and it holds the tuple's columns. */
  ghost predicate RowIs(row: Option<Row>, tuple: Option<Tuple>, relation: Relation)
    requires Fits(tuple, relation)
  {
    (row.Some? <==> tuple.Some?) && (tuple.Some? ==> RowHolds(row.value, tuple.value, relation.columns))
  }

  predicate IsRowMessage(body: Logical) { body.Insert? || body.Update? || body.Delete? }

  /** The event is the row change of the message: the new row of an insert, both of an update, the old of a delete. */
  ghost predicate IsRowEvent(event: Event, body: Logical, relation: Relation)
    requires IsRowMessage(body)
  {
    && event.schema == relation.schema && event.table == relation.name
    && match body
       case Insert(_, tuple) =>
         event.operation.Inserted? && event.oldData.None?
         && Fits(tuple, relation) && RowIs(event.newData, tuple, relation)
       case Update(_, before, tuple) =>
         event.operation.Updated?
         && Fits(before, relation) && RowIs(event.oldData, before, relation)
         && Fits(tuple, relation) && RowIs(event.newData, tuple, relation)
       case Delete(_, before) =>
         event.operation.Deleted? && event.newData.None?
         && Fits(before, relation) && RowIs(event.oldData, before, relation)
  }

  lemma LastOfShorter(tuple: Tuple, columns: seq<string>, i: nat, n: nat)
    requires i < n == |tuple| - 1 && |tuple| <= |columns| && LastOfName(tuple, columns, i)
    ensures LastOfName(tuple[..n], columns, i) && (HasValue(tuple, n) ==> columns[n] != columns[i])
  {
    assert forall j | i < j < n && HasValue(tuple[..n], j) :: HasValue(tuple, j);
  }

  lemma ColumnsFromTuple(row: Row, tuple: Tuple, columns: seq<string>, n: nat, name: string)
    requires n == |tuple| - 1 && |tuple| <= |columns| && RowHolds(row, tuple[..n], columns) && name in row
    ensures exists i: nat :: HasValue(tuple, i) && columns[i] == name
  {
    var i: nat :| HasValue(tuple[..n], i) && columns[i] == name;
    assert HasValue(tuple, i);
  }

  lemma LastsHold(before: Row, row: Row, tuple: Tuple, columns: seq<string>, n: nat, i: nat)
    requires n == |tuple| - 1 && |tuple| <= |columns| && RowHolds(before, tuple[..n], columns)
    requires row == match ColumnValue(tuple[n]) case Some(value) => before[columns[n] := value] case None => before
    requires HasValue(tuple, i) && LastOfName(tuple, columns, i)
    ensures columns[i] in row && Some(row[columns[i]]) == ColumnValue(tuple[i])
  {
    if i < n {
      LastOfShorter(tuple, columns, i, n);
      assert HasValue(tuple[..n], i);
    }
  }

  lemma {:induction false} TupleRowHolds(tuple: Tuple, columns: seq<string>)
    requires |tuple| <= |columns|
    ensures RowHolds(TupleRow(tuple, columns), tuple, columns)
  {
    if tuple == [] {
    } else {
      var n := |tuple| - 1;
      var before, row := TupleRow(tuple[..n], columns), TupleRow(tuple, columns);
      TupleRowHolds(tuple[..n], columns);
      forall i: nat | HasValue(tuple, i) && LastOfName(tuple, columns, i)
        ensures columns[i] in row && Some(row[columns[i]]) == ColumnValue(tuple[i])
      {
        LastsHold(before, row, tuple, columns, n, i);
      }
      forall name | name in row ensures exists i: nat :: HasValue(tuple, i) && columns[i] == name {
        if name in before {
          ColumnsFromTuple(before, tuple, columns, n, name);
        } else {
          assert HasValue(tuple, n);
        }
      }
    }
  }

  lemma OptionalRowIs(tuple: Option<Tuple>, relation: Relation)
    requires Fits(tuple, relation)
    ensures RowIs(OptionalRow(tuple, relation), tuple, relation)
  {
    if tuple.Some? {
      TupleRowHolds(tuple.value, relation.columns);
    }
  }

  /** The events of a truncate: one per listed relation that is known, in order, without rows. */
  ghost predicate AreTruncates(events: seq<Event>, relations: map<RelationId, Relation>, ids: seq<RelationId>)
    decreases |ids|
  {
    if ids == [] then events == []
    else if ids[0] !in relations then AreTruncates(events, relations, ids[1..])
    else
      && events != []
      && events[0] == Event(Truncated, relations[ids[0]].schema, relations[ids[0]].name, None, None)
      && AreTruncates(events[1..], relations, ids[1..])
  }

  /** The events are what the message says about the relations known when it arrives. */
  ghost predicate Says(relations: map<RelationId, Relation>, body: Logical, events: seq<Event>) {
    if IsRowMessage(body) then
      if body.id in relations then |events| == 1 && IsRowEvent(events[0], body, relations[body.id]) else events == []
    else if body.Truncate? then AreTruncates(events, relations, body.ids)
    else events == []
  }

  lemma {:induction false} TruncatesNext(
    events: seq<Event>, relations: map<RelationId, Relation>, ids: seq<RelationId>, id: RelationId)
    requires AreTruncates(events, relations, ids)
    ensures
      var more :=
        if id in relations then [Event(Truncated, relations[id].schema, relations[id].name, None, None)] else [];
      AreTruncates(events + more, relations, ids + [id])
    decreases |ids|
  {
    if ids == [] {
      assert ([] + [id])[1..] == [];
      if id in relations {
        var event := Event(Truncated, relations[id].schema, relations[id].name, None, None);
        assert (events + [event])[1..] == [];
      } else {
        assert events + [] == [];
      }
    } else {
      assert (ids + [id])[1..] == ids[1..] + [id];
      if ids[0] in relations {
        var more :=
          if id in relations then [Event(Truncated, relations[id].schema, relations[id].name, None, None)] else [];
        TruncatesNext(events[1..], relations, ids[1..], id);
        assert (events + more)[1..] == events[1..] + more;
      } else {
        TruncatesNext(events, relations, ids[1..], id);
      }
    }
  }

  lemma {:induction false} TruncateEventsAre(relations: map<RelationId, Relation>, ids: seq<RelationId>)
    ensures AreTruncates(TruncateEvents(relations, ids), relations, ids)
  {
    if ids == [] {
    } else {
      var n := |ids| - 1;
      TruncateEventsAre(relations, ids[..n]);
      TruncatesNext(TruncateEvents(relations, ids[..n]), relations, ids[..n], ids[n]);
      assert ids[..n] + [ids[n]] == ids;
    }
  }

  /** The decoder's events are what the message says. */
  lemma EventsSaid(relations: map<RelationId, Relation>, body: Logical)
    requires TuplesFit(relations, body)
    ensures Says(relations, body, EventsOf(relations, body))
  {
    match body {
      case Insert(id, tuple) => if id in relations { OptionalRowIs(tuple, relations[id]); }
      case Update(id, before, tuple) =>
        if id in relations {
          OptionalRowIs(before, relations[id]);
          OptionalRowIs(tuple, relations[id]);
        }
      case Delete(id, before) => if id in relations { OptionalRowIs(before, relations[id]); }
      case Truncate(ids) => TruncateEventsAre(relations, ids);
      case _ =>
    }
  }

  /** Each message adds the events it says, under the relations described before it. */
  lemma EventsSentSay(sent: seq<Wire>, i: nat) returns (more: seq<Event>)
    requires Consistent(sent) && i < |sent|
    ensures EventsSent(sent, i + 1) == EventsSent(sent, i) + more && Says(Described(sent[..i]), sent[i].body, more)
  {
    more := EventsOf(Described(sent[..i]), sent[i].body);
    EventsSaid(Described(sent[..i]), sent[i].body);
  }

  lemma OneSaid(relations: map<RelationId, Relation>, body: Logical, events: seq<Event>) returns (event: Event)
    requires IsRowMessage(body) && body.id in relations && Says(relations, body, events)
    ensures events == [event] && IsRowEvent(event, body, relations[body.id])
  {
    event := events[0];
  }

  lemma IsAnnounced(sent: seq<Wire>, i: nat, id: RelationId)
    requires Announced(sent) && i < |sent| && id in Refers(sent[i].body)
    ensures id in Described(sent[..i])
  {
    assert Refers(sent[i].body) <= Described(sent[..i]).Keys;
  }

  /**
   * A row message whose relation has been described adds exactly one event: it is named by the latest description, and
   * holds the columns of the message's tuples under its column names.
   */
  lemma RowYieldsOneEvent(sent: seq<Wire>, i: nat) returns (event: Event, relation: Relation)
    requires Consistent(sent) && Announced(sent) && i < |sent| && IsRowMessage(sent[i].body)
    ensures EventsSent(sent, i + 1) == EventsSent(sent, i) + [event]
    ensures LatestDescription(sent[..i], sent[i].body.id, relation) && IsRowEvent(event, sent[i].body, relation)
  {
    var id := sent[i].body.id;
    IsAnnounced(sent, i, id);
    DescribedIsLatest(sent[..i], id);
    relation := Described(sent[..i])[id];
    var more := EventsSentSay(sent, i);
    event := OneSaid(Described(sent[..i]), sent[i].body, more);
  }

  /** A stream is open exactly after a start that no stop has followed. */
  lemma {:induction false} StreamOpenExactly(sent: seq<Wire>)
    ensures StreamOpen(sent) <==>
      exists j :: 0 <= j < |sent| && sent[j].body.StreamStart? && forall k | j < k < |sent| :: !sent[k].body.StreamStop?
  {
    if sent == [] {
    } else {
      var n := |sent| - 1;
      StreamOpenExactly(sent[..n]);
      assert forall k | 0 <= k < n :: sent[..n][k] == sent[k];
    }
  }

  lemma {:induction false} TruncateYieldsAll(relations: map<RelationId, Relation>, ids: seq<RelationId>)
    requires forall id | id in ids :: id in relations
    ensures |TruncateEvents(relations, ids)| == |ids|
    ensures forall k | 0 <= k < |ids| ::
        TruncateEvents(relations, ids)[k]
        == Event(Truncated, relations[ids[k]].schema, relations[ids[k]].name, None, None)
  {
    if ids == [] {
    } else {
      TruncateYieldsAll(relations, ids[..|ids| - 1]);
      assert ids[|ids| - 1] in ids;
    }
  }

  /** A truncate of described relations yields one event per listed relation, in order. */
  lemma TruncateYieldsOnePerRelation(sent: seq<Wire>, i: nat)
    requires Consistent(sent) && Announced(sent) && i < |sent| && sent[i].body.Truncate?
    ensures
      var ids := sent[i].body.ids;
      var events := EventsOf(Described(sent[..i]), sent[i].body);
      && |events| == |ids|
      && forall k | 0 <= k < |ids| ::
           && ids[k] in Described(sent[..i])
           && events[k].operation.Truncated? && events[k].oldData.None? && events[k].newData.None?
           && events[k].table == Described(sent[..i])[ids[k]].name
           && events[k].schema == Described(sent[..i])[ids[k]].schema
  {
    forall id | id in sent[i].body.ids ensures id in Described(sent[..i]) {
      assert id in Refers(sent[i].body);
    }
    TruncateYieldsAll(Described(sent[..i]), sent[i].body.ids);
  }

  // ----- the decoder

  class StreamDecoder {
    var relations: map<RelationId, Relation>
    var inStream: bool

    constructor ()
      ensures relations == map[] && !inStream
    {
      relations, inStream := map[], false;
    }

    method DecodeTuple(tuple: Option<Tuple>, relation: Relation) returns (row: Option<Row>)
      requires Fits(tuple, relation)
      ensures row == OptionalRow(tuple, relation) && RowIs(row, tuple, relation)
    {
      OptionalRowIs(tuple, relation);
      if tuple.None? {
        return None;
      }
      var values: Row := map[];
      for i := 0 to |tuple.value|
        invariant values == TupleRow(tuple.value[..i], relation.columns)
      {
        assert tuple.value[..i + 1][..i] == tuple.value[..i];
        match tuple.value[i] {
          case NullColumn => values := values[relation.columns[i] := Null];
          case UnchangedColumn => values := values[relation.columns[i] := Toast];
          case TextColumn(value) => values := values[relation.columns[i] := value];
          case OtherColumn =>
        }
      }
      assert tuple.value[..|tuple.value|] == tuple.value;
      row := Some(values);
    }

    /** One message, read correctly. */
    method Apply(message: Logical) returns (events: seq<Event>)
      requires TuplesFit(relations, message)
      modifies this
      ensures events == EventsOf(old(relations), message)
      ensures relations == if message.RelationMessage? then old(relations)[message.id := message.relation]
                           else old(relations)
      ensures inStream == (message.StreamStart? || (old(inStream) && !message.StreamStop?))
    {
      events := [];
      match message {
        case RelationMessage(id, relation) =>
          relations := relations[id := relation];
        case Insert(id, tuple) =>
          if id in relations {
            var row := DecodeTuple(tuple, relations[id]);
            events := [Event(Inserted, relations[id].schema, relations[id].name, None, row)];
          }
        case Update(id, before, tuple) =>
          if id in relations {
            var newRow := DecodeTuple(tuple, relations[id]);
            var oldRow := DecodeTuple(before, relations[id]);
            events := [Event(Updated, relations[id].schema, relations[id].name, oldRow, newRow)];
          }
        case Delete(id, before) =>
          if id in relations {
            var oldRow := DecodeTuple(before, relations[id]);
            events := [Event(Deleted, relations[id].schema, relations[id].name, oldRow, None)];
          }
        case Truncate(ids) =>
          for k := 0 to |ids|
            invariant events == TruncateEvents(relations, ids[..k])
            invariant relations == old(relations) && inStream == old(inStream)
          {
            assert ids[..k + 1][..k] == ids[..k];
            if ids[k] in relations {
              var relation := relations[ids[k]];
              events := events + [Event(Truncated, relation.schema, relation.name, None, None)];
            }
          }
          assert ids[..|ids|] == ids;
        case StreamStart => inStream := true;
        case StreamStop => inStream := false;
        case Skipped =>
      }
    }

    /** One message off the wire; `misread` is what the parser makes of a message framed against the flag. */
    method DecodeWal(wire: Wire, misread: Parse) returns (events: Option<seq<Event>>)
      requires match ParseV2(wire, inStream, misread)
               case Parsed(message) => TuplesFit(relations, message)
               case ParseError => true
      modifies this
      ensures match old(ParseV2(wire, inStream, misread))
              case Parsed(message) =>
                && events == Some(EventsOf(old(relations), message))
                && Says(old(relations), message, events.value)
                && relations == (if message.RelationMessage? then old(relations)[message.id := message.relation]
                                 else old(relations))
                && inStream == (message.StreamStart? || (old(inStream) && !message.StreamStop?))
              case ParseError => events == None && relations == old(relations) && inStream == old(inStream)
    {
      match ParseV2(wire, inStream, misread) {
        case ParseError =>
          events := None;
        case Parsed(message) =>
          EventsSaid(relations, message);
          var decoded := Apply(message);
          events := Some(decoded);
      }
    }
  }

  /** In step with the server before message `i`, the decoder reads it as sent. */
  lemma ReadsAsSent(sent: seq<Wire>, i: nat, misread: Parse)
    requires Consistent(sent) && i < |sent|
    ensures ParseV2(sent[i], StreamOpen(sent[..i]), misread) == Parsed(sent[i].body)
    ensures TuplesFit(Described(sent[..i]), sent[i].body)
  {
  }

  lemma SentNext(sent: seq<Wire>, i: nat)
    requires i < |sent|
    ensures sent[..i + 1][..i] == sent[..i] && sent[..i + 1][i] == sent[i]
    ensures
      StreamOpen(sent[..i + 1])
      == (sent[i].body.StreamStart? || (StreamOpen(sent[..i]) && !sent[i].body.StreamStop?))
    ensures Described(sent[..i + 1]) ==
      if sent[i].body.RelationMessage? then Described(sent[..i])[sent[i].body.id := sent[i].body.relation]
      else Described(sent[..i])
  {
    var longer := sent[..i + 1];
    assert longer[..|longer| - 1] == sent[..i];
  }

  /** The decoder has the flag and the relations of the server after `i` messages. */
  ghost predicate InStep(sent: seq<Wire>, i: int, inStream: bool, relations: map<RelationId, Relation>) {
    0 <= i <= |sent| && inStream == StreamOpen(sent[..i]) && relations == Described(sent[..i])
  }

  lemma StartsInStep(sent: seq<Wire>)
    ensures InStep(sent, 0, false, map[])
  {
    assert sent[..0] == [];
  }

  /** The flag has been that of the server's framing before each message. */
  ghost predicate FlagsAgree(sent: seq<Wire>, flags: seq<bool>) {
    |flags| <= |sent| && forall i | 0 <= i < |flags| :: flags[i] == StreamOpen(sent[..i])
  }

  lemma FlagsAgreeNext(sent: seq<Wire>, flags: seq<bool>, flag: bool)
    requires FlagsAgree(sent, flags) && |flags| < |sent| && flag == StreamOpen(sent[..|flags|])
    ensures FlagsAgree(sent, flags + [flag])
  {
  }

  /** Message `i`, read by a decoder in step with the server. */
  method ReadMessage(decoder: StreamDecoder, ghost sent: seq<Wire>, ghost i: nat, wire: Wire, misread: Parse)
    returns (events: seq<Event>)
    requires Consistent(sent) && i < |sent| && wire == sent[i]
    requires InStep(sent, i, decoder.inStream, decoder.relations)
    modifies decoder
    ensures EventsSent(sent, i + 1) == EventsSent(sent, i) + events
    ensures InStep(sent, i + 1, decoder.inStream, decoder.relations)
  {
    ReadsAsSent(sent, i, misread);
    SentNext(sent, i);
    var decoded := decoder.DecodeWal(wire, misread);
    events := decoded.value;
  }

  /**
   * One connection up to wherever it drops, with its fresh decoder. The flag agrees with the server's framing at
   * every message, so whatever a misread would give, the events are exactly those the server sent.
   */
  method ReadConnection(sent: seq<Wire>, misread: Parse) returns (events: seq<Event>, flags: seq<bool>)
    requires Consistent(sent)
    ensures events == EventsSent(sent, |sent|)
    ensures |flags| == |sent| && forall i | 0 <= i < |sent| :: flags[i] == StreamOpen(sent[..i])
  {
    var decoder := new StreamDecoder();
    StartsInStep(sent);
    events, flags := [], [];
    for i := 0 to |sent|
      invariant events == EventsSent(sent, i)
      invariant InStep(sent, i, decoder.inStream, decoder.relations)
      invariant |flags| == i && FlagsAgree(sent, flags)
      invariant fresh(decoder)
    {
      FlagsAgreeNext(sent, flags, decoder.inStream);
      flags := flags + [decoder.inStream];
      var decoded := ReadMessage(decoder, sent, i, sent[i], misread);
      events := events + decoded;
    }
  }

  /** Every connection has its own decoder, so a drop in the middle of a stream cannot disturb the next one. */
  method ReadConnections(connections: seq<seq<Wire>>, misread: Parse) returns (events: seq<seq<Event>>)
    requires forall k | 0 <= k < |connections| :: Consistent(connections[k])
    ensures |events| == |connections|
    ensures forall k | 0 <= k < |connections| :: events[k] == EventsSent(connections[k], |connections[k]|)
  {
    events := [];
    for k := 0 to |connections|
      invariant |events| == k && forall j | 0 <= j < k :: events[j] == EventsSent(connections[j], |connections[j]|)
    {
      var one, _ := ReadConnection(connections[k], misread);
      events := events + [one];
    }
  }
}
