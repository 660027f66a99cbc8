/** A definition with a reverse index for which the theorems about lookups have something to say. */
module Example {
  import opened Wrappers
  import opened Spec
  import opened Values
  import opened ChannelCodec
  import opened Definitions
  import opened EventMapping
  import opened Protocol
  import opened Guarantees
  import opened Convergence
  import opened ProtocolInvariants
  import opened Freshness
  import opened Staleness
  import opened System
  import opened EndToEnd

  const DOC_SQL := "select $1"
  const KEYS_SQL := "select 1"

  const WATCH := Watch("t", [], KEYS_SQL, map["$1" := "a"], 0)
  const QUERY := Query("q", DOC_SQL, [WATCH])
  const ARGS := [Int(1)]

  /** The tables built from the one definition. */
  ghost function Tables(): Config { ConfigOf([QUERY]) }

  /** A row of the table is inserted, and deleted again. */
  const EVENT := Event.Event("public.t", None, Some(map["a" := Int(1)]))
  const UNDO := Event.Event("public.t", Some(map["a" := Int(1)]), None)

  lemma {:induction false} ByteLengthBound(s: string)
    ensures ByteLength(s) <= 4 * |s|
  {
    if s == "" {
    } else {
      ByteLengthBound(s[..|s| - 1]);
    }
  }

  lemma StatementsAreAccepted()
    ensures ValidateSelect(DOC_SQL).None? && ValidateSelect(KEYS_SQL).None?
  {
    ByteLengthBound(DOC_SQL);
    ByteLengthBound(KEYS_SQL);
    assert DOC_SQL[0..9] == DOC_SQL && KEYS_SQL[0..8] == KEYS_SQL;
    assert IsStatement(DOC_SQL, 0, 9);
    assert IsStatement(KEYS_SQL, 0, 8);
    AcceptedSelects(DOC_SQL);
    AcceptedSelects(KEYS_SQL);
  }

  lemma DocHasOneParam()
    ensures ParamCountOf(DOC_SQL) == 1
  {
    assert RunEnd(DOC_SQL, 9) == 9 && RunEnd(DOC_SQL, 8) == 9;
    assert DOC_SQL[8..9] == "1" && "1"[..0] == "";
    assert Decimal("1") == 1;
    assert RefAt(DOC_SQL, 7, 1);
    ParamCountIsHighest(DOC_SQL);
    var n := ParamCountOf(DOC_SQL);
    var k :| RefAt(DOC_SQL, k, n);
    assert k == 7;
  }

  lemma WatchIsLookup()
    ensures LookupWatch(WATCH)
  {
    StatementsAreAccepted();
    AcceptedSelects(WATCH.keysSql);
    assert !IsSpace(KEYS_SQL[0]);
    assert ValidPlaceholder("$1") && ValidIdentifier("a");
    assert "$1" in WATCH.keysColumns;
  }

  lemma DefinitionIsValid()
    ensures ValidDefinitions([QUERY])
  {
    StatementsAreAccepted();
    DocHasOneParam();
    WatchIsLookup();
    assert ValidIdentifier("t") && ValidQueryName("q");
    AcceptedWatches(WATCH, 1);
    assert ValidateWatch(QUERY.watches[0], 1).None?;
    assert Validate(QUERY).None?;
  }

  lemma EventSupplies()
    ensures Supplies(EVENT, WATCH, ARGS) && Supplies(UNDO, WATCH, ARGS)
  {
    assert FormatNat(1) == "1" && PlaceholderOf(1) == "$1";
    assert "$1"[1..] == "1" && "1"[..0] == "";
    assert PlaceholderNumber("$1") == 1;
    assert WATCH.keysColumns.Keys == {"$1"};
    var row := map["a" := Int(1)];
    assert LookupArgs(WATCH.keysColumns, row).value == ARGS;
  }

  lemma RowNamesDoc() returns (rows: seq<seq<Value>>, c: Channel)
    ensures c in RowChannels(DefOf(QUERY), rows)
  {
    DocHasOneParam();
    rows := [[Text("x")]];
    assert AllRender(rows[0]);
    c := BuildChannel("q", RenderAll(rows[0]));
    assert RowChannels(DefOf(QUERY), rows)[0] == c;
  }

  lemma TablesDeclare(event: Event)
    requires event.table == "public.t"
    ensures Watches(Tables(), "q", WATCH, event) && !HasColumns(WATCH) && HasKeysSql(WATCH)
    ensures "q" in Tables().queries && Tables().queries["q"] == DefOf(QUERY)
  {
    DefinitionIsValid();
    assert !IsSpace(KEYS_SQL[0]);
    assert WATCH in QUERY.watches && QUERY in [QUERY];
    DeclaredWatches([QUERY], QUERY, WATCH, event);
  }

  /** A settled run over the definition in which every read of the first change's lookup hits a live doc. */
  lemma LookupExample() returns (s: State, c: Channel)
    ensures ValidDefinitions([QUERY]) && SettledState(Tables(), s) && 0 < s.position
    ensures AsksFor(Tables(), s, 0, EVENT, "q", WATCH, ARGS) && c in s.engine.live
    ensures HitSince(RulesOf(Tables()), s.history, AskedKey("q", WATCH, ARGS), c, 1)
    ensures Latest(s.published, c) >= 1
  {
    var rows;
    rows, c := RowNamesDoc();
    DefinitionIsValid();
    EventSupplies();
    TablesDeclare(EVENT);
    s := LookupStateExists(Tables(), EVENT, "q", WATCH, ARGS, rows, c);
    SettledHitDocIsPublished(Tables(), s, 0, EVENT, "q", WATCH, ARGS, c);
  }

  // ----- a doc left behind

  lemma OnlyRef(ref: WatchRef)
    requires HasRef(Tables().watches, "public.t", ref)
    ensures ref == WatchRef("q", WATCH)
  {
    RefsAreDeclared([QUERY], "public.t", ref);
  }

  lemma RefAsks(event: Event)
    requires Supplies(event, WATCH, ARGS) && event.table == "public.t"
    requires "q" in Tables().queries
    ensures RefOps(Tables().queries, WatchRef("q", WATCH), event)
      == [Ask(AskedKey("q", WATCH, ARGS), Lookup(DefOf(QUERY), WATCH, ARGS))]
  {
    TablesDeclare(event);
    var row := if event.newData.Some? then event.newData else event.oldData;
    ArgsFill(WATCH.keysColumns, row.value, ARGS);
  }

  /** All either event asks for is the one lookup. */
  lemma AsksOnly(event: Event, op: Op)
    requires event.table == "public.t" && Supplies(event, WATCH, ARGS)
    requires WellFormed(Tables()) && op in EventOps(Tables(), event)
    ensures op == Ask(AskedKey("q", WATCH, ARGS), Lookup(DefOf(QUERY), WATCH, ARGS))
  {
    var refs := RefsOf(Tables(), event.table);
    KnownRefs(event.table);
    var k := AskedWatch(Tables().queries, refs, event, op);
    RefAsks(event);
  }

  lemma KnownRefs(table: string)
    requires WellFormed(Tables()) && table == "public.t"
    ensures
      forall k | 0 <= k < |RefsOf(Tables(), table)| ::
        RefsOf(Tables(), table)[k] == WatchRef("q", WATCH) && "q" in Tables().queries
  {
    var refs := RefsOf(Tables(), table);
    forall k | 0 <= k < |refs| ensures refs[k] == WatchRef("q", WATCH) && "q" in Tables().queries {
      assert RefFits(Tables().queries, table, refs[k]);
      OnlyRef(refs[k]);
    }
  }

  /** The insertion, after which the reverse index holds `rows`, and the deletion, after which it holds `after`. */
  ghost function Undone(rows: seq<seq<Value>>, after: seq<seq<Value>>): seq<RowCommit> {
    [RowCommit([EVENT], key => rows), RowCommit([UNDO], key => after)]
  }

  /** All that either transaction asks for is the one lookup. */
  lemma UndoneAsks(rows: seq<seq<Value>>, after: seq<seq<Value>>, j: nat, k: nat)
    requires WellFormed(Tables()) && j < 2 && k < |Changes(Tables(), Undone(rows, after))[j].ops|
    ensures
      Changes(Tables(), Undone(rows, after))[j].ops[k]
      == Ask(AskedKey("q", WATCH, ARGS), Lookup(DefOf(QUERY), WATCH, ARGS))
  {
    var event := if j == 0 then EVENT else UNDO;
    var h := Changes(Tables(), Undone(rows, after));
    assert [event][..0] == [];
    assert h[j].ops == CommitOps(Tables(), [event]) == EventOps(Tables(), event);
    EventSupplies();
    AsksOnly(event, h[j].ops[k]);
  }

  lemma UndoneIndexes(rows: seq<seq<Value>>, after: seq<seq<Value>>)
    requires WellFormed(Tables()) && "q" in Tables().queries && Tables().queries["q"] == DefOf(QUERY)
    ensures
      var h := Changes(Tables(), Undone(rows, after));
      && IndexAt(h, 1, AskedKey("q", WATCH, ARGS)) == Index(|rows|, RowChannels(DefOf(QUERY), rows))
      && IndexAt(h, 2, AskedKey("q", WATCH, ARGS)) == Index(|after|, RowChannels(DefOf(QUERY), after))
  {
  }

  lemma UndoneIsUnforced(rows: seq<seq<Value>>, c: Channel)
    requires WellFormed(Tables()) && "q" in Tables().queries && Tables().queries["q"] == DefOf(QUERY)
    ensures !Forced(RulesOf(Tables()), Changes(Tables(), Undone(rows, [])), 0, c)
  {
    var r, h := RulesOf(Tables()), Changes(Tables(), Undone(rows, []));
    var key, lookup := AskedKey("q", WATCH, ARGS), Lookup(DefOf(QUERY), WATCH, ARGS);
    UndoneIndexes(rows, []);
    forall j: nat, k: nat ensures !ForcedBy(r, h, j, k, c) {
      if j < |h| && k < |h[j].ops| {
        UndoneAsks(rows, [], j, k);
        assert AskedBefore(h, 2, key, lookup) && !Hits(r, h, 2, key, lookup, c);
      }
    }
  }

  lemma UndoneOps(rows: seq<seq<Value>>, after: seq<seq<Value>>)
    requires WellFormed(Tables())
    ensures Changes(Tables(), Undone(rows, after))[0].ops == CommitOps(Tables(), [EVENT])
  {
  }

  lemma UndoneIsEvent(rows: seq<seq<Value>>, after: seq<seq<Value>>, s: State)
    requires WellFormed(Tables()) && s.history == Changes(Tables(), Undone(rows, after))
    ensures IsEvent(Tables(), s, 0, EVENT)
  {
    UndoneOps(rows, after);
    assert EVENT in [EVENT];
  }

  lemma NamedDocIsHit(rows: seq<seq<Value>>, after: seq<seq<Value>>, lookup: Lookup, c: Channel)
    requires WellFormed(Tables()) && "q" in Tables().queries && Tables().queries["q"] == DefOf(QUERY)
    requires c in RowChannels(DefOf(QUERY), rows)
    ensures
      Hits(RulesOf(Tables()), Changes(Tables(), Undone(rows, after)), 1, AskedKey("q", WATCH, ARGS), lookup, c)
  {
    RowChannelsParse(Tables(), "q", rows);
    UndoneIndexes(rows, after);
  }

  /**
   * The insertion asks for the lookup while the index names the doc, and the deletion empties the index before the
   * lookup is read. The engine works everything off and the doc still shows the version before the insertion.
   */
  lemma StaleExample() returns (s: State, c: Channel)
    ensures ValidDefinitions([QUERY]) && SettledState(Tables(), s) && 0 < s.position
    ensures AsksFor(Tables(), s, 0, EVENT, "q", WATCH, ARGS) && c in s.engine.live
    ensures Hits(RulesOf(Tables()), s.history, 1, AskedKey("q", WATCH, ARGS), Lookup(DefOf(QUERY), WATCH, ARGS), c)
    ensures Latest(s.published, c) <= 0
  {
    var rows;
    rows, c := RowNamesDoc();
    DefinitionIsValid();
    TablesDeclare(EVENT);
    RowChannelsParse(Tables(), "q", rows);
    UndoneIsUnforced(rows, c);
    ChangesAreValid(Tables(), Undone(rows, []));
    s := UnforcedIsStale(RulesOf(Tables()), Changes(Tables(), Undone(rows, [])), 0, c);
    UndoneIsEvent(rows, [], s);
    EventSupplies();
    NamedDocIsHit(rows, [], Lookup(DefOf(QUERY), WATCH, ARGS), c);
  }

  // ----- over the cap

  /** So whichever lookup reads the index has the one watch, and its cap. */
  lemma UndoneAskedBefore(rows: seq<seq<Value>>, after: seq<seq<Value>>, u: nat, lookup: Lookup)
    requires WellFormed(Tables())
    requires AskedBefore(Changes(Tables(), Undone(rows, after)), u, AskedKey("q", WATCH, ARGS), lookup)
    ensures lookup == Lookup(DefOf(QUERY), WATCH, ARGS)
  {
    var h := Changes(Tables(), Undone(rows, after));
    var j, k :|
      0 <= j < u && j < |h| && 0 <= k < |h[j].ops| && h[j].ops[k] == Ask(AskedKey("q", WATCH, ARGS), lookup);
    UndoneAsks(rows, after, j, k);
  }

  lemma UndoneIsOverCap(rows: seq<seq<Value>>, after: seq<seq<Value>>, u: nat)
    requires WellFormed(Tables()) && "q" in Tables().queries && Tables().queries["q"] == DefOf(QUERY)
    requires |rows| > 100 && |after| > 100 && 0 < u <= 2
    ensures
      !Within(IndexAt(Changes(Tables(), Undone(rows, after)), u, AskedKey("q", WATCH, ARGS)),
              Lookup(DefOf(QUERY), WATCH, ARGS))
  {
    UndoneIndexes(rows, after);
  }

  lemma InsertionAsks(rows: seq<seq<Value>>, after: seq<seq<Value>>) returns (k: nat)
    requires WellFormed(Tables()) && "q" in Tables().queries && Tables().queries["q"] == DefOf(QUERY)
    ensures
      var ops := Changes(Tables(), Undone(rows, after))[0].ops;
      k < |ops| && ops[k] == Ask(AskedKey("q", WATCH, ARGS), Lookup(DefOf(QUERY), WATCH, ARGS))
  {
    TablesDeclare(EVENT);
    EventSupplies();
    RefAsks(EVENT);
    var op := Ask(AskedKey("q", WATCH, ARGS), Lookup(DefOf(QUERY), WATCH, ARGS));
    var refs := RefsOf(Tables(), EVENT.table);
    var m :| 0 <= m < |refs| && refs[m] == WatchRef("q", WATCH);
    WatchAsks(Tables().queries, refs, EVENT, op, m);
    EventOpInCommit(Tables(), [EVENT], EVENT, op);
    k :| 0 <= k < |CommitOps(Tables(), [EVENT])| && CommitOps(Tables(), [EVENT])[k] == op;
  }

  /**
   * Both versions of the index hold more rows than the watch's cap, and only the first need name the doc. Every run
   * publishes the insertion on it all the same.
   */
  lemma OverCapExample(rows: seq<seq<Value>>, after: seq<seq<Value>>, c: Channel)
    requires |rows| > 100 && |after| > 100 && c in RowChannels(DefOf(QUERY), rows)
    ensures ValidDefinitions([QUERY]) && WellFormed(Tables())
    ensures Shown(RulesOf(Tables()), Changes(Tables(), Undone(rows, after)), 0, c)
  {
    DefinitionIsValid();
    TablesDeclare(EVENT);
    RowChannelsParse(Tables(), "q", rows);
    var k := InsertionAsks(rows, after);
    var h := Changes(Tables(), Undone(rows, after));
    forall u, lookup | 0 < u <= |h| && AskedBefore(h, u, AskedKey("q", WATCH, ARGS), lookup)
      ensures !Within(IndexAt(h, u, AskedKey("q", WATCH, ARGS)), lookup)
    {
      UndoneAskedBefore(rows, after, u, lookup);
      UndoneIsOverCap(rows, after, u);
    }
    OverCapForces(RulesOf(Tables()), h, 0, k, c);
  }
}
