/** One pass of the worker loop as a whole: the unit it picks and the engine state it leaves. */
module Units {
  import opened Wrappers
  import opened Spec
  import opened Values
  import opened ChannelCodec
  import opened EventMapping
  import opened EngineCore

  /** The outcome of RunKeys. */
  datatype KeysAnswer = Rows(rows: seq<seq<Value>>) | TooManyKeys | KeysError

  /** What the executor answers for the rows the database holds: all of them, or an error beyond the cap. */
  function Capped(watch: Watch, rows: seq<seq<Value>>): KeysAnswer {
    if |rows| <= EffectiveCap(watch.maxKeys) then Rows(rows) else TooManyKeys
  }

  /** The outcome of RunDoc and, if it succeeds, of PublishDoc. */
  datatype DocAnswer = DocError | PublishError | PublishOk

  /** What a pass finds to do; `cold` are the dirty channels nobody watches that its scan drops on the way. */
  datatype Unit = LookupUnit(key: LookupKey) | DocUnit(channel: Channel, cold: set<Channel>) | Nothing

  ghost predicate NoLookup(e: Core) { forall key :: !TakeableLookup(e, key) }

  /** Lookups go first; a worker waits only if neither a lookup nor a live doc is takeable. */
  ghost predicate Picks(e: Core, unit: Unit) {
    match unit
    case LookupUnit(key) => TakeableLookup(e, key)
    case DocUnit(channel, cold) =>
      NoLookup(e) && ColdTakeable(e, cold) && TakeableDoc(e, channel) && channel in e.live
    case Nothing => NoLookup(e) && ColdTakeable(e, e.dirty - e.inflight)
  }

  /** A lookup's marks, fallback or requeue. */
  function AfterKeys(e: Core, key: LookupKey, lookup: Lookup, answer: KeysAnswer): Core {
    match answer
    case Rows(rows) => ApplyOps(e, Marks(RowChannels(lookup.query, rows)))
    case TooManyKeys =>
      var docs := LiveDocs(e, InQuery, lookup.query.name);
      SignalIf(MarkAll(e, docs), docs != {})
    case KeysError => Signal(Enqueue(e, key, lookup))
  }

  /** A failed read or publish dirties the doc again. */
  function AfterDoc(e: Core, channel: Channel, answer: DocAnswer): Core {
    if answer.PublishOk? then e else Signal(MarkDirty(e, channel))
  }

  /** A worker is woken after a unit if anything is pending. */
  function Settle(e: Core): Core { SignalIf(e, HasPending(e)) }

  function AfterLookupUnit(e: Core, key: LookupKey, answer: KeysAnswer): Core
    requires TakeableLookup(e, key)
  {
    Settle(FinishLookup(AfterKeys(TakeLookup(e, key), key, e.lookups[key], answer), key))
  }

  function AfterDocUnit(
    e: Core, parses: Channel -> bool, channel: Channel, cold: set<Channel>, answer: DocAnswer): Core
  {
    var taken := TakeDoc(DropCold(e, cold), channel);
    Settle(FinishDoc(if parses(channel) then AfterDoc(taken, channel, answer) else taken, channel))
  }

  ghost function AfterUnit(
    e: Core, parses: Channel -> bool, unit: Unit, keys: LookupKey -> KeysAnswer, docs: Channel -> DocAnswer): Core
    requires Picks(e, unit)
  {
    match unit
    case LookupUnit(key) => AfterLookupUnit(e, key, keys(key))
    case DocUnit(channel, cold) => AfterDocUnit(e, parses, channel, cold, docs(channel))
    case Nothing => DropCold(e, e.dirty - e.inflight)
  }

  // ----- what a pass keeps

  lemma {:induction false} OpsKeepMarks(e: Core, ops: seq<Op>)
    ensures
      var t := ApplyOps(e, ops);
      t.inflight == e.inflight && t.lookupInflight == e.lookupInflight && t.live == e.live
  {
    if ops == [] {
    } else {
      OpsKeepMarks(e, ops[..|ops| - 1]);
    }
  }

  lemma {:induction false} MarksKeepLookups(e: Core, channels: seq<Channel>)
    ensures ApplyOps(e, Marks(channels)).lookups == e.lookups
  {
    if channels == [] {
    } else {
      var n := |channels| - 1;
      assert Marks(channels)[..n] == Marks(channels[..n]);
      MarksKeepLookups(e, channels[..n]);
    }
  }

  /**
   * A pass leaves the inflight marks and the live set as it found them. A lookup stays pending after its own run
   * only if the run failed, and a live doc stays dirty after its own only if it failed.
   */
  lemma PassKeeps(
    e: Core, parses: Channel -> bool, unit: Unit, keys: LookupKey -> KeysAnswer, docs: Channel -> DocAnswer)
    requires Picks(e, unit)
    ensures
      var t := AfterUnit(e, parses, unit, keys, docs);
      && t.inflight == e.inflight && t.lookupInflight == e.lookupInflight && t.live == e.live
      && match unit
         case LookupUnit(key) => key in t.lookups <==> keys(key).KeysError?
         case DocUnit(channel, cold) =>
           && t.lookups == e.lookups
           && (channel in t.dirty <==> parses(channel) && !docs(channel).PublishOk?)
         case Nothing => t.lookups == e.lookups && t.dirty == e.dirty * e.inflight
  {
    if unit.LookupUnit? && keys(unit.key).Rows? {
      var channels := RowChannels(e.lookups[unit.key].query, keys(unit.key).rows);
      OpsKeepMarks(TakeLookup(e, unit.key), Marks(channels));
      MarksKeepLookups(TakeLookup(e, unit.key), channels);
    }
  }
}
