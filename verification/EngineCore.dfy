/**
 * The engine's shared state and what each critical section does to it. The Engine class and the worker
 * protocol are both stated over these functions.
 */
module EngineCore {
  import opened Wrappers
  import opened ChannelCodec
  import opened EventMapping

  /** Nanoseconds. */
  type Time = int

  const TOUCH_GRACE: Time := 15 * 60 * 1_000_000_000
  const WORKER_COUNT := 2

  datatype Core = Core(
    dirty: set<Channel>,
    inflight: set<Channel>,
    lookups: map<LookupKey, Lookup>,
    lookupInflight: set<LookupKey>,
    live: map<Channel, Time>,
    wake: bool)

  const EMPTY := Core({}, {}, map[], {}, map[], false)

  function Signal(e: Core): Core { e.(wake := true) }

  function SignalIf(e: Core, condition: bool): Core { if condition then Signal(e) else e }

  function MarkDirty(e: Core, channel: Channel): Core { e.(dirty := e.dirty + {channel}) }

  function Enqueue(e: Core, key: LookupKey, lookup: Lookup): Core { e.(lookups := e.lookups[key := lookup]) }

  function ApplyOp(e: Core, op: Op): Core {
    match op
    case Mark(channel) => MarkDirty(e, channel)
    case Ask(key, lookup) => Enqueue(e, key, lookup)
  }

  /** The ops one after the other, each followed by its signal. */
  function ApplyOps(e: Core, ops: seq<Op>): Core {
    if ops == [] then e else Signal(ApplyOp(ApplyOps(e, ops[..|ops| - 1]), ops[|ops| - 1]))
  }

  function Marks(channels: seq<Channel>): (ops: seq<Op>)
    ensures |ops| == |channels|
  {
    seq(|channels|, i requires 0 <= i < |channels| => Mark(channels[i]))
  }

  lemma {:induction false} ApplyOpsConcat(e: Core, a: seq<Op>, b: seq<Op>)
    ensures ApplyOps(e, a + b) == ApplyOps(ApplyOps(e, a), b)
  {
    if b == [] {
      assert a + b == a;
    } else {
      ApplyOpsConcat(e, a, b[..|b| - 1]);
      assert (a + b)[..|a + b| - 1] == a + b[..|b| - 1];
    }
  }

  /** The last of the ops that asks for `key` asks for this lookup. */
  ghost predicate LastAsked(ops: seq<Op>, key: LookupKey, lookup: Lookup) {
    exists k ::
      && 0 <= k < |ops| && ops[k] == Ask(key, lookup)
      && forall j | k < j < |ops| :: !(ops[j].Ask? && ops[j].key == key)
  }

  lemma LastAskedNext(ops: seq<Op>, key: LookupKey, lookup: Lookup)
    requires ops != []
    ensures
      var n := |ops| - 1;
      LastAsked(ops, key, lookup) <==>
        ops[n] == Ask(key, lookup)
        || (!(ops[n].Ask? && ops[n].key == key) && LastAsked(ops[..n], key, lookup))
  {
    var n := |ops| - 1;
    if LastAsked(ops[..n], key, lookup) && !(ops[n].Ask? && ops[n].key == key) {
      var k :|
        0 <= k < n && ops[..n][k] == Ask(key, lookup)
        && forall j | k < j < n :: !(ops[..n][j].Ask? && ops[..n][j].key == key);
      assert ops[k] == Ask(key, lookup);
      assert forall j | k < j < n :: ops[..n][j] == ops[j];
    }
    if LastAsked(ops, key, lookup) && ops[n] != Ask(key, lookup) {
      var k :|
        0 <= k < |ops| && ops[k] == Ask(key, lookup)
        && forall j | k < j < |ops| :: !(ops[j].Ask? && ops[j].key == key);
      assert ops[..n][k] == Ask(key, lookup);
    }
  }

  /** What the ops leave of one key: the last lookup asked for, or what was pending before. */
  ghost predicate PendingAfter(e: Core, ops: seq<Op>, key: LookupKey, t: Core) {
    && (forall lookup | LastAsked(ops, key, lookup) :: key in t.lookups && t.lookups[key] == lookup)
    && ((forall lookup :: !LastAsked(ops, key, lookup)) ==>
          (key in t.lookups <==> key in e.lookups) && (key in t.lookups ==> t.lookups[key] == e.lookups[key]))
  }

  lemma InLonger(ops: seq<Op>, op: Op)
    requires ops != []
    ensures op in ops <==> op in ops[..|ops| - 1] || op == ops[|ops| - 1]
  {
    assert ops == ops[..|ops| - 1] + [ops[|ops| - 1]];
  }

  lemma {:induction false} ApplyOpsMarks(e: Core, ops: seq<Op>, c: Channel)
    ensures
      var t := ApplyOps(e, ops);
      && (c in t.dirty <==> c in e.dirty || Mark(c) in ops)
      && (t.wake <==> e.wake || ops != [])
      && t.inflight == e.inflight && t.lookupInflight == e.lookupInflight && t.live == e.live
  {
    if ops == [] {
    } else {
      ApplyOpsMarks(e, ops[..|ops| - 1], c);
      InLonger(ops, Mark(c));
    }
  }

  lemma PendingNext(e: Core, ops: seq<Op>, key: LookupKey, u: Core)
    requires ops != [] && PendingAfter(e, ops[..|ops| - 1], key, u)
    ensures PendingAfter(e, ops, key, Signal(ApplyOp(u, ops[|ops| - 1])))
  {
    var last := ops[|ops| - 1];
    forall lookup ensures LastAsked(ops, key, lookup) <==>
        last == Ask(key, lookup) || (!(last.Ask? && last.key == key) && LastAsked(ops[..|ops| - 1], key, lookup))
    {
      LastAskedNext(ops, key, lookup);
    }
    if last.Ask? && last.key == key {
      assert LastAsked(ops, key, last.lookup);
    }
  }

  lemma {:induction false} ApplyOpsPending(e: Core, ops: seq<Op>, key: LookupKey)
    ensures PendingAfter(e, ops, key, ApplyOps(e, ops))
  {
    if ops == [] {
    } else {
      var n := |ops| - 1;
      ApplyOpsPending(e, ops[..n], key);
      PendingNext(e, ops, key, ApplyOps(e, ops[..n]));
    }
  }

  /**
   * After the ops the dirty docs are those before and those marked, each key holds the last lookup asked for, the token
   * is there if there was an op, and nothing else has changed.
   */
  lemma ApplyOpsExactly(e: Core, ops: seq<Op>, c: Channel, key: LookupKey)
    ensures
      var t := ApplyOps(e, ops);
      && (c in t.dirty <==> c in e.dirty || Mark(c) in ops)
      && PendingAfter(e, ops, key, t)
      && (t.wake <==> e.wake || ops != [])
      && t.inflight == e.inflight && t.lookupInflight == e.lookupInflight && t.live == e.live
  {
    ApplyOpsMarks(e, ops, c);
    ApplyOpsPending(e, ops, key);
  }

  function Warm(e: Core, channel: Channel, now: Time): Core {
    MarkDirty(e, channel).(live := e.live[channel := now])
  }

  function Touch(e: Core, channel: Channel, now: Time): Core {
    (if channel in e.live then e else MarkDirty(e, channel)).(live := e.live[channel := now])
  }

  /** The channels of a poll that name a doc. */
  function Listed(parses: Channel -> bool, channels: seq<Channel>): set<Channel> {
    set c | c in channels && parses(c)
  }

  function Kept(live: map<Channel, Time>, complete: bool, now: Time): map<Channel, Time> {
    if complete then map c | c in live && now - live[c] < TOUCH_GRACE :: live[c] else live
  }

  function SyncLive(e: Core, listed: set<Channel>, complete: bool, now: Time): Core {
    e.(dirty := e.dirty + (listed - e.live.Keys),
       live := Kept(e.live, complete, now) + map c | c in listed :: now)
  }

  /** The live docs of one query, as the prefix test selects them. */
  function LiveDocs(e: Core, inQuery: (string, Channel) -> bool, query: string): set<Channel> {
    set c | c in e.live && inQuery(query, c)
  }

  function MarkAll(e: Core, channels: set<Channel>): Core { e.(dirty := e.dirty + channels) }

  predicate TakeableLookup(e: Core, key: LookupKey) { key in e.lookups && key !in e.lookupInflight }

  function TakeLookup(e: Core, key: LookupKey): Core {
    e.(lookups := e.lookups - {key}, lookupInflight := e.lookupInflight + {key})
  }

  predicate TakeableDoc(e: Core, channel: Channel) { channel in e.dirty && channel !in e.inflight }

  /** Takeable channels nobody watches, which a scan drops on its way. */
  predicate ColdTakeable(e: Core, channels: set<Channel>) {
    forall c | c in channels :: TakeableDoc(e, c) && c !in e.live
  }

  function DropCold(e: Core, channels: set<Channel>): Core { e.(dirty := e.dirty - channels) }

  function TakeDoc(e: Core, channel: Channel): Core {
    e.(dirty := e.dirty - {channel}, inflight := e.inflight + {channel})
  }

  predicate HasPending(e: Core) { e.dirty != {} || e.lookups.Keys != {} }

  function FinishLookup(e: Core, key: LookupKey): Core { e.(lookupInflight := e.lookupInflight - {key}) }

  function FinishDoc(e: Core, channel: Channel): Core { e.(inflight := e.inflight - {channel}) }
}
