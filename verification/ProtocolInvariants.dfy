/** What every step of the refetch protocol keeps. */
module ProtocolInvariants {
  import opened Wrappers
  import opened ChannelCodec
  import opened EventMapping
  import opened EngineCore
  import opened Protocol

  // ----- control

  predicate MaySignal(pc: Pc) { pc.Top? || pc.LookupMarking? || pc.LookupFinish? || pc.DocFinish? }

  ghost predicate Idle(s: State) {
    && s.engine == EMPTY
    && s.handling.None? && s.signals == 0
    && forall w | 0 <= w < |s.workers| :: s.workers[w] == Worker(Top, false)
  }

  predicate Suffix(rest: seq<Op>, ops: seq<Op>) { |rest| <= |ops| && rest == ops[|ops| - |rest|..] }

  ghost predicate Control(s: State) {
    && |s.workers| == WORKER_COUNT
    && s.acked <= s.position <= |s.history|
    && (!s.running ==> Idle(s))
    && (forall w | 0 <= w < |s.workers| :: s.workers[w].signalling ==> MaySignal(s.workers[w].pc))
    && (s.handling.Some? ==> s.position < |s.history| && Suffix(s.handling.value, s.history[s.position].ops))
  }

  // ----- versions

  predicate PcVersionKnown(pc: Pc, version: nat) {
    && (pc.DocPublish? ==> pc.version <= version)
    && (pc.LookupOverCap? || pc.LookupMarking? ==> pc.read.version <= version)
    && (pc.LookupFinish? && pc.done.Some? ==> pc.done.value.version <= version)
  }

  /** Nothing refers to a version the database has not had, and every live channel owes a version. */
  ghost predicate Versions(s: State) {
    && (forall w | 0 <= w < |s.workers| :: PcVersionKnown(s.workers[w].pc, s.Version()))
    && (forall c | c in s.owed :: s.owed[c] <= s.Version())
    && (forall key | key in s.asked :: s.asked[key] <= s.Version())
    && (forall c | c in s.published :: s.published[c] <= s.Version())
    && (forall c | c in s.engine.live :: c in s.owed)
  }

  // ----- keys

  /** Every channel the engine holds parses. */
  ghost predicate Keys(r: Rules, s: State) {
    && (forall i | 0 <= i < |s.history| :: ValidChange(r, s.history[i]))
    && (forall c | c in s.engine.dirty :: r.parses(c))
    && (forall c | c in s.engine.inflight :: r.parses(c))
    && (forall c | c in s.engine.live :: r.parses(c))
    && (forall w | 0 <= w < |s.workers| && s.workers[w].pc.LookupMarking? ::
          forall c | c in s.workers[w].pc.rows :: r.parses(c))
  }

  // ----- single flight

  function HeldDoc(pc: Pc): Option<Channel> {
    if pc.DocRead? || pc.DocPublish? || pc.DocBackoff? || pc.DocFinish? then Some(pc.channel) else None
  }

  function HeldKey(pc: Pc): Option<LookupKey> {
    if pc.LookupRead? || pc.LookupOverCap? || pc.LookupMarking? || pc.LookupBackoff? || pc.LookupFinish? then
      Some(pc.key)
    else None
  }

  /** `inflight` is exactly the docs workers hold, and no two workers hold the same one. */
  ghost predicate DocFlight(s: State) {
    && (forall w | 0 <= w < |s.workers| && HeldDoc(s.workers[w].pc).Some? ::
          HeldDoc(s.workers[w].pc).value in s.engine.inflight)
    && (forall c | c in s.engine.inflight :: exists w :: 0 <= w < |s.workers| && HeldDoc(s.workers[w].pc) == Some(c))
    && (forall v, w | 0 <= v < w < |s.workers| && HeldDoc(s.workers[v].pc).Some? ::
          HeldDoc(s.workers[v].pc) != HeldDoc(s.workers[w].pc))
  }

  ghost predicate KeyFlight(s: State) {
    && (forall w | 0 <= w < |s.workers| && HeldKey(s.workers[w].pc).Some? ::
          HeldKey(s.workers[w].pc).value in s.engine.lookupInflight)
    && (forall k | k in s.engine.lookupInflight ::
          exists w :: 0 <= w < |s.workers| && HeldKey(s.workers[w].pc) == Some(k))
    && (forall v, w | 0 <= v < w < |s.workers| && HeldKey(s.workers[v].pc).Some? ::
          HeldKey(s.workers[v].pc) != HeldKey(s.workers[w].pc))
  }

  // ----- publishing and freshness

  /** A worker about to publish holds a read no older than what the channel shows. */
  ghost predicate ForwardPublish(s: State) {
    forall w | 0 <= w < |s.workers| && s.workers[w].pc.DocPublish? ::
      Latest(s.published, s.workers[w].pc.channel) <= s.workers[w].pc.version
  }

  /** The worker has not read doc `c` yet, holds a read of version `v` or later, or will requeue it. */
  predicate Refreshing(pc: Pc, c: Channel, v: int) {
    pc == DocRead(c) || pc == DocBackoff(c) || (pc.DocPublish? && pc.channel == c && pc.version >= v)
  }

  ghost predicate InRefresh(workers: seq<Worker>, c: Channel, v: int) {
    exists w :: 0 <= w < |workers| && Refreshing(workers[w].pc, c, v)
  }

  /** No lost update: a live doc behind what it owes is dirty or in the hands of a worker that will refresh it. */
  ghost predicate Fresh(s: State) {
    forall c | c in s.engine.live && Latest(s.published, c) < Latest(s.owed, c) ::
      c in s.engine.dirty || InRefresh(s.workers, c, Latest(s.owed, c))
  }

  // ----- lookups

  /** The worker will read the index, has read it at version `v` or later and is marking, or will requeue. */
  predicate Covering(pc: Pc, key: LookupKey, v: nat) {
    || (pc.LookupRead? && pc.key == key)
    || (pc.LookupBackoff? && pc.key == key)
    || (pc.LookupOverCap? && pc.key == key && pc.read.version >= v)
    || (pc.LookupMarking? && pc.key == key && pc.read.version >= v)
  }

  ghost predicate InLookup(workers: seq<Worker>, key: LookupKey, v: nat) {
    exists w :: 0 <= w < |workers| && Covering(workers[w].pc, key, v)
  }

  /** Some change before version `u` asks for `key` with this lookup, so it may be the one that reads the index then. */
  ghost predicate AskedBefore(history: seq<Change>, u: nat, key: LookupKey, lookup: Lookup) {
    exists j, k :: 0 <= j < u && j < |history| && 0 <= k < |history[j].ops| && history[j].ops[k] == Ask(key, lookup)
  }

  /** The lookup a worker holds has been asked for, and a read went as the cap of its watch says. */
  ghost predicate QueuedPc(history: seq<Change>, pc: Pc) {
    && (pc.LookupRead? || pc.LookupBackoff? ==> AskedBefore(history, |history|, pc.key, pc.lookup))
    && (pc.LookupOverCap? || pc.LookupMarking? ==>
          && AskedBefore(history, pc.read.version, pc.key, pc.read.lookup)
          && (pc.LookupMarking? <==> Within(IndexAt(history, pc.read.version, pc.key), pc.read.lookup)))
    && (pc.LookupFinish? && pc.done.Some? ==> AskedBefore(history, pc.done.value.version, pc.key, pc.done.value.lookup))
  }

  /** Every lookup pending or held is one that a change has asked for under its key. */
  ghost predicate Queued(s: State) {
    && (forall key | key in s.engine.lookups :: AskedBefore(s.history, s.Version(), key, s.engine.lookups[key]))
    && (forall w | 0 <= w < |s.workers| :: QueuedPc(s.history, s.workers[w].pc))
  }

  /** Every live doc a read of the index by `lookup` at version `u` hits owes that version. */
  ghost predicate Served(r: Rules, s: State, key: LookupKey, u: nat, lookup: Lookup) {
    && u <= s.Version() && AskedBefore(s.history, u, key, lookup)
    && forall c | c in s.engine.live && Hits(r, s.history, u, key, lookup, c) :: Latest(s.owed, c) >= u
  }

  ghost predicate ServedSince(r: Rules, s: State, key: LookupKey, v: nat) {
    exists u: nat, lookup :: v <= u && Served(r, s, key, u, lookup)
  }

  ghost predicate CoveredAt(r: Rules, s: State, key: LookupKey)
    requires key in s.asked
  {
    || key in s.engine.lookups
    || InLookup(s.workers, key, s.asked[key])
    || ServedSince(r, s, key, s.asked[key])
  }

  /** The last ask of each key is that of a handled op. */
  ghost predicate Asked(s: State) {
    forall key | key in s.asked :: exists lookup :: AskedBefore(s.history, s.asked[key], key, lookup)
  }

  /**
   * No lost lookup: every key a handled change has asked for is pending, or in the hands of a worker, or has been
   * read at the version of the change or later, and what that read hits owes that version.
   */
  ghost predicate Covered(r: Rules, s: State) {
    forall key | key in s.asked :: CoveredAt(r, s, key)
  }

  ghost predicate HitsOwe(r: Rules, s: State, key: LookupKey, read: Read, except: seq<Channel>) {
    forall c | c in s.engine.live && Hits(r, s.history, read.version, key, read.lookup, c) && c !in except ::
      Latest(s.owed, c) >= read.version
  }

  /** How the lookup in a worker's hands has ended or will end. */
  ghost predicate LookupOutcome(r: Rules, s: State, pc: Pc) {
    && (pc.LookupMarking? ==> HitsOwe(r, s, pc.key, pc.read, pc.rows))
    && (pc.LookupFinish? && pc.done.Some? ==> HitsOwe(r, s, pc.key, pc.done.value, []))
    && (pc.LookupFinish? && pc.done.None? ==> pc.key in s.engine.lookups)
  }

  ghost predicate LookupOutcomes(r: Rules, s: State) {
    forall w | 0 <= w < |s.workers| :: LookupOutcome(r, s, s.workers[w].pc)
  }

  // ----- handled changes

  predicate Recorded(s: State, op: Op, v: nat) {
    match op
    case Mark(c) => Latest(s.owed, c) >= v
    case Ask(key, _) => key in s.asked && s.asked[key] >= v
  }

  /** Every handled op of every change is recorded as an obligation. */
  ghost predicate Handled(s: State) {
    && (forall i, j | 0 <= i < s.position && i < |s.history| && 0 <= j < |s.history[i].ops| ::
          Recorded(s, s.history[i].ops[j], i + 1))
    && (s.handling.Some? && s.position < |s.history| ==>
          forall j | 0 <= j < |s.history[s.position].ops| - |s.handling.value| ::
            Recorded(s, s.history[s.position].ops[j], s.position + 1))
  }

  // ----- wakeups

  predicate WillScanLookups(pc: Pc) { !pc.TryDirty? && !pc.Asleep? }

  ghost predicate SignalComing(s: State) { s.engine.wake || s.signals > 0 }

  /** No lost wakeup: takeable work has a token, a signal on the way, or a worker that will scan for it. */
  ghost predicate Awake(s: State) {
    && (forall key | s.running && key in s.engine.lookups && key !in s.engine.lookupInflight ::
          SignalComing(s) || exists w :: 0 <= w < |s.workers| && WillScanLookups(s.workers[w].pc))
    && (forall c | s.running && c in s.engine.dirty && c !in s.engine.inflight ::
          SignalComing(s) || exists w :: 0 <= w < |s.workers| && !s.workers[w].pc.Asleep?)
  }

  ghost predicate Inv(r: Rules, s: State) {
    && Control(s) && Versions(s) && DocFlight(s) && KeyFlight(s) && Keys(r, s) && Queued(s) && ForwardPublish(s)
    && Fresh(s) && Asked(s) && Covered(r, s) && LookupOutcomes(r, s) && Handled(s) && Awake(s)
  }
}
