/**
 * The refetch engine as a transition system. Each step is one critical section, one signal, one answer of the
 * customer database, one publish or one event outside the process, so a run is an interleaving of the
 * replication handler, the warm listener, the liveness polls and the workers, across crashes.
 *
 * The version of the customer database is the number of changes committed to it.
 */
module Protocol {
  import opened Wrappers
  import opened Spec
  import opened ChannelCodec
  import opened EventMapping
  import opened EngineCore

  /** The parts of the channel grammar the protocol depends on. */
  datatype Rules = Rules(parses: Channel -> bool, inQuery: (string, Channel) -> bool)

  /** What a reverse index holds for a key: how many rows, and the channels a run that returns them marks. */
  datatype Index = Index(size: nat, channels: seq<Channel>)

  /**
   * A committed transaction: the marks and lookups its events ask for, and what every reverse index holds once it is
   * visible.
   */
  datatype Change = Change(ops: seq<Op>, index: LookupKey -> Index)

  /** The executor returns the rows if there are no more than the watch's cap, and refuses them otherwise. */
  predicate Within(index: Index, lookup: Lookup) { index.size <= EffectiveCap(lookup.watch.maxKeys) }

  /** A read of the reverse index: the version read and the lookup that read it, whose watch gives the cap. */
  datatype Read = Read(version: nat, lookup: Lookup)

  /** Where a worker is. Versions are those of the database read the worker holds. */
  datatype Pc =
    | Top
    | TryDirty
    | Asleep
    | LookupRead(key: LookupKey, lookup: Lookup)
    | LookupOverCap(key: LookupKey, read: Read)
    | LookupMarking(key: LookupKey, read: Read, rows: seq<Channel>)
    | LookupBackoff(key: LookupKey, lookup: Lookup)
    | LookupFinish(key: LookupKey, done: Option<Read>)
    | DocRead(channel: Channel)
    | DocPublish(channel: Channel, version: nat)
    | DocBackoff(channel: Channel)
    | DocFinish(channel: Channel)

  /** A signalling worker has unlocked and must signal before it does anything else. */
  datatype Worker = Worker(pc: Pc, signalling: bool)

  /**
   * - handling: the ops still to apply of the transaction being handled, which is change `position`
   * - signals: the producers between their unlock and their signal
   * - position: the changes this process has handled, or resumed after
   * - history, acked, published: the committed changes, the position the server has confirmed, and the version
   *   of each doc on foony; these survive a crash
   * - owed, asked: obligations (see Latest), and the last handled change asked of each lookup key
   */
  datatype State = State(
    engine: Core,
    running: bool,
    workers: seq<Worker>,
    handling: Option<seq<Op>>,
    signals: nat,
    now: Time,
    position: nat,
    history: seq<Change>,
    acked: nat,
    published: map<Channel, nat>,
    owed: map<Channel, nat>,
    asked: map<LookupKey, nat>)
  {
    /** The version a read returns now. */
    function Version(): nat { |history| }

    function At(w: nat): Pc
      requires w < |workers|
    {
      workers[w].pc
    }
  }

  /** What the reverse index held for `key` at version `v`. */
  function IndexAt(history: seq<Change>, v: nat, key: LookupKey): Index {
    if v == 0 || v > |history| then Index(0, []) else history[v - 1].index(key)
  }

  /** A read of the index by `lookup` at version `v` dirties `c` if it is live: as a row, or over the cap as a doc. */
  predicate Hits(r: Rules, history: seq<Change>, v: nat, key: LookupKey, lookup: Lookup, c: Channel) {
    var index := IndexAt(history, v, key);
    if Within(index, lookup) then c in index.channels else r.inQuery(key.query, c)
  }

  /**
   * The version a map records for a channel, -1 for none. `Latest(s.published, c)` is what foony shows.
   * `Latest(s.owed, c)` is what the doc has to reach: the version of the last handled change found to affect it,
   * and at least the version of the database when the channel last became live or was warmed.
   */
  function Latest(versions: map<Channel, nat>, c: Channel): int {
    if c in versions then versions[c] else -1
  }

  function Init(now: Time): State {
    State(EMPTY, false, seq(WORKER_COUNT, i => Worker(Top, false)), None, 0, now, 0, [], 0, map[], map[], map[])
  }

  datatype Step =
    // outside the process
    | Commit(change: Change)
    | Tick(now: Time)
    | Ack(upTo: nat)
    | Reconnect
    | Crash
    // subscriber interest; Boot is the startup poll followed by Start, and a poll has read the clock before it locks
    | Boot(channels: seq<Channel>, complete: bool, at: Time)
    | Poll(channels: seq<Channel>, complete: bool, at: Time)
    | Warmed(channel: Channel)
    | Touched(channel: Channel)
    // the replication handler, and the signal a producer sends after its critical section
    | HandleStart
    | HandleOp
    | HandleEnd
    | ProducerSignal
    // a worker looking for work
    | Signalling(w: nat)
    | FindsNoLookup(w: nat)
    | FindsNoDoc(w: nat)
    | Wakes(w: nat)
    // a worker taking and finishing a unit
    | TakesLookup(w: nat, key: LookupKey)
    | FinishesLookup(w: nat)
    | TakesDoc(w: nat, cold: set<Channel>, channel: Channel)
    | FinishesDoc(w: nat)
    // a lookup unit
    | KeysRead(w: nat)
    | KeysOverCap(w: nat)
    | KeysFailed(w: nat)
    | MarksLive(w: nat)
    | MarksRow(w: nat)
    | RowsDone(w: nat)
    | RequeuesLookup(w: nat)
    // a doc unit
    | DocUnparsed(w: nat)
    | DocWasRead(w: nat)
    | DocFailed(w: nat)
    | Publishes(w: nat)
    | PublishFailed(w: nat, delivered: bool)
    | RequeuesDoc(w: nat)
  {
    predicate IsOutside() { Commit? || Tick? || Ack? || Reconnect? || Crash? }
    predicate IsDemand() { Boot? || Poll? || Warmed? || Touched? }
    predicate IsHandler() { HandleStart? || HandleOp? || HandleEnd? || ProducerSignal? }
    predicate IsSearch() { Signalling? || FindsNoLookup? || FindsNoDoc? || Wakes? }
    predicate IsUnit() { TakesLookup? || FinishesLookup? || TakesDoc? || FinishesDoc? }
    predicate IsLookup() {
      KeysRead? || KeysOverCap? || KeysFailed? || MarksLive? || MarksRow? || RowsDone? || RequeuesLookup?
    }
    predicate IsWorkerStep() { IsSearch() || IsUnit() || IsLookup() || IsDoc() }
    predicate IsDoc() { DocUnparsed? || DocWasRead? || DocFailed? || Publishes? || PublishFailed? || RequeuesDoc? }
  }

  /** The channels of a reverse index are parseable ones of the key's query. */
  ghost predicate IndexFits(r: Rules, index: Index, key: LookupKey) {
    forall c | c in index.channels :: r.parses(c) && r.inQuery(key.query, c)
  }

  /** What validated definitions guarantee about a change; see module System. */
  ghost predicate ValidChange(r: Rules, change: Change) {
    && (forall i | 0 <= i < |change.ops| && change.ops[i].Mark? :: r.parses(change.ops[i].channel))
    && (forall i | 0 <= i < |change.ops| && change.ops[i].Ask? ::
          change.ops[i].lookup.query.name == change.ops[i].key.query)
    && (forall key :: IndexFits(r, change.index(key), key))
  }

  /** Worker `w` is between two sections and owes no signal. */
  predicate Ready(s: State, w: nat) { s.running && w < |s.workers| && !s.workers[w].signalling }

  function NextOp(s: State): Op
    requires s.handling.Some? && |s.handling.value| > 0
  {
    s.handling.value[0]
  }

  ghost predicate EnabledOutside(r: Rules, s: State, step: Step)
    requires step.IsOutside()
  {
    match step
    case Commit(change) => ValidChange(r, change)
    case Tick(now) => s.now <= now
    case Ack(upTo) => s.running && s.acked <= upTo <= s.position
    case Reconnect => s.running
    case Crash => true
  }

  predicate EnabledDemand(r: Rules, s: State, step: Step)
    requires step.IsDemand()
  {
    match step
    case Boot(_, _, at) => !s.running && at <= s.now
    case Poll(_, _, at) => s.running && at <= s.now
    case Warmed(c) => s.running && r.parses(c)
    case Touched(c) => s.running && r.parses(c)
  }

  predicate EnabledHandler(s: State, step: Step)
    requires step.IsHandler()
  {
    && s.running
    && match step
       case HandleStart => s.handling.None? && s.position < |s.history|
       case HandleOp => s.handling.Some? && |s.handling.value| > 0
       case HandleEnd => s.handling.Some? && |s.handling.value| == 0
       case ProducerSignal => s.signals > 0
  }

  ghost predicate EnabledSearch(s: State, step: Step)
    requires step.IsSearch()
  {
    match step
    case Signalling(w) => s.running && w < |s.workers| && s.workers[w].signalling
    case FindsNoLookup(w) =>
      Ready(s, w) && s.At(w).Top? && forall key | key in s.engine.lookups :: !TakeableLookup(s.engine, key)
    case FindsNoDoc(w) =>
      Ready(s, w) && s.At(w).TryDirty? && ColdTakeable(s.engine, s.engine.dirty - s.engine.inflight)
    case Wakes(w) => Ready(s, w) && s.At(w).Asleep? && s.engine.wake
  }

  predicate EnabledUnit(s: State, step: Step)
    requires step.IsUnit()
  {
    && Ready(s, step.w)
    && match step
       case TakesLookup(w, key) => s.At(w).Top? && TakeableLookup(s.engine, key)
       case FinishesLookup(w) => s.At(w).LookupFinish?
       case TakesDoc(w, cold, c) =>
         s.At(w).TryDirty? && ColdTakeable(s.engine, cold) && TakeableDoc(s.engine, c) && c in s.engine.live
       case FinishesDoc(w) => s.At(w).DocFinish?
  }

  /** What the reverse index holds now for the lookup in the worker's hands. */
  function IndexNow(s: State, w: nat): Index
    requires w < |s.workers| && s.At(w).LookupRead?
  {
    IndexAt(s.history, s.Version(), s.At(w).key)
  }

  predicate EnabledLookup(s: State, step: Step)
    requires step.IsLookup()
  {
    && Ready(s, step.w)
    && match step
       case KeysRead(w) => s.At(w).LookupRead? && Within(IndexNow(s, w), s.At(w).lookup)
       case KeysOverCap(w) => s.At(w).LookupRead? && !Within(IndexNow(s, w), s.At(w).lookup)
       case KeysFailed(w) => s.At(w).LookupRead?
       case MarksLive(w) => s.At(w).LookupOverCap?
       case MarksRow(w) => s.At(w).LookupMarking? && |s.At(w).rows| > 0
       case RowsDone(w) => s.At(w).LookupMarking? && |s.At(w).rows| == 0
       case RequeuesLookup(w) => s.At(w).LookupBackoff?
  }

  predicate EnabledDoc(r: Rules, s: State, step: Step)
    requires step.IsDoc()
  {
    && Ready(s, step.w)
    && match step
       case DocUnparsed(w) => s.At(w).DocRead? && !r.parses(s.At(w).channel)
       case DocWasRead(w) => s.At(w).DocRead? && r.parses(s.At(w).channel)
       case DocFailed(w) => s.At(w).DocRead? && r.parses(s.At(w).channel)
       case Publishes(w) => s.At(w).DocPublish?
       case PublishFailed(w, _) => s.At(w).DocPublish?
       case RequeuesDoc(w) => s.At(w).DocBackoff?
  }

  ghost predicate Enabled(r: Rules, s: State, step: Step) {
    if step.IsOutside() then EnabledOutside(r, s, step)
    else if step.IsDemand() then EnabledDemand(r, s, step)
    else if step.IsHandler() then EnabledHandler(s, step)
    else if step.IsSearch() then EnabledSearch(s, step)
    else if step.IsUnit() then EnabledUnit(s, step)
    else if step.IsLookup() then EnabledLookup(s, step)
    else EnabledDoc(r, s, step)
  }

  // ----- effects

  function Raise<K>(m: map<K, nat>, k: K, v: nat): map<K, nat> {
    m[k := if k in m && m[k] > v then m[k] else v]
  }

  function RaiseAll<K>(m: map<K, nat>, ks: set<K>, v: nat): map<K, nat> {
    m + map k | k in ks :: if k in m && m[k] > v then m[k] else v
  }

  /** Worker `w` moves to `pc`, and must signal next if `signalling`. */
  function Go(s: State, w: nat, pc: Pc, signalling: bool): (t: State)
    requires w < |s.workers|
    ensures |t.workers| == |s.workers| && t.workers[w] == Worker(pc, signalling)
    ensures forall v | 0 <= v < |s.workers| && v != w :: t.workers[v] == s.workers[v]
  {
    s.(workers := s.workers[w := Worker(pc, signalling)])
  }

  function ApplyPoll(r: Rules, s: State, channels: seq<Channel>, complete: bool, at: Time): State {
    var listed := Listed(r.parses, channels);
    s.(engine := SyncLive(s.engine, listed, complete, at),
       owed := RaiseAll(s.owed, listed - s.engine.live.Keys, s.Version()))
  }

  function Dirtied(r: Rules, s: State, channels: seq<Channel>): bool {
    Listed(r.parses, channels) - s.engine.live.Keys != {}
  }

  function ApplyOutside(s: State, step: Step): State
    requires step.IsOutside()
  {
    match step
    case Commit(change) => s.(history := s.history + [change])
    case Tick(now) => s.(now := now)
    case Ack(upTo) => s.(acked := upTo)
    case Reconnect => s.(position := s.acked, handling := None)
    case Crash =>
      s.(engine := EMPTY, running := false, workers := seq(WORKER_COUNT, i => Worker(Top, false)),
         handling := None, signals := 0, position := s.acked)
  }

  function ApplyDemand(r: Rules, s: State, step: Step): State
    requires step.IsDemand()
  {
    match step
    case Boot(channels, complete, at) =>
      var polled := ApplyPoll(r, s, channels, complete, at);
      polled.(engine := SignalIf(polled.engine, Dirtied(r, s, channels)), running := true)
    case Poll(channels, complete, at) =>
      ApplyPoll(r, s, channels, complete, at).(signals := s.signals + if Dirtied(r, s, channels) then 1 else 0)
    case Warmed(c) =>
      s.(engine := Warm(s.engine, c, s.now), signals := s.signals + 1, owed := Raise(s.owed, c, s.Version()))
    case Touched(c) =>
      var touched := s.(engine := Touch(s.engine, c, s.now));
      if c in s.engine.live then touched
      else touched.(signals := s.signals + 1, owed := Raise(s.owed, c, s.Version()))
  }

  /** Change `position` is visible from version `position + 1` on. */
  function ApplyHandled(s: State, op: Op): State {
    var after := s.(engine := ApplyOp(s.engine, op));
    match op
    case Mark(c) => after.(owed := Raise(s.owed, c, s.position + 1))
    case Ask(key, _) => after.(asked := Raise(s.asked, key, s.position + 1))
  }

  function ApplyHandler(s: State, step: Step): State
    requires step.IsHandler() && EnabledHandler(s, step)
  {
    match step
    case HandleStart => s.(handling := Some(s.history[s.position].ops))
    case HandleOp => ApplyHandled(s, NextOp(s)).(handling := Some(s.handling.value[1..]), signals := s.signals + 1)
    case HandleEnd => s.(handling := None, position := s.position + 1)
    case ProducerSignal => s.(engine := Signal(s.engine), signals := s.signals - 1)
  }

  ghost function ApplySearch(s: State, step: Step): State
    requires step.IsSearch() && EnabledSearch(s, step)
  {
    var w := step.w;
    match step
    case Signalling(_) => Go(s, w, s.At(w), false).(engine := Signal(s.engine))
    case FindsNoLookup(_) => Go(s, w, TryDirty, false)
    case FindsNoDoc(_) =>
      Go(s, w, Asleep, false).(engine := DropCold(s.engine, s.engine.dirty - s.engine.inflight))
    case Wakes(_) => Go(s, w, Top, false).(engine := s.engine.(wake := false))
  }

  function ApplyUnit(s: State, step: Step): State
    requires step.IsUnit() && EnabledUnit(s, step)
  {
    var w := step.w;
    match step
    case TakesLookup(_, key) =>
      Go(s, w, LookupRead(key, s.engine.lookups[key]), false).(engine := TakeLookup(s.engine, key))
    case FinishesLookup(_) =>
      var finished := FinishLookup(s.engine, s.At(w).key);
      Go(s, w, Top, HasPending(finished)).(engine := finished)
    case TakesDoc(_, cold, c) =>
      Go(s, w, DocRead(c), false).(engine := TakeDoc(DropCold(s.engine, cold), c))
    case FinishesDoc(_) =>
      var finished := FinishDoc(s.engine, s.At(w).channel);
      Go(s, w, Top, HasPending(finished)).(engine := finished)
  }

  function ApplyLookup(r: Rules, s: State, step: Step): State
    requires step.IsLookup() && EnabledLookup(s, step)
  {
    var w := step.w;
    var pc := s.At(w);
    match step
    case KeysRead(_) => Go(s, w, LookupMarking(pc.key, Read(s.Version(), pc.lookup), IndexNow(s, w).channels), false)
    case KeysOverCap(_) => Go(s, w, LookupOverCap(pc.key, Read(s.Version(), pc.lookup)), false)
    case KeysFailed(_) => Go(s, w, LookupBackoff(pc.key, pc.lookup), false)
    case MarksLive(_) =>
      var docs := LiveDocs(s.engine, r.inQuery, pc.key.query);
      Go(s, w, LookupFinish(pc.key, Some(pc.read)), docs != {})
      .(engine := MarkAll(s.engine, docs),
        owed := RaiseAll(s.owed, docs, pc.read.version))
    case MarksRow(_) =>
      Go(s, w, LookupMarking(pc.key, pc.read, pc.rows[1..]), true)
      .(engine := MarkDirty(s.engine, pc.rows[0]), owed := Raise(s.owed, pc.rows[0], pc.read.version))
    case RowsDone(_) => Go(s, w, LookupFinish(pc.key, Some(pc.read)), false)
    case RequeuesLookup(_) =>
      Go(s, w, LookupFinish(pc.key, None), true).(engine := Enqueue(s.engine, pc.key, pc.lookup))
  }

  function ApplyDoc(r: Rules, s: State, step: Step): State
    requires step.IsDoc() && EnabledDoc(r, s, step)
  {
    var w := step.w;
    var pc := s.At(w);
    match step
    case DocUnparsed(_) => Go(s, w, DocFinish(pc.channel), false)
    case DocWasRead(_) => Go(s, w, DocPublish(pc.channel, s.Version()), false)
    case DocFailed(_) => Go(s, w, DocBackoff(pc.channel), false)
    case Publishes(_) =>
      Go(s, w, DocFinish(pc.channel), false).(published := s.published[pc.channel := pc.version])
    case PublishFailed(_, delivered) =>
      Go(s, w, DocBackoff(pc.channel), false)
      .(published := if delivered then s.published[pc.channel := pc.version] else s.published)
    case RequeuesDoc(_) => Go(s, w, DocFinish(pc.channel), true).(engine := MarkDirty(s.engine, pc.channel))
  }

  ghost function Apply(r: Rules, s: State, step: Step): State
    requires Enabled(r, s, step)
  {
    if step.IsOutside() then ApplyOutside(s, step)
    else if step.IsDemand() then ApplyDemand(r, s, step)
    else if step.IsHandler() then ApplyHandler(s, step)
    else if step.IsSearch() then ApplySearch(s, step)
    else if step.IsUnit() then ApplyUnit(s, step)
    else if step.IsLookup() then ApplyLookup(r, s, step)
    else ApplyDoc(r, s, step)
  }

  // ----- each group of steps by itself

  lemma IsOutsideStep(r: Rules, s: State, step: Step)
    requires step.IsOutside() && Enabled(r, s, step)
    ensures EnabledOutside(r, s, step) && Apply(r, s, step) == ApplyOutside(s, step)
  {
  }

  lemma IsDemandStep(r: Rules, s: State, step: Step)
    requires step.IsDemand() && Enabled(r, s, step)
    ensures EnabledDemand(r, s, step) && Apply(r, s, step) == ApplyDemand(r, s, step)
  {
  }

  lemma IsHandlerStep(r: Rules, s: State, step: Step)
    requires step.IsHandler() && Enabled(r, s, step)
    ensures EnabledHandler(s, step) && Apply(r, s, step) == ApplyHandler(s, step)
  {
  }

  lemma IsSearchStep(r: Rules, s: State, step: Step)
    requires step.IsSearch() && Enabled(r, s, step)
    ensures EnabledSearch(s, step) && Apply(r, s, step) == ApplySearch(s, step)
  {
  }

  lemma IsUnitStep(r: Rules, s: State, step: Step)
    requires step.IsUnit() && Enabled(r, s, step)
    ensures EnabledUnit(s, step) && Apply(r, s, step) == ApplyUnit(s, step)
  {
  }

  lemma IsLookupStep(r: Rules, s: State, step: Step)
    requires step.IsLookup() && Enabled(r, s, step)
    ensures EnabledLookup(s, step) && Apply(r, s, step) == ApplyLookup(r, s, step)
  {
  }

  lemma IsDocStep(r: Rules, s: State, step: Step)
    requires step.IsDoc() && Enabled(r, s, step)
    ensures EnabledDoc(r, s, step) && Apply(r, s, step) == ApplyDoc(r, s, step)
  {
  }

  // ----- runs

  ghost predicate IsRun(r: Rules, s: State, steps: seq<Step>)
    decreases |steps|, 1
  {
    steps == []
    || (IsRun(r, s, steps[..|steps| - 1]) && Enabled(r, After(r, s, steps[..|steps| - 1]), steps[|steps| - 1]))
  }

  /** The state after a run. */
  ghost function After(r: Rules, s: State, steps: seq<Step>): State
    requires IsRun(r, s, steps)
    decreases |steps|, 2
  {
    if steps == [] then s else Apply(r, After(r, s, steps[..|steps| - 1]), steps[|steps| - 1])
  }

  lemma RunExtends(r: Rules, s: State, steps: seq<Step>, step: Step)
    requires IsRun(r, s, steps) && Enabled(r, After(r, s, steps), step)
    ensures IsRun(r, s, steps + [step])
    ensures After(r, s, steps + [step]) == Apply(r, After(r, s, steps), step)
  {
    assert (steps + [step])[..|steps|] == steps;
  }

  ghost predicate RunsTo(r: Rules, s: State, steps: seq<Step>, t: State) {
    IsRun(r, s, steps) && After(r, s, steps) == t
  }

  lemma RunsToNothing(r: Rules, s: State)
    ensures RunsTo(r, s, [], s)
  {
  }

  lemma RunsToOneMore(r: Rules, s: State, steps: seq<Step>, t: State, step: Step)
    requires RunsTo(r, s, steps, t) && Enabled(r, t, step)
    ensures RunsTo(r, s, steps + [step], Apply(r, t, step))
  {
    RunExtends(r, s, steps, step);
  }

  lemma {:induction false} RunsCompose(r: Rules, s: State, a: seq<Step>, t: State, b: seq<Step>, u: State)
    requires RunsTo(r, s, a, t) && RunsTo(r, t, b, u)
    ensures RunsTo(r, s, a + b, u)
  {
    if b == [] {
      assert a + b == a;
    } else {
      var n := |b| - 1;
      var v := After(r, t, b[..n]);
      RunsCompose(r, s, a, t, b[..n], v);
      RunsToOneMore(r, s, a + b[..n], v, b[n]);
      assert a + b[..n] + [b[n]] == a + b;
    }
  }

  lemma OneStep(r: Rules, s: State, step: Step)
    requires Enabled(r, s, step)
    ensures RunsTo(r, s, [step], Apply(r, s, step))
  {
    RunsToNothing(r, s);
    RunsToOneMore(r, s, [], s, step);
    assert [] + [step] == [step];
  }

  /** Some run from the start of the process, crashes and all, leads to `s`. */
  ghost predicate Reachable(r: Rules, s: State) {
    exists now: Time, steps: seq<Step> :: RunsTo(r, Init(now), steps, s)
  }

  lemma RunsStayReachable(r: Rules, s: State, steps: seq<Step>, t: State)
    requires Reachable(r, s) && RunsTo(r, s, steps, t)
    ensures Reachable(r, t)
  {
    var now, before :| RunsTo(r, Init(now), before, s);
    RunsCompose(r, Init(now), before, s, steps, t);
  }
}
