/** What the refetch protocol promises in every state of every run. */
module Guarantees {
  import opened Wrappers
  import opened ChannelCodec
  import opened EventMapping
  import opened EngineCore
  import opened Protocol
  import opened ProtocolInvariants
  import opened ProtocolSteps

  // ----- no lost update

  /** Doc `c` shows version `v`, or it is dirty or in the hands of a worker that will bring it there. */
  ghost predicate Reaches(s: State, c: Channel, v: int) {
    Latest(s.published, c) >= v || c in s.engine.dirty || InRefresh(s.workers, c, v)
  }

  lemma LiveDocReaches(r: Rules, s: State, c: Channel, v: int)
    requires Inv(r, s) && c in s.engine.live && v <= Latest(s.owed, c)
    ensures Reaches(s, c, v)
  {
    if Latest(s.published, c) < v && c !in s.engine.dirty {
      var w :| 0 <= w < |s.workers| && Refreshing(s.workers[w].pc, c, Latest(s.owed, c));
      assert Refreshing(s.workers[w].pc, c, v);
    }
  }

  /** Every live doc that a read of the index by `lookup` at version `u` hits shows that version or is on the way. */
  ghost predicate AllReach(r: Rules, s: State, key: LookupKey, u: nat, lookup: Lookup) {
    && AskedBefore(s.history, u, key, lookup)
    && forall c | c in s.engine.live && Hits(r, s.history, u, key, lookup, c) :: Reaches(s, c, u)
  }

  /** Lookup `key` is pending, or a worker has it in hand, or it has been read at version `v` or later. */
  ghost predicate KeyReaches(r: Rules, s: State, key: LookupKey, v: nat) {
    || key in s.engine.lookups
    || InLookup(s.workers, key, v)
    || exists u: nat, lookup :: v <= u <= s.Version() && AllReach(r, s, key, u, lookup)
  }

  /**
   * No lost update. In every reachable state, a handled change that marks a live channel has reached its doc or is
   * on the way. A lookup a handled change has asked for is pending, or a worker is yet to read the reverse index or
   * has read it at the change's version or later and is marking, or it has been read at such a version and every
   * live doc it hit then has been reached or is on the way: those of its rows, or all of the query's if there were
   * more than the cap of the lookup that read it. This holds whatever the index holds at whatever version and however
   * many changes have asked for the same key.
   */
  lemma NoLostUpdate(r: Rules, s: State, i: nat, j: nat, c: Channel)
    requires Reachable(r, s)
    requires i < s.position && i < |s.history| && j < |s.history[i].ops|
    ensures
      match s.history[i].ops[j]
      case Mark(channel) => channel == c && c in s.engine.live ==> Reaches(s, c, i + 1)
      case Ask(key, _) => KeyReaches(r, s, key, i + 1)
  {
    InvReachable(r, s);
    HandledReaches(r, s, i, j, c);
  }

  lemma HandledReaches(r: Rules, s: State, i: nat, j: nat, c: Channel)
    requires Inv(r, s)
    requires i < s.position && i < |s.history| && j < |s.history[i].ops|
    ensures
      match s.history[i].ops[j]
      case Mark(channel) => channel == c && c in s.engine.live ==> Reaches(s, c, i + 1)
      case Ask(key, _) => KeyReaches(r, s, key, i + 1)
  {
    var op := s.history[i].ops[j];
    assert Recorded(s, op, i + 1);
    match op {
      case Mark(channel) =>
        if channel == c && c in s.engine.live {
          LiveDocReaches(r, s, c, i + 1);
        }
      case Ask(key, _) =>
        AskedKeyReaches(r, s, key, i + 1);
    }
  }

  lemma AskedKeyReaches(r: Rules, s: State, key: LookupKey, v: nat)
    requires Inv(r, s) && key in s.asked && v <= s.asked[key]
    ensures KeyReaches(r, s, key, v)
  {
    assert CoveredAt(r, s, key);
    if InLookup(s.workers, key, s.asked[key]) {
      var w :| 0 <= w < |s.workers| && Covering(s.workers[w].pc, key, s.asked[key]);
      assert Covering(s.workers[w].pc, key, v);
    } else if key !in s.engine.lookups {
      var u: nat, lookup :| s.asked[key] <= u && Served(r, s, key, u, lookup);
      forall c | c in s.engine.live && Hits(r, s.history, u, key, lookup, c) ensures Reaches(s, c, u) {
        LiveDocReaches(r, s, c, u);
      }
      assert AllReach(r, s, key, u, lookup);
    }
  }

  // ----- channels every read since then hits

  /**
   * Whichever lookup of `key` reads the index at whichever version from `v` to now, it hits `c`. Lookups of one key may
   * differ in the table and the cap of their watch, and a failed one is put back over a newer one, so any lookup the
   * key has been asked with may be the one that reads.
   */
  ghost predicate HitSince(r: Rules, history: seq<Change>, key: LookupKey, c: Channel, v: nat) {
    forall u, lookup | v <= u <= |history| && AskedBefore(history, u, key, lookup) ::
      Hits(r, history, u, key, lookup, c)
  }

  /** The worker has the lookup in hand and is yet to read the index or to mark `c`. */
  predicate YetToMark(pc: Pc, key: LookupKey, c: Channel, v: nat) {
    Covering(pc, key, v) && (pc.LookupMarking? ==> c in pc.rows)
  }

  /**
   * A live channel every read since the change hits has itself been reached or is on the way, or the lookup is pending
   * or some worker is yet to mark the channel.
   */
  lemma HitChannelReaches(r: Rules, s: State, i: nat, j: nat, c: Channel)
    requires Reachable(r, s)
    requires i < s.position && i < |s.history| && j < |s.history[i].ops| && s.history[i].ops[j].Ask?
    requires c in s.engine.live && HitSince(r, s.history, s.history[i].ops[j].key, c, i + 1)
    ensures
      var key := s.history[i].ops[j].key;
      || Reaches(s, c, i + 1)
      || key in s.engine.lookups
      || exists w :: 0 <= w < |s.workers| && YetToMark(s.workers[w].pc, key, c, i + 1)
  {
    InvReachable(r, s);
    HandledReaches(r, s, i, j, c);
    HitKeyReaches(r, s, s.history[i].ops[j].key, c, i + 1);
  }

  lemma HitKeyReaches(r: Rules, s: State, key: LookupKey, c: Channel, v: nat)
    requires Inv(r, s) && KeyReaches(r, s, key, v) && c in s.engine.live && HitSince(r, s.history, key, c, v)
    ensures
      || Reaches(s, c, v)
      || key in s.engine.lookups
      || exists w :: 0 <= w < |s.workers| && YetToMark(s.workers[w].pc, key, c, v)
  {
    if InLookup(s.workers, key, v) {
      var w :| 0 <= w < |s.workers| && Covering(s.workers[w].pc, key, v);
      if !YetToMark(s.workers[w].pc, key, c, v) {
        MarkedChannelReaches(r, s, w, c, v);
      }
    } else if key !in s.engine.lookups {
      var u: nat, lookup :| v <= u <= s.Version() && AllReach(r, s, key, u, lookup);
      assert Reaches(s, c, u);
      ReachesEarlier(s, c, u, v);
    }
  }

  lemma MarkedChannelReaches(r: Rules, s: State, w: nat, c: Channel, v: nat)
    requires Inv(r, s) && w < |s.workers| && s.At(w).LookupMarking? && v <= s.At(w).read.version
    requires c in s.engine.live && c !in s.At(w).rows && HitSince(r, s.history, s.At(w).key, c, v)
    ensures Reaches(s, c, v)
  {
    var read := s.workers[w].pc.read;
    assert LookupOutcome(r, s, s.workers[w].pc) && QueuedPc(s.history, s.workers[w].pc);
    assert Hits(r, s.history, read.version, s.At(w).key, read.lookup, c);
    LiveDocReaches(r, s, c, v);
  }

  lemma ReachesEarlier(s: State, c: Channel, u: int, v: int)
    requires Reaches(s, c, u) && v <= u
    ensures Reaches(s, c, v)
  {
    if InRefresh(s.workers, c, u) {
      var w :| 0 <= w < |s.workers| && Refreshing(s.workers[w].pc, c, u);
      assert Refreshing(s.workers[w].pc, c, v);
    }
  }

  // ----- no lost wakeup

  /**
   * While a lookup or a doc is takeable, the token is in the channel, or a producer is between its unlock and its
   * signal, or a worker is awake on the way to a scan that will see it: for a lookup, one that has not passed its
   * lookup scan. So takeable work never sits with every worker asleep and no signal coming.
   */
  lemma NoLostWakeup(r: Rules, s: State)
    requires Reachable(r, s) && s.running
    ensures forall key | TakeableLookup(s.engine, key) ::
        s.engine.wake || s.signals > 0 || exists w :: 0 <= w < |s.workers| && WillScanLookups(s.workers[w].pc)
    ensures forall c | TakeableDoc(s.engine, c) ::
        s.engine.wake || s.signals > 0 || exists w :: 0 <= w < |s.workers| && !s.workers[w].pc.Asleep?
  {
    InvReachable(r, s);
    assert forall key | TakeableLookup(s.engine, key) :: key in s.engine.lookups && key !in s.engine.lookupInflight;
  }

  // ----- single flight

  /** No doc and no lookup is ever in the hands of two workers, and the marks are exactly the units held. */
  lemma SingleFlight(r: Rules, s: State)
    requires Reachable(r, s)
    ensures forall v, w | 0 <= v < w < |s.workers| ::
        && (HeldDoc(s.workers[v].pc).Some? ==> HeldDoc(s.workers[v].pc) != HeldDoc(s.workers[w].pc))
        && (HeldKey(s.workers[v].pc).Some? ==> HeldKey(s.workers[v].pc) != HeldKey(s.workers[w].pc))
    ensures forall c :: c in s.engine.inflight <==>
        exists w :: 0 <= w < |s.workers| && HeldDoc(s.workers[w].pc) == Some(c)
    ensures forall k :: k in s.engine.lookupInflight <==>
        exists w :: 0 <= w < |s.workers| && HeldKey(s.workers[w].pc) == Some(k)
  {
    InvReachable(r, s);
  }

  lemma SearchPublishesNothing(s: State, step: Step)
    requires step.IsSearch() && EnabledSearch(s, step)
    ensures ApplySearch(s, step).published == s.published
  {
  }

  lemma UnitPublishesNothing(s: State, step: Step)
    requires step.IsUnit() && EnabledUnit(s, step)
    ensures ApplyUnit(s, step).published == s.published
  {
  }

  lemma LookupPublishesNothing(r: Rules, s: State, step: Step)
    requires step.IsLookup() && EnabledLookup(s, step)
    ensures ApplyLookup(r, s, step).published == s.published
  {
  }

  lemma ProducerPublishesNothing(r: Rules, s: State, step: Step)
    requires Enabled(r, s, step) && (step.IsOutside() || step.IsDemand() || step.IsHandler())
    ensures Apply(r, s, step).published == s.published
  {
    if step.IsOutside() { IsOutsideStep(r, s, step); }
    else if step.IsDemand() { IsDemandStep(r, s, step); }
    else { IsHandlerStep(r, s, step); }
  }

  lemma WorkerPublishesNothing(r: Rules, s: State, step: Step)
    requires Enabled(r, s, step) && (step.IsSearch() || step.IsUnit() || step.IsLookup())
    ensures Apply(r, s, step).published == s.published
  {
    if step.IsSearch() {
      IsSearchStep(r, s, step);
      SearchPublishesNothing(s, step);
    } else if step.IsUnit() {
      IsUnitStep(r, s, step);
      UnitPublishesNothing(s, step);
    } else {
      IsLookupStep(r, s, step);
      LookupPublishesNothing(r, s, step);
    }
  }

  lemma PublishedForwardStep(r: Rules, s: State, step: Step, c: Channel)
    requires Inv(r, s) && Enabled(r, s, step)
    ensures Latest(Apply(r, s, step).published, c) >= Latest(s.published, c)
  {
    if step.IsDoc() {
      IsDocStep(r, s, step);
      PublishesForward(r, s, step, c);
    } else if step.IsSearch() || step.IsUnit() || step.IsLookup() {
      WorkerPublishesNothing(r, s, step);
    } else {
      ProducerPublishesNothing(r, s, step);
    }
  }

  lemma PublishesForward(r: Rules, s: State, step: Step, c: Channel)
    requires ForwardPublish(s) && step.IsDoc() && EnabledDoc(r, s, step)
    ensures Latest(ApplyDoc(r, s, step).published, c) >= Latest(s.published, c)
  {
    assert s.workers[step.w].pc == s.At(step.w);
  }

  /** The version published on a channel never goes back, over any run from any reachable state, crashes included. */
  lemma PublishedForward(r: Rules, s: State, steps: seq<Step>, t: State, c: Channel)
    requires Reachable(r, s) && RunsTo(r, s, steps, t)
    ensures Latest(t.published, c) >= Latest(s.published, c)
  {
    InvReachable(r, s);
    PublishedForwardRun(r, s, steps, c);
  }

  lemma {:induction false} PublishedForwardRun(r: Rules, s: State, steps: seq<Step>, c: Channel)
    requires Inv(r, s) && IsRun(r, s, steps)
    ensures Latest(After(r, s, steps).published, c) >= Latest(s.published, c)
  {
    if steps == [] {
    } else {
      var n := |steps| - 1;
      PublishedForwardRun(r, s, steps[..n], c);
      InvRun(r, s, steps[..n]);
      PublishedForwardStep(r, After(r, s, steps[..n]), steps[n], c);
    }
  }

  // ----- well-formed keys

  /** Every channel the engine holds parses, so no compute takes the silent return for an unparseable channel. */
  lemma EveryHeldChannelParses(r: Rules, s: State, w: nat)
    requires Reachable(r, s)
    ensures forall c | c in s.engine.dirty + s.engine.inflight + s.engine.live.Keys :: r.parses(c)
    ensures !Enabled(r, s, DocUnparsed(w))
  {
    InvReachable(r, s);
    if Enabled(r, s, DocUnparsed(w)) {
      IsDocStep(r, s, DocUnparsed(w));
      HeldDocParses(r, s, w);
    }
  }

  lemma HeldDocParses(r: Rules, s: State, w: nat)
    requires Keys(r, s) && DocFlight(s) && w < |s.workers| && s.At(w).DocRead?
    ensures r.parses(s.At(w).channel)
  {
    assert HeldDoc(s.workers[w].pc) == Some(s.At(w).channel);
  }

  // ----- lookups

  /** What is queued under a key is a lookup of the key's query. */
  lemma QueuedLookupsFit(r: Rules, s: State, key: LookupKey)
    requires Reachable(r, s) && key in s.engine.lookups
    ensures s.engine.lookups[key].query.name == key.query
  {
    InvReachable(r, s);
    var lookup := s.engine.lookups[key];
    assert AskedBefore(s.history, s.Version(), key, lookup);
    var j, k :| 0 <= j < |s.history| && 0 <= k < |s.history[j].ops| && s.history[j].ops[k] == Ask(key, lookup);
    assert ValidChange(r, s.history[j]);
  }

  /**
   * A lookup run that is about to finish has ended in one of two ways. Either its key is pending again, or it
   * read the index at some version and every channel it hit then owes that version, so each live one reaches it.
   */
  lemma FinishedLookupCovers(r: Rules, s: State, w: nat)
    requires Reachable(r, s) && w < |s.workers| && s.At(w).LookupFinish?
    ensures
      match s.At(w).done
      case None => s.At(w).key in s.engine.lookups
      case Some(read) =>
        read.version <= s.Version() && AllReach(r, s, s.At(w).key, read.version, read.lookup)
  {
    InvReachable(r, s);
    var pc := s.At(w);
    assert LookupOutcome(r, s, s.workers[w].pc) && QueuedPc(s.history, s.workers[w].pc);
    if pc.done.Some? {
      var read := pc.done.value;
      forall c | c in s.engine.live && Hits(r, s.history, read.version, pc.key, read.lookup, c)
        ensures Reaches(s, c, read.version)
      {
        LiveDocReaches(r, s, c, read.version);
      }
    }
  }

  /** The channels a reverse index names are those of the key's query. */
  lemma ListedInQuery(r: Rules, s: State, v: nat, key: LookupKey)
    requires Keys(r, s)
    ensures forall c | c in IndexAt(s.history, v, key).channels :: r.inQuery(key.query, c)
  {
    forall c | c in IndexAt(s.history, v, key).channels ensures r.inQuery(key.query, c) {
      assert ValidChange(r, s.history[v - 1]);
      assert IndexFits(r, s.history[v - 1].index(key), key);
    }
  }

  /**
   * Over the cap: every live doc of the query, and so every live channel of the rows, is dirty at once, and the key
   * is not requeued.
   */
  lemma OverCapMarksSuperset(r: Rules, s: State, w: nat)
    requires Reachable(r, s) && Enabled(r, s, MarksLive(w))
    ensures
      var t := Apply(r, s, MarksLive(w));
      var pc := s.At(w);
      && (forall c | c in s.engine.live && r.inQuery(pc.key.query, c) :: c in t.engine.dirty)
      && (forall c | c in s.engine.live && c in IndexAt(s.history, pc.read.version, pc.key).channels ::
            c in t.engine.dirty)
      && t.engine.lookups == s.engine.lookups
  {
    InvReachable(r, s);
    IsLookupStep(r, s, MarksLive(w));
    ListedInQuery(r, s, s.At(w).read.version, s.At(w).key);
  }

  // ----- crash recovery

  /**
   * A crash at any point, then the startup poll: every listed doc channel is live and dirty, and owes the current
   * version, hence every change ever committed, whether or not it was acked, handled or published before.
   */
  lemma CrashThenBootHeals(r: Rules, s: State, channels: seq<Channel>, complete: bool, at: Time) returns (t: State)
    requires Reachable(r, s) && at <= s.now
    ensures RunsTo(r, s, [Crash, Boot(channels, complete, at)], t) && Reachable(r, t) && Inv(r, t)
    ensures t.history == s.history && t.published == s.published
    ensures forall c | c in channels && r.parses(c) ::
        c in t.engine.live && c in t.engine.dirty && Latest(t.owed, c) == t.Version()
    ensures forall c | c in t.engine.live :: c in channels && r.parses(c)
    ensures t.engine.dirty != {} ==> t.engine.wake
  {
    var crashed := ApplyOutside(s, Crash);
    t := ApplyDemand(r, crashed, Boot(channels, complete, at));
    OneStep(r, s, Crash);
    RunsToOneMore(r, s, [Crash], crashed, Boot(channels, complete, at));
    assert [Crash] + [Boot(channels, complete, at)] == [Crash, Boot(channels, complete, at)];
    RunsStayReachable(r, s, [Crash, Boot(channels, complete, at)], t);
    InvReachable(r, s);
    InvReachable(r, t);
    BootHeals(r, crashed, channels, complete, at);
  }

  /** The startup poll on an empty engine. */
  lemma BootHeals(r: Rules, s: State, channels: seq<Channel>, complete: bool, at: Time)
    requires !s.running && s.engine == EMPTY
    requires forall c | c in s.owed :: s.owed[c] <= s.Version()
    ensures
      var t := ApplyDemand(r, s, Boot(channels, complete, at));
      && t.history == s.history && t.published == s.published
      && (forall c | c in channels && r.parses(c) ::
            c in t.engine.live && c in t.engine.dirty && Latest(t.owed, c) == t.Version())
      && (forall c | c in t.engine.live :: c in channels && r.parses(c))
      && (t.engine.dirty != {} ==> t.engine.wake)
  {
  }
}
