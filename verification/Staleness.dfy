/**
 * Exactly which committed changes are certain to be published on a live doc: the engine starts on the history before
 * the change, publishes the doc, and then works off the rest to a plan that reads every lookup where it passes the doc
 * by.
 */
module Staleness {
  import opened Wrappers
  import opened Spec
  import opened ChannelCodec
  import opened EventMapping
  import opened EngineCore
  import opened Protocol
  import opened ProtocolInvariants
  import opened ProtocolSteps
  import opened Guarantees
  import opened Convergence
  import opened Freshness
  import opened ReadPlan

  // ----- what quiet steps leave alone

  lemma QuietSearchKeeps(s: State, step: Step)
    requires step.IsSearch() && EnabledSearch(s, step)
    ensures ApplySearch(s, step).history == s.history && ApplySearch(s, step).engine.live == s.engine.live
  {
  }

  lemma QuietHandlerKeeps(s: State, step: Step)
    requires step.IsHandler() && EnabledHandler(s, step)
    ensures ApplyHandler(s, step).history == s.history && ApplyHandler(s, step).engine.live == s.engine.live
  {
  }

  lemma QuietUnitKeeps(s: State, step: Step)
    requires step.IsUnit() && EnabledUnit(s, step)
    ensures ApplyUnit(s, step).history == s.history && ApplyUnit(s, step).engine.live == s.engine.live
  {
  }

  lemma QuietKeeps(r: Rules, s: State, step: Step)
    requires Enabled(r, s, step) && Quiet(step)
    ensures Apply(r, s, step).history == s.history && Apply(r, s, step).engine.live == s.engine.live
  {
    if step.IsSearch() {
      IsSearchStep(r, s, step);
      QuietSearchKeeps(s, step);
    } else if step.IsHandler() {
      IsHandlerStep(r, s, step);
      QuietHandlerKeeps(s, step);
    } else if step.IsUnit() {
      IsUnitStep(r, s, step);
      QuietUnitKeeps(s, step);
    } else if step.IsLookup() {
      IsLookupStep(r, s, step);
    } else {
      IsDocStep(r, s, step);
    }
  }

  lemma {:induction false} QuietRunKeeps(r: Rules, s: State, steps: seq<Step>)
    requires IsRun(r, s, steps) && AllQuiet(steps)
    ensures After(r, s, steps).history == s.history && After(r, s, steps).engine.live == s.engine.live
  {
    if steps == [] {
    } else {
      var n := |steps| - 1;
      QuietRunKeeps(r, s, steps[..n]);
      QuietKeeps(r, After(r, s, steps[..n]), steps[n]);
    }
  }

  // ----- where it starts

  lemma {:induction false} CommitsAll(r: Rules, h: seq<Change>) returns (s: State)
    requires AllValid(r, h)
    ensures Reachable(r, s) && s == Init(0).(history := h)
  {
    if h == [] {
      RunsToNothing(r, Init(0));
      s := Init(0);
    } else {
      var n := |h| - 1;
      var u := CommitsAll(r, h[..n]);
      s := CommitsOne(r, u, h[n]);
      assert h[..n] + [h[n]] == h;
    }
  }

  lemma CommitsOne(r: Rules, s: State, change: Change) returns (t: State)
    requires Reachable(r, s) && ValidChange(r, change)
    ensures Reachable(r, t) && t == s.(history := s.history + [change])
  {
    OneStep(r, s, Commit(change));
    t := Apply(r, s, Commit(change));
    RunsStayReachable(r, s, [Commit(change)], t);
  }

  /** The state of a process that starts on history `h` with `c` its only live doc. */
  function Booted(h: seq<Change>, c: Channel): State {
    State(Core({c}, {}, map[], {}, map[c := 0], true), true, [Worker(Top, false), Worker(Top, false)], None, 0, 0, 0,
          h, 0, map[], map[c := |h|], map[])
  }

  lemma BootsAlone(r: Rules, h: seq<Change>, c: Channel)
    requires r.parses(c)
    ensures ApplyDemand(r, Init(0).(history := h), Boot([c], true, 0)) == Booted(h, c)
  {
    var s := Init(0).(history := h);
    assert s.workers == [Worker(Top, false), Worker(Top, false)];
    assert Listed(r.parses, [c]) == {c};
    assert SyncLive(s.engine, {c}, true, 0) == Core({c}, {}, map[], {}, map[c := 0], false);
    assert RaiseAll(s.owed, {c}, |h|) == map[c := |h|];
  }

  lemma BootsLive(r: Rules, h: seq<Change>, c: Channel)
    requires AllValid(r, h) && r.parses(c)
    ensures Reachable(r, Booted(h, c))
  {
    var s := CommitsAll(r, h);
    var boot := Boot([c], true, 0);
    BootsAlone(r, h, c);
    OneStep(r, s, boot);
    RunsStayReachable(r, s, [boot], Booted(h, c));
  }

  lemma SettlesLive(r: Rules, s: State, c: Channel) returns (t: State)
    requires Reachable(r, s) && s.running && c in s.engine.live
    ensures Reachable(r, t) && t.running && Stuck(r, t) && Settled(t) && t.history == s.history && c in t.engine.live
  {
    var more;
    more, t := EveryRunCanSettle(r, s);
    QuietRunKeeps(r, s, more);
    RunsStayReachable(r, s, more, t);
  }

  // ----- up to the change: one worker works off lookups, the other waits to take the doc

  ghost predicate Parked(p: Plan, s: State)
    requires p.i <= |p.h|
  {
    && PlanHolds(p, s) && s.history == p.h[..p.i]
    && p.c in s.engine.live && p.c in s.engine.dirty && p.c !in s.engine.inflight
    && |s.workers| == 2 && s.workers[1] == Worker(TryDirty, false)
    && (s.At(0).Top? || HeldKey(s.At(0)).Some?)
  }

  ghost predicate Parks(p: Plan, s: State, step: Step) {
    && Keeps(p, s, step)
    && (step.IsHandler() || step.IsLookup() || step.TakesLookup? || step.FinishesLookup? || step.Signalling?)
  }

  /** Where it starts every lookup that is to read is still to be asked for. */
  lemma PlanStarts(r: Rules, p: Plan, s: State)
    requires IsPlan(r, p) && s.running && s.position == 0 && s.handling.None? && s.history == p.h[..p.i]
    requires s.engine.lookupInflight == {} && forall w | 0 <= w < |s.workers| :: !s.workers[w].pc.LookupBackoff?
    ensures PlanHolds(p, s)
  {
    forall key | Late(p.h, p.i, key) ensures OnPlan(p, s, key) {
      var read := p.target(key).value;
      var j, k :|
        0 <= j < read.version && j < |p.h| && 0 <= k < |p.h[j].ops| && p.h[j].ops[k] == Ask(key, read.lookup);
      assert Ahead(p, s, j, k);
    }
  }

  lemma StartsParked(r: Rules, p: Plan) returns (t: State)
    requires IsPlan(r, p)
    ensures Reachable(r, t) && Parked(p, t)
  {
    var s := Booted(p.h[..p.i], p.c);
    BootsLive(r, p.h[..p.i], p.c);
    OneStep(r, s, FindsNoLookup(1));
    t := Apply(r, s, FindsNoLookup(1));
    RunsStayReachable(r, s, [FindsNoLookup(1)], t);
    PlanStarts(r, p, t);
  }

  lemma HandlerLeaves(s: State, step: Step)
    requires step.IsHandler() && EnabledHandler(s, step)
    ensures
      var t := ApplyHandler(s, step);
      && t.history == s.history && t.workers == s.workers && t.engine.live == s.engine.live
      && t.engine.inflight == s.engine.inflight && s.engine.dirty <= t.engine.dirty
  {
  }

  lemma ParkedHandler(r: Rules, p: Plan, s: State, step: Step)
    requires IsPlan(r, p) && Parked(p, s) && step.IsHandler() && EnabledHandler(s, step)
    requires PlanHolds(p, ApplyHandler(s, step))
    ensures Parked(p, ApplyHandler(s, step))
  {
    HandlerLeaves(s, step);
  }

  lemma ParkedUnit(r: Rules, p: Plan, s: State, step: Step)
    requires IsPlan(r, p) && Parked(p, s) && (step.TakesLookup? || step.FinishesLookup?) && EnabledUnit(s, step)
    requires PlanHolds(p, ApplyUnit(s, step))
    ensures Parked(p, ApplyUnit(s, step))
  {
    assert step.w == 0;
  }

  lemma ParkedLookup(r: Rules, p: Plan, s: State, step: Step)
    requires IsPlan(r, p) && Parked(p, s) && step.IsLookup() && EnabledLookup(s, step)
    requires PlanHolds(p, ApplyLookup(r, s, step))
    ensures Parked(p, ApplyLookup(r, s, step))
  {
    assert step.w == 0;
  }

  lemma ParkedStep(r: Rules, p: Plan, s: State, step: Step)
    requires IsPlan(r, p) && Control(s) && Parked(p, s) && Enabled(r, s, step) && Parks(p, s, step)
    ensures Parked(p, Apply(r, s, step))
  {
    PlanStep(r, p, s, step);
    if step.IsHandler() {
      IsHandlerStep(r, s, step);
      ParkedHandler(r, p, s, step);
    } else if step.Signalling? {
      IsSearchStep(r, s, step);
    } else if step.IsUnit() {
      IsUnitStep(r, s, step);
      ParkedUnit(r, p, s, step);
    } else {
      IsLookupStep(r, s, step);
      ParkedLookup(r, p, s, step);
    }
  }

  ghost predicate ParkedDone(r: Rules, p: Plan, s: State) {
    !Blocked(p, s) && forall step | Parks(p, s, step) :: !Enabled(r, s, step)
  }

  lemma ParkedSearcherWaits(r: Rules, p: Plan, s: State)
    requires p.i <= |p.h| && Parked(p, s) && forall step | Parks(p, s, step) :: !Enabled(r, s, step)
    ensures Ready(s, 0) && s.At(0).Top?
  {
    assert !Enabled(r, s, Signalling(0));
    if !s.At(0).Top? {
      var _ := UnitGoesOn(r, s, 0);
    }
  }

  lemma {:induction false} ParkedOn(r: Rules, p: Plan, s: State, rank: Rank) returns (t: State)
    requires IsPlan(r, p) && Reachable(r, s) && Parked(p, s) && rank == RankOf(s)
    ensures Reachable(r, t) && Parked(p, t) && ParkedDone(r, p, t)
    decreases
      rank.changes, rank.unstarted, rank.ops, rank.lookups, rank.unread, rank.rows, rank.docs, rank.stages,
      rank.signals, rank.tokens, rank.scans
  {
    InvReachable(r, s);
    if ParkedDone(r, p, s) {
      t := s;
    } else if step :| Parks(p, s, step) && Enabled(r, s, step) {
      QuietStepDrops(r, s, step);
      ParkedStep(r, p, s, step);
      OneStep(r, s, step);
      RunsStayReachable(r, s, [step], Apply(r, s, step));
      t := ParkedOn(r, p, Apply(r, s, step), RankOf(Apply(r, s, step)));
    } else {
      ParkedSearcherWaits(r, p, s);
      PlanSkips(r, p, s);
      var u := Skips(r, s, 0);
      t := ParkedOn(r, p, u, RankOf(u));
    }
  }

  lemma ParkedHasHandled(r: Rules, p: Plan, s: State)
    requires IsPlan(r, p) && Control(s) && Parked(p, s) && ParkedDone(r, p, s)
    ensures s.position == p.i && s.handling.None?
  {
    assert !Enabled(r, s, HandleStart) && !Enabled(r, s, HandleOp) && !Enabled(r, s, HandleEnd);
  }

  lemma ParkedHasLookedUp(r: Rules, p: Plan, s: State, key: LookupKey)
    requires IsPlan(r, p) && KeyFlight(s) && Parked(p, s) && ParkedDone(r, p, s) && key in s.engine.lookups
    ensures Late(p.h, p.i, key)
  {
    ParkedSearcherWaits(r, p, s);
    assert !Late(p.h, p.i, key) ==> Parks(p, s, TakesLookup(0, key));
    assert !TakeableLookup(s.engine, key) ==> key in s.engine.lookupInflight;
  }

  lemma ParkedTakes(r: Rules, s: State, c: Channel) returns (t: State)
    requires Reachable(r, s) && Ready(s, 1) && s.At(1).TryDirty? && TakeableDoc(s.engine, c) && c in s.engine.live
    ensures Reachable(r, t) && t == Go(s, 1, DocRead(c), false).(engine := TakeDoc(s.engine, c))
  {
    var step := TakesDoc(1, {}, c);
    t := Goes(r, s, step);
    IsUnitStep(r, s, step);
    assert DropCold(s.engine, {}) == s.engine;
  }

  lemma ParkedReads(r: Rules, s: State) returns (t: State)
    requires Reachable(r, s) && Ready(s, 1) && s.At(1).DocRead? && r.parses(s.At(1).channel)
    ensures Reachable(r, t) && t == Go(s, 1, DocPublish(s.At(1).channel, s.Version()), false)
  {
    t := Goes(r, s, DocWasRead(1));
    IsDocStep(r, s, DocWasRead(1));
  }

  lemma ParkedSends(r: Rules, s: State) returns (t: State)
    requires Reachable(r, s) && Ready(s, 1) && s.At(1).DocPublish?
    ensures Reachable(r, t)
    ensures
      t == Go(s, 1, DocFinish(s.At(1).channel), false)
           .(published := s.published[s.At(1).channel := s.At(1).version])
  {
    t := Goes(r, s, Publishes(1));
    IsDocStep(r, s, Publishes(1));
  }

  lemma ParkedFinishes(r: Rules, s: State) returns (t: State)
    requires Reachable(r, s) && Ready(s, 1) && s.At(1).DocFinish?
    ensures Reachable(r, t)
    ensures
      var finished := FinishDoc(s.engine, s.At(1).channel);
      t == Go(s, 1, Top, HasPending(finished)).(engine := finished)
  {
    t := Goes(r, s, FinishesDoc(1));
    IsUnitStep(r, s, FinishesDoc(1));
  }

  // ----- from the change on

  /** The lookup the worker holds, if any, does not dirty `c`. */
  ghost predicate PassesBy(r: Rules, s: State, pc: Pc, c: Channel) {
    && (pc.LookupRead? ==> !Hits(r, s.history, s.Version(), pc.key, pc.lookup, c))
    && (pc.LookupOverCap? ==> !r.inQuery(pc.key.query, c))
    && (pc.LookupMarking? ==> c !in pc.rows)
  }

  /** Doc `c` is live, shows no change from `i` on, and nothing under way will change that. */
  ghost predicate Lagging(r: Rules, p: Plan, s: State) {
    && PlanHolds(p, s)
    && p.c in s.engine.live && p.c !in s.engine.dirty && p.c !in s.engine.inflight
    && Latest(s.published, p.c) <= p.i <= s.position
    && (forall w | 0 <= w < |s.workers| :: PassesBy(r, s, s.workers[w].pc, p.c))
    && (forall key | key in s.engine.lookups :: Late(p.h, p.i, key))
  }

  lemma ParkedPublishes(r: Rules, p: Plan, s: State) returns (t: State)
    requires IsPlan(r, p) && Reachable(r, s) && Parked(p, s) && s.position == p.i && s.At(0).Top?
    requires forall key | key in s.engine.lookups :: Late(p.h, p.i, key)
    ensures Reachable(r, t) && Lagging(r, p, t) && t.history == s.history
  {
    var u := ParkedTakes(r, s, p.c);
    u := ParkedReads(r, u);
    u := ParkedSends(r, u);
    t := ParkedFinishes(r, u);
    PlanFrame(p, s, t);
  }

  /** A process that starts on the history before the change and publishes the doc. */
  lemma StartsLagging(r: Rules, p: Plan) returns (t: State)
    requires IsPlan(r, p)
    ensures Reachable(r, t) && Lagging(r, p, t) && t.history == p.h[..p.i]
  {
    var s := StartsParked(r, p);
    s := ParkedOn(r, p, s, RankOf(s));
    InvReachable(r, s);
    ParkedHasHandled(r, p, s);
    ParkedSearcherWaits(r, p, s);
    forall key | key in s.engine.lookups ensures Late(p.h, p.i, key) {
      ParkedHasLookedUp(r, p, s, key);
    }
    t := ParkedPublishes(r, p, s);
  }

  lemma LagHandler(r: Rules, p: Plan, s: State, step: Step)
    requires IsPlan(r, p) && Control(s) && Lagging(r, p, s) && step.IsHandler() && EnabledHandler(s, step)
    requires PlanHolds(p, ApplyHandler(s, step))
    ensures Lagging(r, p, ApplyHandler(s, step))
  {
    if step.HandleOp? {
      var j, k := NextIsAhead(p, s);
      assert SparesDoc(p.h[j], p.c);
      assert NextOp(s).Ask? ==> Asks(p.h, j, k, NextOp(s).key);
    }
  }

  lemma LagSearch(r: Rules, p: Plan, s: State, step: Step)
    requires Lagging(r, p, s) && step.IsSearch() && EnabledSearch(s, step)
    requires PlanHolds(p, ApplySearch(s, step))
    ensures Lagging(r, p, ApplySearch(s, step))
  {
  }

  lemma HitsPrefix(r: Rules, h: seq<Change>, longer: seq<Change>, v: nat, key: LookupKey, lookup: Lookup, c: Channel)
    requires h <= longer && v <= |h|
    ensures Hits(r, h, v, key, lookup, c) <==> Hits(r, longer, v, key, lookup, c)
  {
  }

  lemma MayReadPassesBy(r: Rules, p: Plan, s: State, key: LookupKey)
    requires IsPlan(r, p) && s.history <= p.h && Late(p.h, p.i, key) && MayRead(p, s, key)
    ensures !Hits(r, s.history, s.Version(), key, s.engine.lookups[key], p.c)
  {
    var read := p.target(key).value;
    HitsPrefix(r, s.history, p.h, read.version, key, read.lookup, p.c);
  }

  lemma LagTakes(r: Rules, p: Plan, s: State, step: Step)
    requires Lagging(r, p, s) && step.TakesLookup? && EnabledUnit(s, step) && PlanHolds(p, ApplyUnit(s, step))
    requires !Hits(r, s.history, s.Version(), step.key, s.engine.lookups[step.key], p.c)
    ensures Lagging(r, p, ApplyUnit(s, step))
  {
  }

  lemma LagUnit(r: Rules, p: Plan, s: State, step: Step)
    requires IsPlan(r, p) && Lagging(r, p, s) && step.IsUnit() && EnabledUnit(s, step) && Keeps(p, s, step)
    requires PlanHolds(p, ApplyUnit(s, step))
    ensures Lagging(r, p, ApplyUnit(s, step))
  {
    if step.TakesLookup? {
      MayReadPassesBy(r, p, s, step.key);
      LagTakes(r, p, s, step);
    }
  }

  lemma LagLookup(r: Rules, p: Plan, s: State, step: Step)
    requires Lagging(r, p, s) && step.IsLookup() && EnabledLookup(s, step) && Keeps(p, s, step)
    requires PlanHolds(p, ApplyLookup(r, s, step))
    ensures Lagging(r, p, ApplyLookup(r, s, step))
  {
    assert PassesBy(r, s, s.workers[step.w].pc, p.c);
  }

  lemma LagDoc(r: Rules, p: Plan, s: State, step: Step)
    requires DocFlight(s) && Lagging(r, p, s) && step.IsDoc() && EnabledDoc(r, s, step)
    requires PlanHolds(p, ApplyDoc(r, s, step))
    ensures Lagging(r, p, ApplyDoc(r, s, step))
  {
    assert HeldDoc(s.workers[step.w].pc) == Some(s.At(step.w).channel);
  }

  lemma LagStep(r: Rules, p: Plan, s: State, step: Step)
    requires IsPlan(r, p) && Inv(r, s) && Enabled(r, s, step) && Lagging(r, p, s) && Keeps(p, s, step)
    ensures Lagging(r, p, Apply(r, s, step)) && Apply(r, s, step).history == s.history
  {
    QuietKeeps(r, s, step);
    PlanStep(r, p, s, step);
    if step.IsHandler() {
      IsHandlerStep(r, s, step);
      LagHandler(r, p, s, step);
    } else if step.IsSearch() {
      IsSearchStep(r, s, step);
      LagSearch(r, p, s, step);
    } else if step.IsUnit() {
      IsUnitStep(r, s, step);
      LagUnit(r, p, s, step);
    } else if step.IsLookup() {
      IsLookupStep(r, s, step);
      LagLookup(r, p, s, step);
    } else {
      IsDocStep(r, s, step);
      LagDoc(r, p, s, step);
    }
  }

  // ----- where the plan halts

  ghost predicate Halted(r: Rules, p: Plan, s: State) { forall step | Keeps(p, s, step) :: !Enabled(r, s, step) }

  lemma HaltedWorker(r: Rules, p: Plan, s: State, w: nat)
    requires Lagging(r, p, s) && Halted(r, p, s) && w < |s.workers|
    ensures Ready(s, w) && (s.At(w).Top? || s.At(w).Asleep?) && (s.At(w).Asleep? ==> !s.engine.wake)
  {
    assert !Enabled(r, s, Signalling(w));
    if s.At(w).TryDirty? || (s.At(w).Asleep? && s.engine.wake) {
      var step := ScannerGoesOn(r, s, w, LookupKey("", "", []));
      assert Keeps(p, s, step);
    } else if !s.At(w).Asleep? && !s.At(w).Top? {
      var step := UnitGoesOn(r, s, w);
      assert Keeps(p, s, step);
    }
  }

  /** While a lookup is left for the taking some worker waits at the top. */
  lemma HaltedAtTop(r: Rules, p: Plan, s: State, key: LookupKey) returns (w: nat)
    requires Control(s) && Awake(s) && Lagging(r, p, s) && Halted(r, p, s) && TakeableLookup(s.engine, key)
    ensures Ready(s, w) && s.At(w).Top?
  {
    assert !Enabled(r, s, ProducerSignal);
    w :| 0 <= w < |s.workers| && (s.engine.wake || WillScanLookups(s.workers[w].pc));
    HaltedWorker(r, p, s, w);
  }

  lemma HaltedHasHandled(r: Rules, p: Plan, s: State)
    requires Control(s) && s.running && Halted(r, p, s) && !Blocked(p, s)
    ensures s.position == |s.history| && s.handling.None?
  {
    assert !Enabled(r, s, HandleStart) && !Enabled(r, s, HandleOp) && !Enabled(r, s, HandleEnd);
  }

  lemma NoAskAhead(r: Rules, p: Plan, s: State, key: LookupKey, read: Read)
    requires IsTarget(r, p.h, key, p.c, read) && read.version <= s.position
    ensures !AskAhead(p, s, key)
  {
  }

  lemma HaltedMayNotRead(r: Rules, p: Plan, s: State, key: LookupKey)
    requires Control(s) && Awake(s) && Lagging(r, p, s) && Halted(r, p, s) && TakeableLookup(s.engine, key)
    ensures !MayRead(p, s, key)
  {
    var w := HaltedAtTop(r, p, s, key);
    assert MayRead(p, s, key) ==> Keeps(p, s, TakesLookup(w, key));
  }

  /** A lookup whose time to be read has come is taken. */
  lemma HaltedReadsLater(r: Rules, p: Plan, s: State, key: LookupKey)
    requires IsPlan(r, p) && Control(s) && Awake(s) && Lagging(r, p, s) && Halted(r, p, s)
    requires s.position == |s.history| && Late(p.h, p.i, key) && Waiting(s, key, p.target(key).value)
    ensures |s.history| < p.target(key).value.version
  {
    var read := p.target(key).value;
    if |s.history| == read.version {
      NoAskAhead(r, p, s, key, read);
      HaltedMayNotRead(r, p, s, key);
    }
  }

  /** At the end of the history no lookup is left. */
  lemma HaltedHasRead(r: Rules, p: Plan, s: State, key: LookupKey)
    requires IsPlan(r, p) && Control(s) && Awake(s) && Lagging(r, p, s) && Halted(r, p, s)
    requires s.position == |s.history| && s.history == p.h
    ensures key !in s.engine.lookups
  {
    if key in s.engine.lookups {
      assert OnPlan(p, s, key);
      assert Waiting(s, key, p.target(key).value);
      HaltedReadsLater(r, p, s, key);
    }
  }

  /** So the engine has worked off everything. */
  lemma HaltedIsStuck(r: Rules, p: Plan, s: State)
    requires IsPlan(r, p) && Control(s) && Awake(s) && Lagging(r, p, s) && Halted(r, p, s)
    requires !Blocked(p, s) && s.history == p.h
    ensures Stuck(r, s)
  {
    HaltedHasHandled(r, p, s);
    forall step | Quiet(step) ensures !Enabled(r, s, step) {
      if step.TakesLookup? {
        HaltedHasRead(r, p, s, step.key);
      } else {
        assert !step.HandleOp? ==> Keeps(p, s, step);
      }
    }
  }

  // ----- one change after the other

  lemma LagSkipped(r: Rules, p: Plan, s: State)
    requires Lagging(r, p, s) && s.handling.Some? && |s.handling.value| > 0 && NextOp(s).Ask?
    requires PlanHolds(p, Skipped(s))
    ensures Lagging(r, p, Skipped(s))
  {
    var t := Skipped(s);
    assert t.workers == s.workers && t.history == s.history && t.engine.lookups == s.engine.lookups;
  }

  lemma LagSkips(r: Rules, p: Plan, s: State) returns (t: State)
    requires IsPlan(r, p) && Reachable(r, s) && Control(s) && Awake(s)
    requires Lagging(r, p, s) && Halted(r, p, s) && Blocked(p, s)
    ensures Reachable(r, t) && t == Skipped(s)
  {
    var w := HaltedAtTop(r, p, s, NextOp(s).key);
    t := Skips(r, s, w);
  }

  /** Taking every step the plan allows ends with the doc still lagging. */
  lemma {:induction false} LagsOn(r: Rules, p: Plan, s: State, rank: Rank) returns (t: State)
    requires IsPlan(r, p) && Reachable(r, s) && Lagging(r, p, s) && rank == RankOf(s)
    ensures Reachable(r, t) && Lagging(r, p, t) && Halted(r, p, t) && !Blocked(p, t) && t.history == s.history
    decreases
      rank.changes, rank.unstarted, rank.ops, rank.lookups, rank.unread, rank.rows, rank.docs, rank.stages,
      rank.signals, rank.tokens, rank.scans
  {
    InvReachable(r, s);
    if step :| Keeps(p, s, step) && Enabled(r, s, step) {
      QuietStepDrops(r, s, step);
      LagStep(r, p, s, step);
      OneStep(r, s, step);
      RunsStayReachable(r, s, [step], Apply(r, s, step));
      t := LagsOn(r, p, Apply(r, s, step), RankOf(Apply(r, s, step)));
    } else if Blocked(p, s) {
      var u := LagSkips(r, p, s);
      PlanSkips(r, p, s);
      LagSkipped(r, p, s);
      t := LagsOn(r, p, u, RankOf(u));
    } else {
      t := s;
    }
  }

  lemma PlanCommits(p: Plan, s: State, t: State)
    requires PlanHolds(p, s) && s.position == |s.history| < |p.h|
    requires t == s.(history := p.h[..|s.history| + 1])
    requires
      forall key | Late(p.h, p.i, key) && Waiting(s, key, p.target(key).value) ::
        |s.history| < p.target(key).value.version
    ensures PlanHolds(p, t)
  {
    assert forall j, k :: Ahead(p, s, j, k) <==> Ahead(p, t, j, k);
    forall key | Late(p.h, p.i, key) ensures OnPlan(p, t, key) {
      assert OnPlan(p, s, key);
    }
  }

  lemma LagCommits(r: Rules, p: Plan, s: State, t: State)
    requires Lagging(r, p, s) && Halted(r, p, s) && PlanHolds(p, t) && |s.history| < |p.h|
    requires t == s.(history := p.h[..|s.history| + 1])
    ensures Lagging(r, p, t)
  {
    forall w | 0 <= w < |t.workers| ensures PassesBy(r, t, t.workers[w].pc, p.c) {
      HaltedWorker(r, p, s, w);
    }
  }

  lemma LagCommit(r: Rules, p: Plan, s: State) returns (t: State)
    requires IsPlan(r, p) && Reachable(r, s) && Lagging(r, p, s) && Halted(r, p, s) && !Blocked(p, s)
    requires |s.history| < |p.h|
    ensures Reachable(r, t) && Lagging(r, p, t) && t.history == p.h[..|s.history| + 1]
  {
    WakeReachable(r, s);
    NextChange(r, p, s);
    t := CommitsOne(r, s, p.h[|s.history|]);
    HaltedCommits(r, p, s, t);
  }

  lemma WakeReachable(r: Rules, s: State)
    requires Reachable(r, s)
    ensures Control(s) && Awake(s)
  {
    InvReachable(r, s);
  }

  lemma NextChange(r: Rules, p: Plan, s: State)
    requires IsPlan(r, p) && s.history <= p.h && |s.history| < |p.h|
    ensures ValidChange(r, p.h[|s.history|])
    ensures s.history + [p.h[|s.history|]] == p.h[..|s.history| + 1]
  {
  }

  lemma HaltedCommits(r: Rules, p: Plan, s: State, t: State)
    requires IsPlan(r, p) && Control(s) && Awake(s) && Lagging(r, p, s) && Halted(r, p, s) && !Blocked(p, s)
    requires |s.history| < |p.h| && t == s.(history := p.h[..|s.history| + 1])
    ensures Lagging(r, p, t)
  {
    HaltedHasHandled(r, p, s);
    forall key | Late(p.h, p.i, key) && Waiting(s, key, p.target(key).value)
      ensures |s.history| < p.target(key).value.version
    {
      HaltedReadsLater(r, p, s, key);
    }
    PlanCommits(p, s, t);
    LagCommits(r, p, s, t);
  }

  /** The rest of the history, change by change. */
  lemma {:induction false} LagsThrough(r: Rules, p: Plan, s: State) returns (t: State)
    requires IsPlan(r, p) && Reachable(r, s) && Lagging(r, p, s)
    ensures Reachable(r, t) && Lagging(r, p, t) && Halted(r, p, t) && !Blocked(p, t) && t.history == p.h
    decreases |p.h| - |s.history|
  {
    t := LagsOn(r, p, s, RankOf(s));
    if |s.history| < |p.h| {
      var u := LagCommit(r, p, t);
      t := LagsThrough(r, p, u);
    }
  }

  // ----- the exact condition

  /** Unless some op is certain to dirty it, there is a run that leaves the doc behind for good. */
  lemma UnforcedIsStale(r: Rules, h: seq<Change>, i: nat, c: Channel) returns (s: State)
    requires AllValid(r, h) && r.parses(c) && i < |h| && !Forced(r, h, i, c)
    ensures Reachable(r, s) && s.running && Stuck(r, s) && Settled(s) && s.history == h && c in s.engine.live
    ensures Latest(s.published, c) <= i
  {
    var p := PlanExists(r, h, i, c);
    var t := StartsLagging(r, p);
    s := LagsThrough(r, p, t);
    InvReachable(r, s);
    HaltedIsStuck(r, p, s);
    StuckIsSettled(r, s);
  }

  /**
   * Change `i` is published on live doc `c` in every run that works off history `h` if and only if some change from
   * `i` on marks the doc, or asks for a lookup key every possible read of which hits the doc from that change to the
   * end: the rows name it, or there are more than the cap of the lookup that reads and it is a doc of the query.
   */
  lemma ShownExactly(r: Rules, h: seq<Change>, i: nat, c: Channel)
    requires AllValid(r, h) && r.parses(c) && i < |h|
    ensures Shown(r, h, i, c) <==> Forced(r, h, i, c)
  {
    if Forced(r, h, i, c) {
      ForcedIsShown(r, h, i, c);
    } else {
      var s := UnforcedIsStale(r, h, i, c);
      assert !(Latest(s.published, c) >= i + 1);
    }
  }

  /**
   * A change asks for a lookup whose index names `c` alone, and the next one takes `c` out of the index before the
   * lookup is read: some run works everything off and leaves `c` at the version before the change.
   */
  lemma DroppedBeforeRead(r: Rules, key: LookupKey, lookup: Lookup, c: Channel) returns (s: State)
    requires r.parses(c) && r.inQuery(key.query, c) && lookup.query.name == key.query
    ensures Reachable(r, s) && s.running && Stuck(r, s) && Settled(s) && c in s.engine.live
    ensures |s.history| == 2 && s.history[0].ops == [Ask(key, lookup)] && s.history[1].ops == []
    ensures IndexAt(s.history, 1, key) == Index(1, [c]) && IndexAt(s.history, 2, key) == Index(0, [])
    ensures Latest(s.published, c) == 0
  {
    var h := [Change([Ask(key, lookup)], k => if k == key then Index(1, [c]) else Index(0, [])),
              Change([], k => Index(0, []))];
    assert h[0].ops[0] == Ask(key, lookup);
    assert !HitSince(r, h, key, c, 1) by {
      assert AskedBefore(h, 2, key, lookup) && !Hits(r, h, 2, key, lookup, c);
    }
    s := UnforcedIsStale(r, h, 0, c);
    InvReachable(r, s);
  }

  /** With the index over every cap ever since the change, every live doc of the query is certain to be published. */
  lemma OverCapForces(r: Rules, h: seq<Change>, i: nat, k: nat, c: Channel)
    requires i < |h| && k < |h[i].ops| && h[i].ops[k].Ask? && r.inQuery(h[i].ops[k].key.query, c)
    requires
      forall u, lookup | i < u <= |h| && AskedBefore(h, u, h[i].ops[k].key, lookup) ::
        !Within(IndexAt(h, u, h[i].ops[k].key), lookup)
    ensures Shown(r, h, i, c)
  {
    assert ForcedBy(r, h, i, k, c);
    ForcedIsShown(r, h, i, c);
  }
}
