/**
 * With no further input, no failing query and no failing publish, every run of the refetch protocol is finite and
 * ends with empty queues and every live doc fresh.
 */
module Convergence {
  import opened Wrappers
  import opened ChannelCodec
  import opened EventMapping
  import opened EngineCore
  import opened Protocol
  import opened ProtocolInvariants
  import opened ProtocolSteps
  import opened Guarantees

  /** Steps that bring in nothing new and fail nothing: handling what is committed, signals, and workers. */
  predicate Quiet(step: Step) {
    && !step.IsOutside() && !step.IsDemand()
    && !step.KeysFailed? && !step.DocFailed? && !step.PublishFailed?
  }

  predicate AllQuiet(steps: seq<Step>) { forall k | 0 <= k < |steps| :: Quiet(steps[k]) }

  // ----- the measure

  function Sum(workers: seq<Worker>, weight: Worker -> nat): nat {
    if workers == [] then 0 else Sum(workers[..|workers| - 1], weight) + weight(workers[|workers| - 1])
  }

  lemma {:induction false} SumUpdate(workers: seq<Worker>, w: nat, worker: Worker, weight: Worker -> nat)
    requires w < |workers|
    ensures Sum(workers[w := worker], weight) == Sum(workers, weight) - weight(workers[w]) + weight(worker)
  {
    var n := |workers| - 1;
    var updated := workers[w := worker];
    if w < n {
      SumUpdate(workers[..n], w, worker, weight);
      assert updated[..n] == workers[..n][w := worker];
    } else {
      assert updated[..n] == workers[..n];
    }
  }

  function LookupRetries(w: Worker): nat { if w.pc.LookupBackoff? then 2 else 0 }
  function UnreadLookups(w: Worker): nat { if w.pc.LookupRead? then 1 else 0 }
  function RowsLeft(w: Worker): nat {
    if w.pc.LookupMarking? then |w.pc.rows| + 1 else if w.pc.LookupOverCap? then 1 else 0
  }
  function DocRetries(w: Worker): nat { if w.pc.DocBackoff? then 2 else 0 }
  function DocStages(w: Worker): nat { if w.pc.DocRead? then 2 else if w.pc.DocPublish? then 1 else 0 }
  function SignalsLeft(w: Worker): nat {
    (if w.signalling then 1 else 0) + if w.pc.LookupFinish? || w.pc.DocFinish? then 2 else 0
  }
  function ScansLeft(w: Worker): nat { if w.pc.Top? then 2 else if w.pc.TryDirty? then 1 else 0 }

  /** Compared lexicographically, in this order. */
  datatype Rank = Rank(
    changes: int, unstarted: nat, ops: nat, lookups: nat, unread: nat, rows: nat,
    docs: nat, stages: nat, signals: nat, tokens: nat, scans: nat)

  function RankOf(s: State): Rank {
    Rank(
      |s.history| - s.position,
      if s.handling.None? then 1 else 0,
      if s.handling.Some? then |s.handling.value| else 0,
      |s.engine.lookups.Keys| + Sum(s.workers, LookupRetries),
      Sum(s.workers, UnreadLookups),
      Sum(s.workers, RowsLeft),
      |s.engine.dirty| + Sum(s.workers, DocRetries),
      Sum(s.workers, DocStages),
      s.signals + Sum(s.workers, SignalsLeft),
      if s.engine.wake then 1 else 0,
      Sum(s.workers, ScansLeft))
  }

  predicate BelowInWork(a: Rank, b: Rank) {
    || a.docs < b.docs
    || (a.docs == b.docs
        && (|| a.stages < b.stages
            || (a.stages == b.stages
                && (|| a.signals < b.signals
                    || (a.signals == b.signals
                        && (a.tokens < b.tokens || (a.tokens == b.tokens && a.scans < b.scans)))))))
  }

  predicate BelowInLookups(a: Rank, b: Rank) {
    || a.lookups < b.lookups
    || (a.lookups == b.lookups
        && (|| a.unread < b.unread
            || (a.unread == b.unread && (a.rows < b.rows || (a.rows == b.rows && BelowInWork(a, b))))))
  }

  predicate Below(a: Rank, b: Rank) {
    || a.changes < b.changes
    || (a.changes == b.changes
        && (|| a.unstarted < b.unstarted
            || (a.unstarted == b.unstarted && (a.ops < b.ops || (a.ops == b.ops && BelowInLookups(a, b))))))
  }

  lemma SumsAfter(s: State, w: nat, worker: Worker)
    requires w < |s.workers|
    ensures
      var t := s.workers[w := worker];
      var was := s.workers[w];
      && Sum(t, LookupRetries) == Sum(s.workers, LookupRetries) - LookupRetries(was) + LookupRetries(worker)
      && Sum(t, UnreadLookups) == Sum(s.workers, UnreadLookups) - UnreadLookups(was) + UnreadLookups(worker)
      && Sum(t, RowsLeft) == Sum(s.workers, RowsLeft) - RowsLeft(was) + RowsLeft(worker)
      && Sum(t, DocRetries) == Sum(s.workers, DocRetries) - DocRetries(was) + DocRetries(worker)
      && Sum(t, DocStages) == Sum(s.workers, DocStages) - DocStages(was) + DocStages(worker)
      && Sum(t, SignalsLeft) == Sum(s.workers, SignalsLeft) - SignalsLeft(was) + SignalsLeft(worker)
      && Sum(t, ScansLeft) == Sum(s.workers, ScansLeft) - ScansLeft(was) + ScansLeft(worker)
  {
    SumUpdate(s.workers, w, worker, LookupRetries);
    SumUpdate(s.workers, w, worker, UnreadLookups);
    SumUpdate(s.workers, w, worker, RowsLeft);
    SumUpdate(s.workers, w, worker, DocRetries);
    SumUpdate(s.workers, w, worker, DocStages);
    SumUpdate(s.workers, w, worker, SignalsLeft);
    SumUpdate(s.workers, w, worker, ScansLeft);
  }

  lemma Fewer<T>(a: set<T>, b: set<T>)
    requires a <= b
    ensures |a| <= |b| && (|a| == |b| ==> a == b)
  {
    assert |b - a| == |b| - |a|;
    if |a| == |b| {
      assert b - a == {};
    }
  }

  lemma HandlerDrops(s: State, step: Step)
    requires Control(s) && step.IsHandler() && EnabledHandler(s, step)
    ensures Below(RankOf(ApplyHandler(s, step)), RankOf(s))
  {
  }

  lemma NoDocDrops(s: State, step: Step)
    requires Control(s) && step.FindsNoDoc? && EnabledSearch(s, step)
    ensures Below(RankOf(ApplySearch(s, step)), RankOf(s))
  {
    var t := ApplySearch(s, step);
    SumsAfter(s, step.w, t.workers[step.w]);
    Fewer(t.engine.dirty, s.engine.dirty);
  }

  lemma SignallingDrops(s: State, step: Step)
    requires Control(s) && step.Signalling? && EnabledSearch(s, step)
    ensures Below(RankOf(ApplySearch(s, step)), RankOf(s))
  {
    SumsAfter(s, step.w, ApplySearch(s, step).workers[step.w]);
  }

  lemma LooksForDocsDrops(s: State, step: Step)
    requires Control(s) && step.FindsNoLookup? && EnabledSearch(s, step)
    ensures Below(RankOf(ApplySearch(s, step)), RankOf(s))
  {
    SumsAfter(s, step.w, ApplySearch(s, step).workers[step.w]);
  }

  lemma WakesDrops(s: State, step: Step)
    requires Control(s) && step.Wakes? && EnabledSearch(s, step)
    ensures Below(RankOf(ApplySearch(s, step)), RankOf(s))
  {
    SumsAfter(s, step.w, ApplySearch(s, step).workers[step.w]);
  }

  lemma SearchDrops(s: State, step: Step)
    requires Control(s) && step.IsSearch() && EnabledSearch(s, step)
    ensures Below(RankOf(ApplySearch(s, step)), RankOf(s))
  {
    if step.FindsNoDoc? {
      NoDocDrops(s, step);
    } else if step.Signalling? {
      SignallingDrops(s, step);
    } else if step.FindsNoLookup? {
      LooksForDocsDrops(s, step);
    } else {
      WakesDrops(s, step);
    }
  }

  lemma TakesDocDrops(s: State, step: Step)
    requires Control(s) && step.TakesDoc? && EnabledUnit(s, step)
    ensures Below(RankOf(ApplyUnit(s, step)), RankOf(s))
  {
    var t := ApplyUnit(s, step);
    SumsAfter(s, step.w, t.workers[step.w]);
    Fewer(t.engine.dirty, s.engine.dirty);
    assert step.channel !in t.engine.dirty;
  }

  lemma TakesLookupDrops(s: State, step: Step)
    requires Control(s) && step.TakesLookup? && EnabledUnit(s, step)
    ensures Below(RankOf(ApplyUnit(s, step)), RankOf(s))
  {
    var t := ApplyUnit(s, step);
    SumsAfter(s, step.w, t.workers[step.w]);
    Fewer(t.engine.lookups.Keys, s.engine.lookups.Keys);
    assert step.key !in t.engine.lookups;
  }

  lemma FinishDocDrops(s: State, step: Step)
    requires Control(s) && step.FinishesDoc? && EnabledUnit(s, step)
    ensures Below(RankOf(ApplyUnit(s, step)), RankOf(s))
  {
    SumsAfter(s, step.w, ApplyUnit(s, step).workers[step.w]);
  }

  lemma FinishLookupDrops(s: State, step: Step)
    requires Control(s) && step.FinishesLookup? && EnabledUnit(s, step)
    ensures Below(RankOf(ApplyUnit(s, step)), RankOf(s))
  {
    SumsAfter(s, step.w, ApplyUnit(s, step).workers[step.w]);
  }

  lemma UnitDrops(s: State, step: Step)
    requires Control(s) && step.IsUnit() && EnabledUnit(s, step)
    ensures Below(RankOf(ApplyUnit(s, step)), RankOf(s))
  {
    if step.TakesDoc? {
      TakesDocDrops(s, step);
    } else if step.TakesLookup? {
      TakesLookupDrops(s, step);
    } else if step.FinishesDoc? {
      FinishDocDrops(s, step);
    } else {
      FinishLookupDrops(s, step);
    }
  }

  lemma RequeueDrops(r: Rules, s: State, step: Step)
    requires Control(s) && step.RequeuesLookup? && EnabledLookup(s, step)
    ensures Below(RankOf(ApplyLookup(r, s, step)), RankOf(s))
  {
    var t := ApplyLookup(r, s, step);
    SumsAfter(s, step.w, t.workers[step.w]);
    assert t.engine.lookups.Keys == s.engine.lookups.Keys + {s.At(step.w).key};
  }

  lemma ReadDrops(r: Rules, s: State, step: Step)
    requires Control(s) && (step.KeysRead? || step.KeysOverCap?) && EnabledLookup(s, step)
    ensures Below(RankOf(ApplyLookup(r, s, step)), RankOf(s))
  {
    SumsAfter(s, step.w, ApplyLookup(r, s, step).workers[step.w]);
  }

  lemma MarksDrops(r: Rules, s: State, step: Step)
    requires Control(s) && (step.MarksRow? || step.RowsDone?) && EnabledLookup(s, step)
    ensures Below(RankOf(ApplyLookup(r, s, step)), RankOf(s))
  {
    SumsAfter(s, step.w, ApplyLookup(r, s, step).workers[step.w]);
  }

  lemma MarksLiveDrops(r: Rules, s: State, step: Step)
    requires Control(s) && step.MarksLive? && EnabledLookup(s, step)
    ensures Below(RankOf(ApplyLookup(r, s, step)), RankOf(s))
  {
    SumsAfter(s, step.w, ApplyLookup(r, s, step).workers[step.w]);
  }

  lemma LookupDrops(r: Rules, s: State, step: Step)
    requires Control(s) && step.IsLookup() && EnabledLookup(s, step) && Quiet(step)
    ensures Below(RankOf(ApplyLookup(r, s, step)), RankOf(s))
  {
    if step.RequeuesLookup? {
      RequeueDrops(r, s, step);
    } else if step.KeysRead? || step.KeysOverCap? {
      ReadDrops(r, s, step);
    } else if step.MarksLive? {
      MarksLiveDrops(r, s, step);
    } else {
      MarksDrops(r, s, step);
    }
  }

  lemma RequeueDocDrops(r: Rules, s: State, step: Step)
    requires Control(s) && step.RequeuesDoc? && EnabledDoc(r, s, step)
    ensures Below(RankOf(ApplyDoc(r, s, step)), RankOf(s))
  {
    var t := ApplyDoc(r, s, step);
    SumsAfter(s, step.w, t.workers[step.w]);
    assert t.engine.dirty == s.engine.dirty + {s.At(step.w).channel};
  }

  lemma DocDrops(r: Rules, s: State, step: Step)
    requires Control(s) && step.IsDoc() && EnabledDoc(r, s, step) && Quiet(step)
    ensures Below(RankOf(ApplyDoc(r, s, step)), RankOf(s))
  {
    if step.RequeuesDoc? {
      RequeueDocDrops(r, s, step);
    } else {
      SumsAfter(s, step.w, ApplyDoc(r, s, step).workers[step.w]);
    }
  }

  /** Every quiet step goes down in the measure. */
  lemma QuietStepDrops(r: Rules, s: State, step: Step)
    requires Inv(r, s) && Enabled(r, s, step) && Quiet(step)
    ensures Below(RankOf(Apply(r, s, step)), RankOf(s)) && RankOf(s).changes >= 0
  {
    if step.IsHandler() {
      IsHandlerStep(r, s, step);
      HandlerDrops(s, step);
    } else if step.IsSearch() {
      IsSearchStep(r, s, step);
      SearchDrops(s, step);
    } else if step.IsUnit() {
      IsUnitStep(r, s, step);
      UnitDrops(s, step);
    } else if step.IsLookup() {
      IsLookupStep(r, s, step);
      LookupDrops(r, s, step);
    } else {
      IsDocStep(r, s, step);
      DocDrops(r, s, step);
    }
  }

  // ----- where quiet runs end

  ghost predicate Stuck(r: Rules, s: State) {
    forall step | Quiet(step) :: !Enabled(r, s, step)
  }

  /** Nothing is queued, held or on its way, and every live doc shows what it owes. */
  ghost predicate Settled(s: State) {
    && s.position == |s.history| && s.handling.None? && s.signals == 0
    && s.engine.dirty == {} && s.engine.lookups.Keys == {}
    && s.engine.inflight == {} && s.engine.lookupInflight == {}
    && (forall w | 0 <= w < |s.workers| :: s.workers[w].pc.Asleep?)
    && (forall c | c in s.engine.live :: Latest(s.published, c) >= Latest(s.owed, c) >= 0)
  }

  /** A worker looking for work can go on, unless it is asleep without a token; at the top it takes `key` if it can. */
  lemma ScannerGoesOn(r: Rules, s: State, w: nat, key: LookupKey) returns (step: Step)
    requires Ready(s, w) && (s.At(w).Top? || s.At(w).TryDirty? || (s.At(w).Asleep? && s.engine.wake))
    requires
      s.At(w).Top? ==> TakeableLookup(s.engine, key) || forall k | k in s.engine.lookups :: !TakeableLookup(s.engine, k)
    ensures Quiet(step) && Enabled(r, s, step) && step.IsWorkerStep()
    ensures step.TakesLookup? ==> s.At(w).Top? && TakeableLookup(s.engine, key) && step == TakesLookup(w, key)
  {
    step :=
      if s.At(w).Asleep? then Wakes(w)
      else if s.At(w).Top? then if TakeableLookup(s.engine, key) then TakesLookup(w, key) else FindsNoLookup(w)
      else
        if c :| c in s.engine.dirty - s.engine.inflight && c in s.engine.live then TakesDoc(w, {}, c)
        else FindsNoDoc(w);
  }

  /** A worker holding a unit can always go on. */
  lemma UnitGoesOn(r: Rules, s: State, w: nat) returns (step: Step)
    requires Ready(s, w) && !s.At(w).Top? && !s.At(w).TryDirty? && !s.At(w).Asleep?
    ensures Quiet(step) && Enabled(r, s, step) && step.IsWorkerStep() && !step.TakesLookup?
    ensures HeldKey(s.At(w)).Some? ==> step.IsLookup() || step.FinishesLookup?
  {
    var pc := s.At(w);
    step :=
      if pc.LookupRead? then if Within(IndexNow(s, w), pc.lookup) then KeysRead(w) else KeysOverCap(w)
      else if pc.LookupOverCap? then MarksLive(w)
      else if pc.LookupMarking? then if |pc.rows| > 0 then MarksRow(w) else RowsDone(w)
      else if pc.LookupBackoff? then RequeuesLookup(w)
      else if pc.LookupFinish? then FinishesLookup(w)
      else if pc.DocRead? then if r.parses(pc.channel) then DocWasRead(w) else DocUnparsed(w)
      else if pc.DocPublish? then Publishes(w)
      else if pc.DocBackoff? then RequeuesDoc(w)
      else FinishesDoc(w);
  }

  lemma StuckWorkerSleeps(r: Rules, s: State, w: nat)
    requires s.running && Stuck(r, s) && w < |s.workers|
    ensures s.workers[w].pc.Asleep? && !s.engine.wake
  {
    assert !Enabled(r, s, Signalling(w));
    if s.At(w).Top? || s.At(w).TryDirty? || (s.At(w).Asleep? && s.engine.wake) {
      var key :=
        if k :| k in s.engine.lookups && TakeableLookup(s.engine, k) then k else LookupKey("", "", []);
      var _ := ScannerGoesOn(r, s, w, key);
    } else if !s.At(w).Asleep? {
      var _ := UnitGoesOn(r, s, w);
    }
  }

  lemma StuckHasHandled(r: Rules, s: State)
    requires Control(s) && s.running && Stuck(r, s)
    ensures s.position == |s.history| && s.handling.None? && s.signals == 0
  {
    assert !Enabled(r, s, HandleStart) && !Enabled(r, s, HandleOp) && !Enabled(r, s, HandleEnd);
    assert !Enabled(r, s, ProducerSignal);
  }

  /** Workers that sleep hold nothing, and with no signal on the way leave nothing queued. */
  lemma SleepersLeaveNothing(r: Rules, s: State)
    requires Inv(r, s) && s.running && s.signals == 0 && !s.engine.wake
    requires forall w | 0 <= w < |s.workers| :: s.workers[w].pc.Asleep?
    ensures s.engine.inflight == {} && s.engine.lookupInflight == {}
    ensures s.engine.dirty == {} && s.engine.lookups.Keys == {}
    ensures forall c | c in s.engine.live :: Latest(s.published, c) >= Latest(s.owed, c) >= 0
  {
  }

  lemma StuckIsSettled(r: Rules, s: State)
    requires Inv(r, s) && s.running && Stuck(r, s)
    ensures Settled(s)
  {
    StuckHasHandled(r, s);
    forall w | 0 <= w < |s.workers| ensures s.workers[w].pc.Asleep? && !s.engine.wake {
      StuckWorkerSleeps(r, s, w);
    }
    assert s.workers[0].pc.Asleep?;
    SleepersLeaveNothing(r, s);
  }

  // ----- the theorems

  ghost predicate QuietAt(r: Rules, run: nat -> State, taken: nat -> Step, k: nat) {
    Quiet(taken(k)) && Enabled(r, run(k), taken(k)) && run(k + 1) == Apply(r, run(k), taken(k))
  }

  /** No run is quiet for ever: from any point on, some step is not a quiet one. */
  lemma {:induction false} QuietRunsEnd(r: Rules, run: nat -> State, taken: nat -> Step, i: nat, rank: Rank)
    requires Inv(r, run(i)) && rank == RankOf(run(i))
    ensures exists k: nat :: k >= i && !QuietAt(r, run, taken, k)
    decreases
      rank.changes, rank.unstarted, rank.ops, rank.lookups, rank.unread, rank.rows, rank.docs, rank.stages,
      rank.signals, rank.tokens, rank.scans
  {
    if !QuietAt(r, run, taken, i) {
    } else {
      InvStep(r, run(i), taken(i));
      QuietStepDrops(r, run(i), taken(i));
      QuietRunsEnd(r, run, taken, i + 1, RankOf(run(i + 1)));
    }
  }

  lemma QuietNext(r: Rules, s: State) returns (step: Step, t: State)
    requires Inv(r, s) && s.running && !Stuck(r, s)
    ensures Quiet(step) && RunsTo(r, s, [step], t) && Inv(r, t) && t.running && Below(RankOf(t), RankOf(s))
  {
    step :| Quiet(step) && Enabled(r, s, step);
    QuietStepDrops(r, s, step);
    InvStep(r, s, step);
    StillRunning(r, s, step);
    OneStep(r, s, step);
    t := Apply(r, s, step);
  }

  lemma QuietPrepend(r: Rules, s: State, step: Step, u: State, rest: seq<Step>, t: State)
    requires Quiet(step) && AllQuiet(rest) && RunsTo(r, s, [step], u) && RunsTo(r, u, rest, t)
    ensures RunsTo(r, s, [step] + rest, t) && AllQuiet([step] + rest)
  {
    RunsCompose(r, s, [step], u, rest, t);
  }

  ghost predicate SettlesAfter(r: Rules, s: State, more: seq<Step>, t: State) {
    RunsTo(r, s, more, t) && AllQuiet(more) && t.running && Stuck(r, t) && Settled(t)
  }

  /** From every running state some quiet continuation runs until nothing quiet is left to do. */
  lemma {:induction false} QuietRunSettles(r: Rules, s: State, rank: Rank) returns (more: seq<Step>, t: State)
    requires Inv(r, s) && s.running && rank == RankOf(s)
    ensures SettlesAfter(r, s, more, t)
    decreases
      rank.changes, rank.unstarted, rank.ops, rank.lookups, rank.unread, rank.rows, rank.docs, rank.stages,
      rank.signals, rank.tokens, rank.scans
  {
    if Stuck(r, s) {
      StuckIsSettled(r, s);
      RunsToNothing(r, s);
      more, t := [], s;
    } else {
      var step, u := QuietNext(r, s);
      var rest;
      rest, t := QuietRunSettles(r, u, RankOf(u));
      QuietPrepend(r, s, step, u, rest, t);
      more := [step] + rest;
    }
  }

  /** Every reachable running state can settle without further input. */
  lemma EveryRunCanSettle(r: Rules, s: State) returns (more: seq<Step>, t: State)
    requires Reachable(r, s) && s.running
    ensures SettlesAfter(r, s, more, t)
  {
    InvReachable(r, s);
    more, t := QuietRunSettles(r, s, RankOf(s));
  }

  lemma WorkersKeepRunning(r: Rules, s: State, step: Step)
    requires Enabled(r, s, step) && (step.IsSearch() || step.IsUnit())
    ensures Apply(r, s, step).running == s.running
  {
    if step.IsSearch() {
      IsSearchStep(r, s, step);
    } else {
      IsUnitStep(r, s, step);
    }
  }

  lemma StillRunning(r: Rules, s: State, step: Step)
    requires s.running && Enabled(r, s, step) && Quiet(step)
    ensures Apply(r, s, step).running
  {
    if step.IsHandler() {
      IsHandlerStep(r, s, step);
    } else if step.IsLookup() {
      IsLookupStep(r, s, step);
    } else if step.IsDoc() {
      IsDocStep(r, s, step);
    } else {
      WorkersKeepRunning(r, s, step);
    }
  }

  /** Every live doc that a read of the index by `lookup` at version `u` hits shows that version. */
  ghost predicate AllShown(r: Rules, s: State, key: LookupKey, u: nat, lookup: Lookup) {
    && AskedBefore(s.history, u, key, lookup)
    && forall c | c in s.engine.live && Hits(r, s.history, u, key, lookup, c) :: Latest(s.published, c) >= u
  }

  /** The index has been read for `key` at version `v` or later, and every live doc hit then shows that version. */
  ghost predicate KeyShown(r: Rules, s: State, key: LookupKey, v: nat) {
    exists u: nat, lookup :: v <= u <= s.Version() && AllShown(r, s, key, u, lookup)
  }

  /**
   * Convergence: wherever quiet steps have run out, every committed change that marks a live channel is published.
   * Every lookup a committed change has asked for has been read at the change's version or later, and every live doc
   * it hit then is published no older than that read.
   */
  lemma Converged(r: Rules, s: State, i: nat, j: nat, c: Channel)
    requires Reachable(r, s) && s.running && Stuck(r, s)
    requires i < |s.history| && j < |s.history[i].ops|
    ensures Settled(s)
    ensures
      match s.history[i].ops[j]
      case Mark(channel) => channel == c && c in s.engine.live ==> Latest(s.published, c) >= i + 1
      case Ask(key, _) => KeyShown(r, s, key, i + 1)
  {
    InvReachable(r, s);
    StuckIsSettled(r, s);
    NoLostUpdate(r, s, i, j, c);
    if s.history[i].ops[j].Ask? {
      SettledKeyIsShown(r, s, s.history[i].ops[j].key, i + 1);
    } else if c in s.engine.live && s.history[i].ops[j].channel == c {
      SettledDocIsShown(s, c, i + 1);
    }
  }

  lemma SettledDocIsShown(s: State, c: Channel, v: int)
    requires Settled(s) && Reaches(s, c, v)
    ensures Latest(s.published, c) >= v
  {
  }

  lemma SettledKeyIsShown(r: Rules, s: State, key: LookupKey, v: nat)
    requires Settled(s) && KeyReaches(r, s, key, v)
    ensures KeyShown(r, s, key, v)
  {
    var u: nat, lookup :| v <= u <= s.Version() && AllReach(r, s, key, u, lookup);
    forall c | c in s.engine.live && Hits(r, s.history, u, key, lookup, c) ensures Latest(s.published, c) >= u {
      SettledDocIsShown(s, c, u);
    }
    assert AllShown(r, s, key, u, lookup);
  }

  /** A live channel every read since the change hits is itself published no older than the change. */
  lemma HitChannelConverged(r: Rules, s: State, i: nat, j: nat, c: Channel)
    requires Reachable(r, s) && s.running && Stuck(r, s)
    requires i < |s.history| && j < |s.history[i].ops| && s.history[i].ops[j].Ask?
    requires c in s.engine.live && HitSince(r, s.history, s.history[i].ops[j].key, c, i + 1)
    ensures Latest(s.published, c) >= i + 1
  {
    Converged(r, s, i, j, c);
    var key := s.history[i].ops[j].key;
    var u: nat, lookup :| i + 1 <= u <= s.Version() && AllShown(r, s, key, u, lookup);
    assert Hits(r, s.history, u, key, lookup, c);
  }
}
