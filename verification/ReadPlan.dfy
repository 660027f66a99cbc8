/**
 * When each lookup is to read the index so that a doc is left behind: a plan gives the version and the lookup of one
 * read for each key, and the steps that keep to it.
 */
module ReadPlan {
  import opened Wrappers
  import opened Spec
  import opened ChannelCodec
  import opened EventMapping
  import opened EngineCore
  import opened Protocol
  import opened ProtocolInvariants
  import opened ProtocolSteps
  import opened Guarantees
  import opened Convergence
  import opened Freshness

  ghost predicate Asks(h: seq<Change>, j: int, k: int, key: LookupKey) {
    0 <= j < |h| && 0 <= k < |h[j].ops| && h[j].ops[k].Ask? && h[j].ops[k].key == key
  }

  /** The read serves every change that asks for the key, and passes `c` by. */
  ghost predicate IsTarget(r: Rules, h: seq<Change>, key: LookupKey, c: Channel, read: Read) {
    && read.version <= |h| && AskedBefore(h, read.version, key, read.lookup)
    && !Hits(r, h, read.version, key, read.lookup, c)
    && forall j, k | Asks(h, j, k, key) :: j < read.version
  }

  /** Change `i` or a later one asks for the key. */
  ghost predicate Late(h: seq<Change>, i: nat, key: LookupKey) { exists j, k :: i <= j && Asks(h, j, k, key) }

  lemma {:induction false} LastAsk(h: seq<Change>, key: LookupKey, n: nat) returns (j: int, k: int)
    requires n <= |h| && (exists j, k :: Asks(h, j, k, key)) && forall j, k | Asks(h, j, k, key) :: j < n
    ensures Asks(h, j, k, key) && forall j', k' | Asks(h, j', k', key) :: j' <= j
    decreases n
  {
    if j', k' :| j' == n - 1 && Asks(h, j', k', key) {
      j, k := j', k';
    } else {
      j, k := LastAsk(h, key, n - 1);
    }
  }

  /** Unless some op is certain to dirty `c`, each key asked for late can be read so that it passes `c` by. */
  lemma TargetExists(r: Rules, h: seq<Change>, i: nat, c: Channel, key: LookupKey)
    requires !Forced(r, h, i, c) && Late(h, i, key)
    ensures exists read :: IsTarget(r, h, key, c, read)
  {
    var j', k' :| i <= j' && Asks(h, j', k', key);
    var j, k := LastAsk(h, key, |h|);
    assert !ForcedBy(r, h, j, k, c);
    var u, lookup :| j + 1 <= u <= |h| && AskedBefore(h, u, key, lookup) && !Hits(r, h, u, key, lookup, c);
    assert IsTarget(r, h, key, c, Read(u, lookup));
  }

  /** A history to work off, the change and the doc to leave behind, and when each key is read by which lookup. */
  datatype Plan = Plan(h: seq<Change>, i: nat, c: Channel, target: LookupKey -> Option<Read>)

  ghost predicate SparesDoc(change: Change, c: Channel) {
    forall k | 0 <= k < |change.ops| :: change.ops[k] != Mark(c)
  }

  ghost predicate IsPlan(r: Rules, p: Plan) {
    && AllValid(r, p.h) && r.parses(p.c) && p.i < |p.h|
    && (forall j | p.i <= j < |p.h| :: SparesDoc(p.h[j], p.c))
    && (forall key | Late(p.h, p.i, key) ::
          p.target(key).Some? && IsTarget(r, p.h, key, p.c, p.target(key).value))
  }

  ghost function TargetOf(r: Rules, h: seq<Change>, c: Channel, key: LookupKey): Option<Read> {
    if exists read :: IsTarget(r, h, key, c, read) then
      var read :| IsTarget(r, h, key, c, read);
      Some(read)
    else None
  }

  lemma PlanExists(r: Rules, h: seq<Change>, i: nat, c: Channel) returns (p: Plan)
    requires AllValid(r, h) && r.parses(c) && i < |h| && !Forced(r, h, i, c)
    ensures IsPlan(r, p) && p.h == h && p.i == i && p.c == c
  {
    p := Plan(h, i, c, key => TargetOf(r, h, c, key));
    forall j, k | i <= j < |h| && 0 <= k < |h[j].ops| ensures h[j].ops[k] != Mark(c) {
      assert !ForcedBy(r, h, j, k, c);
    }
    assert forall j | i <= j < |h| :: SparesDoc(h[j], c);
    forall key | Late(h, i, key) ensures p.target(key).Some? && IsTarget(r, h, key, c, p.target(key).value) {
      TargetExists(r, h, i, c, key);
    }
  }

  // ----- keeping to the plan

  /** This op has not been handled yet. */
  ghost predicate Ahead(p: Plan, s: State, j: int, k: int) {
    && 0 <= j < |p.h| && 0 <= k < |p.h[j].ops|
    && (j > s.position
        || (j == s.position && (s.handling.None? || k >= |p.h[j].ops| - |s.handling.value|)))
  }

  ghost predicate AskAhead(p: Plan, s: State, key: LookupKey) {
    exists j, k :: Ahead(p, s, j, k) && Asks(p.h, j, k, key)
  }

  /** The lookup that is to read has not been queued yet. */
  ghost predicate TargetAhead(p: Plan, s: State, key: LookupKey, read: Read) {
    key !in s.engine.lookupInflight && exists j, k :: Ahead(p, s, j, k) && p.h[j].ops[k] == Ask(key, read.lookup)
  }

  /** It is queued, and its version is not past. */
  ghost predicate Waiting(s: State, key: LookupKey, read: Read) {
    && key in s.engine.lookups && s.engine.lookups[key] == read.lookup && key !in s.engine.lookupInflight
    && |s.history| <= read.version
  }

  ghost predicate Over(p: Plan, s: State, key: LookupKey) { key !in s.engine.lookups && !AskAhead(p, s, key) }

  ghost predicate OnPlan(p: Plan, s: State, key: LookupKey) {
    && p.target(key).Some?
    && (|| TargetAhead(p, s, key, p.target(key).value)
        || Waiting(s, key, p.target(key).value)
        || Over(p, s, key))
  }

  /** The next op asks for a key whose target lookup is queued and would be replaced. */
  ghost predicate Blocked(p: Plan, s: State) {
    && s.handling.Some? && |s.handling.value| > 0 && NextOp(s).Ask? && Late(p.h, p.i, NextOp(s).key)
    && p.target(NextOp(s).key).Some? && Waiting(s, NextOp(s).key, p.target(NextOp(s).key).value)
  }

  ghost predicate MayRead(p: Plan, s: State, key: LookupKey) {
    && p.target(key).Some? && Waiting(s, key, p.target(key).value)
    && |s.history| == p.target(key).value.version && !AskAhead(p, s, key)
  }

  /** The quiet steps that keep to the plan. */
  ghost predicate Keeps(p: Plan, s: State, step: Step) {
    && Quiet(step)
    && (step.HandleOp? ==> !Blocked(p, s))
    && (step.TakesLookup? && Late(p.h, p.i, step.key) ==> MayRead(p, s, step.key))
  }

  ghost predicate PlanHolds(p: Plan, s: State) {
    && s.running && s.history <= p.h && |s.history| <= Max(p.i, s.position + 1)
    && (forall w | 0 <= w < |s.workers| :: !s.workers[w].pc.LookupBackoff?)
    && (forall key | Late(p.h, p.i, key) :: OnPlan(p, s, key))
  }

  lemma PlanHandler(r: Rules, p: Plan, s: State, step: Step)
    requires IsPlan(r, p) && Control(s) && PlanHolds(p, s)
    requires step.IsHandler() && EnabledHandler(s, step) && !step.HandleOp?
    ensures PlanHolds(p, ApplyHandler(s, step))
  {
    var t := ApplyHandler(s, step);
    assert forall j, k :: Ahead(p, s, j, k) <==> Ahead(p, t, j, k);
    forall key | Late(p.h, p.i, key) ensures OnPlan(p, t, key) {
      assert OnPlan(p, s, key);
    }
  }

  lemma NextIsAhead(p: Plan, s: State) returns (j: int, k: int)
    requires Control(s) && PlanHolds(p, s) && s.handling.Some? && |s.handling.value| > 0
    ensures j == s.position && Ahead(p, s, j, k) && p.h[j].ops[k] == NextOp(s)
    ensures k == |p.h[j].ops| - |s.handling.value|
  {
    j, k := s.position, |p.h[s.position].ops| - |s.handling.value|;
    assert s.history[j] == p.h[j];
  }

  /** After the next op has been handled everything else is still ahead. */
  lemma AheadNext(p: Plan, s: State, t: State, j: int, k: int)
    requires s.handling.Some? && |s.handling.value| > 0 && t.position == s.position
    requires t.handling == Some(s.handling.value[1..]) && s.position < |p.h|
    ensures
      Ahead(p, t, j, k) <==>
        Ahead(p, s, j, k) && !(j == s.position && k == |p.h[s.position].ops| - |s.handling.value|)
  {
  }

  lemma PlanOp(r: Rules, p: Plan, s: State, step: Step)
    requires IsPlan(r, p) && Control(s) && PlanHolds(p, s)
    requires step.HandleOp? && EnabledHandler(s, step) && !Blocked(p, s)
    ensures PlanHolds(p, ApplyHandler(s, step))
  {
    var t := ApplyHandler(s, step);
    var j, k := NextIsAhead(p, s);
    forall key | Late(p.h, p.i, key) ensures OnPlan(p, t, key) {
      assert OnPlan(p, s, key);
      PlanOpKey(r, p, s, key, j, k);
    }
  }

  lemma PlanOpKey(r: Rules, p: Plan, s: State, key: LookupKey, j: int, k: int)
    requires IsPlan(r, p) && Control(s) && PlanHolds(p, s) && Late(p.h, p.i, key) && OnPlan(p, s, key)
    requires EnabledHandler(s, HandleOp) && !Blocked(p, s)
    requires j == s.position && Ahead(p, s, j, k) && p.h[j].ops[k] == NextOp(s)
    requires k == |p.h[j].ops| - |s.handling.value|
    ensures OnPlan(p, ApplyHandler(s, HandleOp), key)
  {
    var t := ApplyHandler(s, HandleOp);
    var read := p.target(key).value;
    forall j', k' ensures Ahead(p, t, j', k') <==> Ahead(p, s, j', k') && !(j' == j && k' == k) {
      AheadNext(p, s, t, j', k');
    }
    if NextOp(s).Ask? && NextOp(s).key == key {
      assert Asks(p.h, j, k, key);
      assert TargetAhead(p, s, key, read);
      var j', k' :| Ahead(p, s, j', k') && p.h[j'].ops[k'] == Ask(key, read.lookup);
      var j'', k'' :| p.i <= j'' && Asks(p.h, j'', k'', key);
      if j' == j && k' == k {
        assert Waiting(t, key, read);
      } else {
        assert Ahead(p, t, j', k');
      }
    } else if TargetAhead(p, s, key, read) {
      var j', k' :| Ahead(p, s, j', k') && p.h[j'].ops[k'] == Ask(key, read.lookup);
      assert Ahead(p, t, j', k');
    } else if Waiting(s, key, read) {
      assert Waiting(t, key, read);
    } else {
      assert Over(p, t, key);
    }
  }

  /** A step that leaves the handler, the history and the lookups alone keeps the plan. */
  lemma PlanFrame(p: Plan, s: State, t: State)
    requires PlanHolds(p, s) && t.running && t.history == s.history && t.position == s.position
    requires t.handling == s.handling && t.engine.lookups == s.engine.lookups
    requires t.engine.lookupInflight <= s.engine.lookupInflight
    requires forall w | 0 <= w < |t.workers| :: !t.workers[w].pc.LookupBackoff?
    ensures PlanHolds(p, t)
  {
    assert forall j, k :: Ahead(p, s, j, k) <==> Ahead(p, t, j, k);
    forall key | Late(p.h, p.i, key) ensures OnPlan(p, t, key) {
      assert OnPlan(p, s, key);
    }
  }

  lemma PlanTakes(p: Plan, s: State, step: Step)
    requires PlanHolds(p, s) && step.TakesLookup? && EnabledUnit(s, step) && Keeps(p, s, step)
    ensures PlanHolds(p, ApplyUnit(s, step))
  {
    var t := ApplyUnit(s, step);
    assert forall j, k :: Ahead(p, s, j, k) <==> Ahead(p, t, j, k);
    forall key | Late(p.h, p.i, key) ensures OnPlan(p, t, key) {
      assert OnPlan(p, s, key);
      if key == step.key {
        assert Over(p, t, key);
      }
    }
  }

  lemma PlanUnit(p: Plan, s: State, step: Step)
    requires PlanHolds(p, s) && step.IsUnit() && EnabledUnit(s, step) && Keeps(p, s, step)
    ensures PlanHolds(p, ApplyUnit(s, step))
  {
    if step.TakesLookup? {
      PlanTakes(p, s, step);
    } else {
      PlanFrame(p, s, ApplyUnit(s, step));
    }
  }

  lemma PlanWorker(r: Rules, p: Plan, s: State, step: Step)
    requires PlanHolds(p, s) && Enabled(r, s, step) && Keeps(p, s, step) && step.IsWorkerStep()
    ensures PlanHolds(p, Apply(r, s, step))
  {
    if step.IsSearch() {
      IsSearchStep(r, s, step);
      PlanFrame(p, s, ApplySearch(s, step));
    } else if step.IsUnit() {
      IsUnitStep(r, s, step);
      PlanUnit(p, s, step);
    } else if step.IsLookup() {
      IsLookupStep(r, s, step);
      PlanLookup(r, p, s, step);
    } else {
      IsDocStep(r, s, step);
      PlanFrame(p, s, ApplyDoc(r, s, step));
    }
  }

  lemma PlanLookup(r: Rules, p: Plan, s: State, step: Step)
    requires PlanHolds(p, s) && step.IsLookup() && EnabledLookup(s, step) && Keeps(p, s, step)
    ensures PlanHolds(p, ApplyLookup(r, s, step))
  {
    assert !s.At(step.w).LookupBackoff?;
    PlanFrame(p, s, ApplyLookup(r, s, step));
  }

  lemma PlanStep(r: Rules, p: Plan, s: State, step: Step)
    requires IsPlan(r, p) && Control(s) && PlanHolds(p, s) && Enabled(r, s, step) && Keeps(p, s, step)
    ensures PlanHolds(p, Apply(r, s, step))
  {
    if step.IsHandler() {
      IsHandlerStep(r, s, step);
      if step.HandleOp? {
        PlanOp(r, p, s, step);
      } else {
        PlanHandler(r, p, s, step);
      }
    } else {
      PlanWorker(r, p, s, step);
    }
  }

  // ----- an ask that leaves the queued lookup in place

  /** The ask replaces the queued lookup while a failed read holds it, and the requeue puts it back. */
  ghost function Skipped(s: State): State
    requires s.handling.Some? && |s.handling.value| > 0 && NextOp(s).Ask?
  {
    s.(handling := Some(s.handling.value[1..]), engine := Signal(s.engine),
       asked := Raise(s.asked, NextOp(s).key, s.position + 1))
  }

  lemma Goes(r: Rules, s: State, step: Step) returns (t: State)
    requires Reachable(r, s) && Enabled(r, s, step)
    ensures Reachable(r, t) && t == Apply(r, s, step)
  {
    OneStep(r, s, step);
    t := Apply(r, s, step);
    RunsStayReachable(r, s, [step], t);
  }

  lemma FailsRead(r: Rules, s: State, w: nat, key: LookupKey) returns (t: State)
    requires Reachable(r, s) && Ready(s, w) && s.At(w).Top? && TakeableLookup(s.engine, key)
    ensures Reachable(r, t)
    ensures t == Go(s, w, LookupBackoff(key, s.engine.lookups[key]), false).(engine := TakeLookup(s.engine, key))
  {
    var next := Goes(r, s, TakesLookup(w, key));
    t := Goes(r, next, KeysFailed(w));
  }

  lemma HandlesAndSignals(r: Rules, s: State) returns (t: State)
    requires Reachable(r, s) && s.running && s.handling.Some? && |s.handling.value| > 0
    ensures Reachable(r, t)
    ensures t == ApplyHandled(s, NextOp(s)).(handling := Some(s.handling.value[1..]),
                                              engine := Signal(ApplyOp(s.engine, NextOp(s))))
  {
    var next := Goes(r, s, HandleOp);
    t := Goes(r, next, ProducerSignal);
  }

  lemma PutsBack(r: Rules, s: State, w: nat) returns (t: State)
    requires Reachable(r, s) && Ready(s, w) && s.At(w).LookupBackoff?
    ensures Reachable(r, t)
    ensures t == Go(s, w, LookupFinish(s.At(w).key, None), false)
                   .(engine := Signal(Enqueue(s.engine, s.At(w).key, s.At(w).lookup)))
  {
    var next := Goes(r, s, RequeuesLookup(w));
    t := Goes(r, next, Signalling(w));
  }

  lemma Finishes(r: Rules, s: State, w: nat) returns (t: State)
    requires Reachable(r, s) && Ready(s, w) && s.At(w).LookupFinish? && s.At(w).key in s.engine.lookups
    ensures Reachable(r, t) && t == Go(s, w, Top, false).(engine := Signal(FinishLookup(s.engine, s.At(w).key)))
  {
    var next := Goes(r, s, FinishesLookup(w));
    t := Goes(r, next, Signalling(w));
  }

  /** Whoever waits for work can let the handler ask for a pending key and keep what is queued under it. */
  lemma Skips(r: Rules, s: State, w: nat) returns (t: State)
    requires Reachable(r, s) && Ready(s, w) && s.At(w).Top?
    requires s.handling.Some? && |s.handling.value| > 0 && NextOp(s).Ask? && TakeableLookup(s.engine, NextOp(s).key)
    ensures Reachable(r, t) && t == Skipped(s)
  {
    var key := NextOp(s).key;
    var u := FailsRead(r, s, w, key);
    var v := HandlesAndSignals(r, u);
    var x := PutsBack(r, v, w);
    t := Finishes(r, x, w);
    SkipsWorkers(s.workers, w, u.workers[w], x.workers[w]);
    SkipsLookups(s.engine.lookups, key, NextOp(s).lookup);
    assert s.engine.lookupInflight + {key} - {key} == s.engine.lookupInflight;
  }

  lemma SkipsWorkers(workers: seq<Worker>, w: nat, held: Worker, done: Worker)
    requires w < |workers|
    ensures workers[w := held][w := done][w := workers[w]] == workers
  {
  }

  lemma SkipsLookups(lookups: map<LookupKey, Lookup>, key: LookupKey, lookup: Lookup)
    requires key in lookups
    ensures (lookups - {key})[key := lookup][key := lookups[key]] == lookups
  {
  }

  lemma PlanSkips(r: Rules, p: Plan, s: State)
    requires IsPlan(r, p) && Control(s) && PlanHolds(p, s) && Blocked(p, s)
    ensures PlanHolds(p, Skipped(s)) && Below(RankOf(Skipped(s)), RankOf(s))
  {
    var t := Skipped(s);
    var j, k := NextIsAhead(p, s);
    forall key | Late(p.h, p.i, key) ensures OnPlan(p, t, key) {
      assert OnPlan(p, s, key);
      PlanSkipsKey(r, p, s, key, j, k);
    }
  }

  lemma PlanSkipsKey(r: Rules, p: Plan, s: State, key: LookupKey, j: int, k: int)
    requires IsPlan(r, p) && Control(s) && PlanHolds(p, s) && Late(p.h, p.i, key) && OnPlan(p, s, key)
    requires Blocked(p, s)
    requires j == s.position && Ahead(p, s, j, k) && p.h[j].ops[k] == NextOp(s)
    requires k == |p.h[j].ops| - |s.handling.value|
    ensures OnPlan(p, Skipped(s), key)
  {
    var t := Skipped(s);
    var read := p.target(key).value;
    forall j', k' ensures Ahead(p, t, j', k') <==> Ahead(p, s, j', k') && !(j' == j && k' == k) {
      AheadNext(p, s, t, j', k');
    }
    if NextOp(s).key == key || Waiting(s, key, read) {
      assert Waiting(t, key, read);
    } else if TargetAhead(p, s, key, read) {
      var j', k' :| Ahead(p, s, j', k') && p.h[j'].ops[k'] == Ask(key, read.lookup);
      assert Ahead(p, t, j', k');
    } else {
      assert Over(p, t, key);
    }
  }
}
