/**
 * What can change each part of the engine's state: over every step, a doc is dirtied, a lookup queued, a unit taken, a
 * signal sent or a version published exactly for the reasons given here.
 */
module Causes {
  import opened Wrappers
  import opened ChannelCodec
  import opened EventMapping
  import opened EngineCore
  import opened Protocol

  /** The step is one of worker `w`, which stands at this point. */
  ghost predicate Moves(s: State, w: nat, pc: Pc) { w < |s.workers| && s.workers[w].pc == pc }

  /** A poll lists the channel while it is cold. */
  predicate ListsCold(r: Rules, s: State, channels: seq<Channel>, c: Channel) {
    c in channels && r.parses(c) && c !in s.engine.live
  }

  // ----- docs

  /**
   * A doc is dirtied by interest in a cold channel or a warm of any, by a handled change that names it, by a lookup
   * that names it or falls back to it, and by its own failed refresh.
   */
  ghost predicate Dirties(r: Rules, s: State, step: Step, c: Channel) {
    match step
    case Boot(channels, _, _) => ListsCold(r, s, channels, c)
    case Poll(channels, _, _) => ListsCold(r, s, channels, c)
    case Warmed(channel) => channel == c
    case Touched(channel) => channel == c && c !in s.engine.live
    case HandleOp => s.handling.Some? && |s.handling.value| > 0 && s.handling.value[0] == Mark(c)
    case MarksLive(w) =>
      c in s.engine.live && exists key, read :: Moves(s, w, LookupOverCap(key, read)) && r.inQuery(key.query, c)
    case MarksRow(w) => exists key, read, rows :: Moves(s, w, LookupMarking(key, read, [c] + rows))
    case RequeuesDoc(w) => Moves(s, w, DocBackoff(c))
    case _ => false
  }

  /** It stays dirty until it is taken, or passed over while nobody watches it. */
  ghost predicate Cleans(s: State, step: Step, c: Channel) {
    match step
    case TakesDoc(_, cold, channel) => channel == c || c in cold
    case FindsNoDoc(_) => c !in s.engine.inflight
    case _ => false
  }

  ghost predicate DirtyEffect(r: Rules, s: State, step: Step, t: State, c: Channel) {
    c in t.engine.dirty <==> Dirties(r, s, step, c) || (c in s.engine.dirty && !Cleans(s, step, c))
  }

  /** Only a dirty doc that is live and in nobody's hands is taken, and it is held until its unit is finished. */
  ghost predicate HeldDocEffect(s: State, step: Step, t: State, c: Channel) {
    && (c in t.engine.inflight <==>
        (step.TakesDoc? && step.channel == c)
        || (c in s.engine.inflight && !(step.FinishesDoc? && Moves(s, step.w, DocFinish(c)))))
    && (step.TakesDoc? && step.channel == c ==>
          c in s.engine.dirty && c in s.engine.live && c !in s.engine.inflight && step.w < |t.workers|
          && t.workers[step.w].pc == DocRead(c))
  }

  // ----- lookups

  /** A lookup is queued by a handled change that asks for it and by its own failed read. */
  ghost predicate Queues(s: State, step: Step, key: LookupKey, lookup: Lookup) {
    match step
    case HandleOp => s.handling.Some? && |s.handling.value| > 0 && s.handling.value[0] == Ask(key, lookup)
    case RequeuesLookup(w) => Moves(s, w, LookupBackoff(key, lookup))
    case _ => false
  }

  ghost predicate LookupEffect(s: State, step: Step, t: State, key: LookupKey) {
    if lookup :| Queues(s, step, key, lookup) then key in t.engine.lookups && t.engine.lookups[key] == lookup
    else
      && (key in t.engine.lookups <==> key in s.engine.lookups && !(step.TakesLookup? && step.key == key))
      && (key in t.engine.lookups ==> t.engine.lookups[key] == s.engine.lookups[key])
  }

  /** Only a pending lookup that nobody runs is taken, with what is queued, and it is held until it is finished. */
  ghost predicate HeldLookupEffect(s: State, step: Step, t: State, key: LookupKey) {
    && (key in t.engine.lookupInflight <==>
        (step.TakesLookup? && step.key == key)
        || (key in s.engine.lookupInflight
            && !(step.FinishesLookup? && exists done :: Moves(s, step.w, LookupFinish(key, done)))))
    && (step.TakesLookup? && step.key == key ==>
          key in s.engine.lookups && key !in s.engine.lookupInflight && step.w < |t.workers|
          && t.workers[step.w].pc == LookupRead(key, s.engine.lookups[key]))
  }

  // ----- signals

  /** The token is put by a signal, or by a startup poll that dirties something, and stays until a worker wakes. */
  ghost predicate WakeEffect(r: Rules, s: State, step: Step, t: State) {
    t.engine.wake <==>
      || step.ProducerSignal? || step.Signalling?
      || (step.Boot? && exists c :: ListsCold(r, s, step.channels, c))
      || (s.engine.wake && !step.Wakes?)
  }

  /** A producer owes a signal for every op, every warm, and every poll or touch that dirties something. */
  ghost predicate ProducerEffect(r: Rules, s: State, step: Step, t: State) {
    var owes :=
      || step.HandleOp? || step.Warmed?
      || (step.Touched? && step.channel !in s.engine.live)
      || (step.Poll? && exists c :: ListsCold(r, s, step.channels, c));
    t.signals == s.signals + (if owes then 1 else 0) - (if step.ProducerSignal? then 1 else 0)
  }

  /** The worker owes one for every row, a fallback that dirties something, a requeue, and a finish with work left. */
  ghost predicate Owes(r: Rules, s: State, step: Step, t: State) {
    || step.MarksRow? || step.RequeuesLookup? || step.RequeuesDoc?
    || (step.MarksLive? && exists c :: Dirties(r, s, step, c))
    || ((step.FinishesLookup? || step.FinishesDoc?) && (t.engine.dirty != {} || t.engine.lookups != map[]))
  }

  ghost predicate WorkerEffect(r: Rules, s: State, step: Step, t: State) {
    && |t.workers| == |s.workers|
    && (step.IsWorkerStep() ==>
          && step.w < |s.workers| && (t.workers[step.w].signalling <==> Owes(r, s, step, t))
          && forall v | 0 <= v < |s.workers| && v != step.w :: t.workers[v] == s.workers[v])
    && (!step.IsWorkerStep() ==> t.workers == s.workers)
  }

  // ----- what foony shows

  /** The step publishes what its worker has read of the channel. */
  ghost predicate PublishesRead(s: State, step: Step, c: Channel) {
    && (step.Publishes? || (step.PublishFailed? && step.delivered))
    && exists v: nat :: Moves(s, step.w, DocPublish(c, v))
  }

  /** A channel shows a new version only when a worker that holds a read of it publishes, and then that version. */
  ghost predicate PublishEffect(s: State, step: Step, t: State, c: Channel) {
    if PublishesRead(s, step, c)
    then c in t.published && Moves(s, step.w, DocPublish(c, t.published[c]))
    else Latest(t.published, c) == Latest(s.published, c)
  }

  /** A read is of the current version. */
  ghost predicate ReadEffect(s: State, step: Step, t: State) {
    step.DocWasRead? ==>
      step.w < |s.workers| && step.w < |t.workers| && s.workers[step.w].pc.DocRead?
      && t.workers[step.w].pc == DocPublish(s.workers[step.w].pc.channel, |s.history|)
  }

  // ----- all steps

  ghost predicate Effects(r: Rules, s: State, step: Step, t: State, c: Channel, key: LookupKey) {
    && DirtyEffect(r, s, step, t, c) && HeldDocEffect(s, step, t, c)
    && LookupEffect(s, step, t, key) && HeldLookupEffect(s, step, t, key)
    && WakeEffect(r, s, step, t) && ProducerEffect(r, s, step, t) && WorkerEffect(r, s, step, t)
    && PublishEffect(s, step, t, c) && ReadEffect(s, step, t)
  }

  lemma OutsideEffects(r: Rules, s: State, step: Step, c: Channel, key: LookupKey)
    requires step.IsOutside() && EnabledOutside(r, s, step) && !step.Crash?
    ensures Effects(r, s, step, ApplyOutside(s, step), c, key)
  {
  }

  lemma ColdOnes(r: Rules, s: State, channels: seq<Channel>)
    ensures
      forall d :: d in Listed(r.parses, channels) - s.engine.live.Keys <==> ListsCold(r, s, channels, d)
    ensures Dirtied(r, s, channels) <==> exists d :: ListsCold(r, s, channels, d)
  {
    if Dirtied(r, s, channels) {
      var d :| d in Listed(r.parses, channels) - s.engine.live.Keys;
      assert ListsCold(r, s, channels, d);
    }
  }

  lemma BootEffects(r: Rules, s: State, step: Step, c: Channel, key: LookupKey)
    requires step.Boot? && EnabledDemand(r, s, step)
    ensures Effects(r, s, step, ApplyDemand(r, s, step), c, key)
  {
    ColdOnes(r, s, step.channels);
  }

  lemma PollEffects(r: Rules, s: State, step: Step, c: Channel, key: LookupKey)
    requires step.Poll? && EnabledDemand(r, s, step)
    ensures Effects(r, s, step, ApplyDemand(r, s, step), c, key)
  {
    ColdOnes(r, s, step.channels);
  }

  lemma WarmEffects(r: Rules, s: State, step: Step, c: Channel, key: LookupKey)
    requires step.Warmed? && EnabledDemand(r, s, step)
    ensures Effects(r, s, step, ApplyDemand(r, s, step), c, key)
  {
  }

  lemma TouchEffects(r: Rules, s: State, step: Step, c: Channel, key: LookupKey)
    requires step.Touched? && EnabledDemand(r, s, step)
    ensures Effects(r, s, step, ApplyDemand(r, s, step), c, key)
  {
  }

  lemma DemandEffects(r: Rules, s: State, step: Step, c: Channel, key: LookupKey)
    requires step.IsDemand() && EnabledDemand(r, s, step)
    ensures Effects(r, s, step, ApplyDemand(r, s, step), c, key)
  {
    match step {
      case Boot(_, _, _) => BootEffects(r, s, step, c, key);
      case Poll(_, _, _) => PollEffects(r, s, step, c, key);
      case Warmed(_) => WarmEffects(r, s, step, c, key);
      case Touched(_) => TouchEffects(r, s, step, c, key);
    }
  }

  lemma MarkEffects(r: Rules, s: State, step: Step, c: Channel, key: LookupKey)
    requires step.HandleOp? && EnabledHandler(s, step) && NextOp(s).Mark?
    ensures Effects(r, s, step, ApplyHandler(s, step), c, key)
  {
  }

  lemma AskEffects(r: Rules, s: State, step: Step, c: Channel, key: LookupKey)
    requires step.HandleOp? && EnabledHandler(s, step) && NextOp(s).Ask?
    ensures Effects(r, s, step, ApplyHandler(s, step), c, key)
  {
    assert Queues(s, step, NextOp(s).key, NextOp(s).lookup);
  }

  lemma TurnEffects(r: Rules, s: State, step: Step, c: Channel, key: LookupKey)
    requires step.IsHandler() && !step.HandleOp? && EnabledHandler(s, step)
    ensures Effects(r, s, step, ApplyHandler(s, step), c, key)
  {
  }

  lemma HandlerEffects(r: Rules, s: State, step: Step, c: Channel, key: LookupKey)
    requires step.IsHandler() && EnabledHandler(s, step)
    ensures Effects(r, s, step, ApplyHandler(s, step), c, key)
  {
    if !step.HandleOp? {
      TurnEffects(r, s, step, c, key);
    } else if NextOp(s).Mark? {
      MarkEffects(r, s, step, c, key);
    } else {
      AskEffects(r, s, step, c, key);
    }
  }

  lemma WaitEffects(r: Rules, s: State, step: Step, c: Channel, key: LookupKey)
    requires step.FindsNoDoc? && EnabledSearch(s, step)
    ensures Effects(r, s, step, ApplySearch(s, step), c, key)
  {
  }

  lemma SearchEffects(r: Rules, s: State, step: Step, c: Channel, key: LookupKey)
    requires step.IsSearch() && EnabledSearch(s, step)
    ensures Effects(r, s, step, ApplySearch(s, step), c, key)
  {
    if step.FindsNoDoc? {
      WaitEffects(r, s, step, c, key);
    }
  }

  lemma TakesEffects(r: Rules, s: State, step: Step, c: Channel, key: LookupKey)
    requires (step.TakesDoc? || step.TakesLookup?) && EnabledUnit(s, step)
    ensures Effects(r, s, step, ApplyUnit(s, step), c, key)
  {
  }

  lemma FinishesEffects(r: Rules, s: State, step: Step, c: Channel, key: LookupKey)
    requires (step.FinishesDoc? || step.FinishesLookup?) && EnabledUnit(s, step)
    ensures Effects(r, s, step, ApplyUnit(s, step), c, key)
  {
    if step.FinishesLookup? && s.At(step.w).key == key {
      assert Moves(s, step.w, LookupFinish(key, s.At(step.w).done));
    }
  }

  lemma RowEffects(r: Rules, s: State, step: Step, c: Channel, key: LookupKey)
    requires step.MarksRow? && EnabledLookup(s, step)
    ensures Effects(r, s, step, ApplyLookup(r, s, step), c, key)
  {
    var pc := s.At(step.w);
    assert pc == LookupMarking(pc.key, pc.read, [pc.rows[0]] + pc.rows[1..]);
    assert Moves(s, step.w, LookupMarking(pc.key, pc.read, [pc.rows[0]] + pc.rows[1..]));
  }

  lemma FallbackEffects(r: Rules, s: State, step: Step, c: Channel, key: LookupKey)
    requires step.MarksLive? && EnabledLookup(s, step)
    ensures Effects(r, s, step, ApplyLookup(r, s, step), c, key)
  {
    var pc := s.At(step.w);
    var docs := LiveDocs(s.engine, r.inQuery, pc.key.query);
    assert Moves(s, step.w, LookupOverCap(pc.key, pc.read));
    assert forall d :: d in docs <==> Dirties(r, s, step, d);
    if docs != {} {
      var d :| d in docs;
    }
  }

  lemma RequeueEffects(r: Rules, s: State, step: Step, c: Channel, key: LookupKey)
    requires step.RequeuesLookup? && EnabledLookup(s, step)
    ensures Effects(r, s, step, ApplyLookup(r, s, step), c, key)
  {
    assert Queues(s, step, s.At(step.w).key, s.At(step.w).lookup);
  }

  lemma LookupEffects(r: Rules, s: State, step: Step, c: Channel, key: LookupKey)
    requires step.IsLookup() && EnabledLookup(s, step)
    ensures Effects(r, s, step, ApplyLookup(r, s, step), c, key)
  {
    if step.MarksRow? {
      RowEffects(r, s, step, c, key);
    } else if step.MarksLive? {
      FallbackEffects(r, s, step, c, key);
    } else if step.RequeuesLookup? {
      RequeueEffects(r, s, step, c, key);
    }
  }

  lemma PublishEffects(r: Rules, s: State, step: Step, c: Channel, key: LookupKey)
    requires (step.Publishes? || step.PublishFailed?) && EnabledDoc(r, s, step)
    ensures Effects(r, s, step, ApplyDoc(r, s, step), c, key)
  {
    assert Moves(s, step.w, DocPublish(s.At(step.w).channel, s.At(step.w).version));
  }

  lemma RetryEffects(r: Rules, s: State, step: Step, c: Channel, key: LookupKey)
    requires step.RequeuesDoc? && EnabledDoc(r, s, step)
    ensures Effects(r, s, step, ApplyDoc(r, s, step), c, key)
  {
  }

  lemma DocEffects(r: Rules, s: State, step: Step, c: Channel, key: LookupKey)
    requires step.IsDoc() && EnabledDoc(r, s, step)
    ensures Effects(r, s, step, ApplyDoc(r, s, step), c, key)
  {
    if step.Publishes? || step.PublishFailed? {
      PublishEffects(r, s, step, c, key);
    } else if step.RequeuesDoc? {
      RetryEffects(r, s, step, c, key);
    }
  }

  lemma ProducerEffects(r: Rules, s: State, step: Step, c: Channel, key: LookupKey)
    requires Enabled(r, s, step) && !step.Crash? && !step.IsWorkerStep()
    ensures Effects(r, s, step, Apply(r, s, step), c, key)
  {
    if step.IsOutside() {
      IsOutsideStep(r, s, step);
      OutsideEffects(r, s, step, c, key);
    } else if step.IsHandler() {
      IsHandlerStep(r, s, step);
      HandlerEffects(r, s, step, c, key);
    } else {
      IsDemandStep(r, s, step);
      DemandEffects(r, s, step, c, key);
    }
  }

  /** Every step but a crash has exactly these effects, on every channel and every lookup key. */
  lemma StepEffects(r: Rules, s: State, step: Step, c: Channel, key: LookupKey)
    requires Enabled(r, s, step) && !step.Crash?
    ensures Effects(r, s, step, Apply(r, s, step), c, key)
  {
    if !step.IsWorkerStep() {
      ProducerEffects(r, s, step, c, key);
    } else if step.IsSearch() {
      IsSearchStep(r, s, step);
      SearchEffects(r, s, step, c, key);
    } else if step.IsUnit() {
      IsUnitStep(r, s, step);
      if step.TakesDoc? || step.TakesLookup? {
        TakesEffects(r, s, step, c, key);
      } else {
        FinishesEffects(r, s, step, c, key);
      }
    } else if step.IsLookup() {
      IsLookupStep(r, s, step);
      LookupEffects(r, s, step, c, key);
    } else {
      IsDocStep(r, s, step);
      DocEffects(r, s, step, c, key);
    }
  }
}
