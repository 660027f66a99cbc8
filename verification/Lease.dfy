/** Leases of live channels over whole runs of the refetch protocol. */
module Lease {
  import opened Wrappers
  import opened ChannelCodec
  import opened EngineCore
  import opened Protocol

  /** Signals of subscriber interest: a poll listing, a warm or a touch. */
  predicate Signals(r: Rules, step: Step, c: Channel) {
    match step
    case Boot(channels, _, _) => c in channels && r.parses(c)
    case Poll(channels, _, _) => c in channels && r.parses(c)
    case Warmed(channel) => channel == c
    case Touched(channel) => channel == c
    case _ => false
  }

  predicate IsPoll(step: Step) { step.Poll? || step.Boot? }

  /** The clock value a step leases at: a poll has read its own before it got the lock, the others read it inside. */
  function Clock(s: State, step: Step): Time { if IsPoll(step) then step.at else s.now }

  /** Only a complete poll drops a lease, once it is at least `TOUCH_GRACE` old by the poll's clock. */
  predicate Expires(s: State, step: Step, c: Channel)
    requires c in s.engine.live
  {
    IsPoll(step) && step.complete && step.at - s.engine.live[c] >= TOUCH_GRACE
  }

  /** No lease lies in the future. */
  ghost predicate LeasesPast(s: State) { forall c | c in s.engine.live :: s.engine.live[c] <= s.now }

  /**
   * The lease rule: a step leases a channel exactly if it signals it, or holds an unexpired lease on it; a signal
   * sets the lease to the clock value it has read and nothing else changes it; a channel that becomes live is dirty in
   * the same section.
   */
  lemma LeaseStep(r: Rules, s: State, step: Step, c: Channel)
    requires Enabled(r, s, step) && !step.Crash?
    ensures
      var t := Apply(r, s, step);
      && (c in t.engine.live <==> Signals(r, step, c) || (c in s.engine.live && !Expires(s, step, c)))
      && (c in t.engine.live ==>
            t.engine.live[c] == if Signals(r, step, c) then Clock(s, step) else s.engine.live[c])
      && (c in t.engine.live && c !in s.engine.live ==> c in t.engine.dirty)
      && t.now >= s.now >= Clock(s, step)
  {
    if step.IsDemand() {
      IsDemandStep(r, s, step);
      LeaseDemand(r, s, step, c);
    } else if step.IsOutside() || step.IsHandler() {
      ProducerKeepsLeases(r, s, step);
    } else {
      WorkerKeepsLeases(r, s, step);
    }
  }

  lemma ProducerKeepsLeases(r: Rules, s: State, step: Step)
    requires Enabled(r, s, step) && !step.Crash? && (step.IsOutside() || step.IsHandler())
    ensures Apply(r, s, step).engine.live == s.engine.live && Apply(r, s, step).now >= s.now
  {
    if step.IsOutside() {
      IsOutsideStep(r, s, step);
    } else {
      IsHandlerStep(r, s, step);
      HandlerKeepsLeases(s, step);
    }
  }

  lemma HandlerKeepsLeases(s: State, step: Step)
    requires step.IsHandler() && EnabledHandler(s, step)
    ensures ApplyHandler(s, step).engine.live == s.engine.live && ApplyHandler(s, step).now == s.now
  {
  }

  lemma WorkerKeepsLeases(r: Rules, s: State, step: Step)
    requires Enabled(r, s, step) && (step.IsSearch() || step.IsUnit() || step.IsLookup() || step.IsDoc())
    ensures Apply(r, s, step).engine.live == s.engine.live && Apply(r, s, step).now == s.now
  {
    if step.IsSearch() {
      IsSearchStep(r, s, step);
      SearchKeepsLeases(s, step);
    } else if step.IsUnit() {
      IsUnitStep(r, s, step);
      UnitKeepsLeases(s, step);
    } else if step.IsLookup() {
      IsLookupStep(r, s, step);
    } else {
      IsDocStep(r, s, step);
    }
  }

  lemma LeaseDemand(r: Rules, s: State, step: Step, c: Channel)
    requires step.IsDemand() && EnabledDemand(r, s, step)
    ensures
      var t := ApplyDemand(r, s, step);
      && (c in t.engine.live <==> Signals(r, step, c) || (c in s.engine.live && !Expires(s, step, c)))
      && (c in t.engine.live ==>
            t.engine.live[c] == if Signals(r, step, c) then Clock(s, step) else s.engine.live[c])
      && (c in t.engine.live && c !in s.engine.live ==> c in t.engine.dirty)
      && t.now == s.now >= Clock(s, step)
  {
  }

  lemma SearchKeepsLeases(s: State, step: Step)
    requires step.IsSearch() && EnabledSearch(s, step)
    ensures ApplySearch(s, step).engine.live == s.engine.live && ApplySearch(s, step).now == s.now
  {
  }

  lemma UnitKeepsLeases(s: State, step: Step)
    requires step.IsUnit() && EnabledUnit(s, step)
    ensures ApplyUnit(s, step).engine.live == s.engine.live && ApplyUnit(s, step).now == s.now
  {
  }

  lemma LeasesPastStep(r: Rules, s: State, step: Step)
    requires Enabled(r, s, step) && LeasesPast(s)
    ensures LeasesPast(Apply(r, s, step)) && Apply(r, s, step).now >= s.now
  {
    if !step.Crash? {
      var t := Apply(r, s, step);
      LeaseStep(r, s, step, "");
      forall c | c in t.engine.live ensures t.engine.live[c] <= t.now {
        LeaseStep(r, s, step, c);
      }
    }
  }

  ghost predicate Unsignalled(r: Rules, steps: seq<Step>, c: Channel) {
    forall k | 0 <= k < |steps| :: !Signals(r, steps[k], c)
  }

  ghost predicate NoCrash(steps: seq<Step>) { forall k | 0 <= k < |steps| :: !steps[k].Crash? }

  /** Every poll of the run has read the clock at `from` or later. */
  ghost predicate PollsReadFrom(steps: seq<Step>, from: Time) {
    forall k | 0 <= k < |steps| && IsPoll(steps[k]) :: steps[k].at >= from
  }

  /**
   * A channel leased at `from` or later is never dropped within the grace period of `from`, as long as no poll gets the
   * lock that has read the clock before `from`; its lease stays at `from` or later.
   */
  lemma {:induction false} KeptSince(r: Rules, s: State, steps: seq<Step>, c: Channel, from: Time)
    requires IsRun(r, s, steps) && NoCrash(steps) && PollsReadFrom(steps, from)
    requires c in s.engine.live && from <= s.engine.live[c] && from <= s.now
    ensures
      var t := After(r, s, steps);
      && t.now >= s.now
      && (t.now - from < TOUCH_GRACE ==> c in t.engine.live && t.engine.live[c] >= from)
  {
    if steps == [] {
    } else {
      var n := |steps| - 1;
      KeptSince(r, s, steps[..n], c, from);
      LeaseStep(r, After(r, s, steps[..n]), steps[n], c);
    }
  }

  /** Every poll of the run gets the lock within `delay` of reading the clock. */
  ghost predicate PollsWithin(r: Rules, s: State, steps: seq<Step>, delay: nat)
    requires IsRun(r, s, steps)
  {
    steps == []
    || (&& PollsWithin(r, s, steps[..|steps| - 1], delay)
        && (IsPoll(steps[|steps| - 1]) ==> After(r, s, steps[..|steps| - 1]).now - steps[|steps| - 1].at <= delay))
  }

  lemma {:induction false} PromptPollsReadFrom(r: Rules, s: State, steps: seq<Step>, delay: nat)
    requires IsRun(r, s, steps) && NoCrash(steps) && PollsWithin(r, s, steps, delay)
    ensures PollsReadFrom(steps, s.now - delay) && After(r, s, steps).now >= s.now
  {
    if steps == [] {
    } else {
      var n := |steps| - 1;
      PromptPollsReadFrom(r, s, steps[..n], delay);
      LeaseStep(r, After(r, s, steps[..n]), steps[n], "");
      LastReadFrom(steps, s.now - delay);
    }
  }

  lemma LastReadFrom(steps: seq<Step>, from: Time)
    requires steps != [] && PollsReadFrom(steps[..|steps| - 1], from)
    requires IsPoll(steps[|steps| - 1]) ==> steps[|steps| - 1].at >= from
    ensures PollsReadFrom(steps, from)
  {
    forall k | 0 <= k < |steps| && IsPoll(steps[k]) ensures steps[k].at >= from {
      assert k < |steps| - 1 ==> steps[..|steps| - 1][k] == steps[k];
    }
  }

  /**
   * A channel signalled now, by a step whose own clock is no more than `delay` behind, is not dropped while less than
   * the grace period less `delay` has passed, if no poll waits longer than `delay` between the clock and the lock. With
   * no wait at all it is the whole grace period.
   */
  lemma KeptWithinGrace(r: Rules, s: State, steps: seq<Step>, t: State, c: Channel, delay: nat)
    requires RunsTo(r, s, steps, t) && NoCrash(steps) && PollsWithin(r, s, steps, delay)
    requires c in s.engine.live && s.now - delay <= s.engine.live[c]
    ensures t.now - s.now < TOUCH_GRACE - delay ==> c in t.engine.live && t.engine.live[c] >= s.now - delay
  {
    PromptPollsReadFrom(r, s, steps, delay);
    KeptSince(r, s, steps, c, s.now - delay);
  }

  /**
   * The grace period is shorter by as much as a poll waits for the lock: a poll that lists the channel reads the clock
   * at 0, a touch at 1 gets the lock first, and the poll then sets the lease back to 0. The complete poll at the end of
   * the grace period drops the channel, touched less than the grace period ago.
   */
  lemma SetBackByPoll(r: Rules, c: Channel) returns (s: State, t: State)
    requires r.parses(c)
    ensures Reachable(r, s) && c in s.engine.live && s.engine.live[c] == s.now == 1
    ensures
      var steps := [Poll([c], true, 0), Tick(TOUCH_GRACE), Poll([], true, TOUCH_GRACE)];
      RunsTo(r, s, steps, t) && PollsWithin(r, s, steps, 1) && Unsignalled(r, steps[1..], c)
    ensures c !in t.engine.live && t.now - s.now == TOUCH_GRACE - 1
  {
    s := TouchedAtOne(r, c);
    t := PolledTwice(r, s, c);
  }

  lemma TouchedAtOne(r: Rules, c: Channel) returns (s: State)
    requires r.parses(c)
    ensures Reachable(r, s) && s.running && c in s.engine.live && s.engine.live[c] == s.now == 1
  {
    RunsToNothing(r, Init(0));
    RunsToOneMore(r, Init(0), [], Init(0), Boot([], true, 0));
    var booted := Apply(r, Init(0), Boot([], true, 0));
    RunsToOneMore(r, Init(0), [] + [Boot([], true, 0)], booted, Tick(1));
    var ticked := Apply(r, booted, Tick(1));
    RunsToOneMore(r, Init(0), [] + [Boot([], true, 0)] + [Tick(1)], ticked, Touched(c));
    s := Apply(r, ticked, Touched(c));
  }

  lemma ThreeSteps(r: Rules, s: State, a: Step, u: State, b: Step, v: State, d: Step) returns (t: State)
    requires RunsTo(r, s, [a], u) && RunsTo(r, u, [b], v) && Enabled(r, v, d) && IsPoll(a) && !IsPoll(b) && IsPoll(d)
    ensures RunsTo(r, s, [a, b, d], t) && t == Apply(r, v, d)
    ensures forall delay: nat | s.now - a.at <= delay && v.now - d.at <= delay :: PollsWithin(r, s, [a, b, d], delay)
  {
    RunsCompose(r, s, [a], u, [b], v);
    assert [a] + [b] == [a, b];
    RunsToOneMore(r, s, [a, b], v, d);
    assert [a, b] + [d] == [a, b, d];
    t := Apply(r, v, d);
    assert [a, b, d][..2] == [a, b] && [a, b][..1] == [a] && [a][..0] == [];
    forall delay: nat | s.now - a.at <= delay && v.now - d.at <= delay ensures PollsWithin(r, s, [a, b, d], delay) {
      assert PollsWithin(r, s, [a], delay);
      assert PollsWithin(r, s, [a, b], delay);
    }
  }

  lemma PollSetsBack(r: Rules, s: State, c: Channel) returns (t: State)
    requires r.parses(c) && s.running && s.now == 1
    ensures RunsTo(r, s, [Poll([c], true, 0)], t)
    ensures t.running && t.now == 1 && c in t.engine.live && t.engine.live[c] == 0
  {
    LeaseStep(r, s, Poll([c], true, 0), c);
    OneStep(r, s, Poll([c], true, 0));
    t := Apply(r, s, Poll([c], true, 0));
    IsDemandStep(r, s, Poll([c], true, 0));
  }

  lemma GracePasses(r: Rules, s: State) returns (t: State)
    requires s.running && s.now == 1
    ensures RunsTo(r, s, [Tick(TOUCH_GRACE)], t) && t == s.(now := TOUCH_GRACE)
  {
    OneStep(r, s, Tick(TOUCH_GRACE));
    t := Apply(r, s, Tick(TOUCH_GRACE));
  }

  lemma PollDrops(r: Rules, s: State, c: Channel)
    requires s.running && s.now == TOUCH_GRACE && c in s.engine.live && s.engine.live[c] == 0
    ensures
      var poll := Poll([], true, TOUCH_GRACE);
      Enabled(r, s, poll) && c !in Apply(r, s, poll).engine.live && Apply(r, s, poll).now == TOUCH_GRACE
  {
    LeaseStep(r, s, Poll([], true, TOUCH_GRACE), c);
    IsDemandStep(r, s, Poll([], true, TOUCH_GRACE));
  }

  lemma PolledTwice(r: Rules, s: State, c: Channel) returns (t: State)
    requires r.parses(c) && s.running && c in s.engine.live && s.engine.live[c] == s.now == 1
    ensures
      var steps := [Poll([c], true, 0), Tick(TOUCH_GRACE), Poll([], true, TOUCH_GRACE)];
      RunsTo(r, s, steps, t) && PollsWithin(r, s, steps, 1) && Unsignalled(r, steps[1..], c)
    ensures c !in t.engine.live && t.now == TOUCH_GRACE
  {
    var a, b, d := Poll([c], true, 0), Tick(TOUCH_GRACE), Poll([], true, TOUCH_GRACE);
    var u := PollSetsBack(r, s, c);
    var v := GracePasses(r, u);
    PollDrops(r, v, c);
    t := ThreeSteps(r, s, a, u, b, v, d);
    NeitherSignals(r, c);
    assert [a, b, d][1..] == [b, d];
  }

  lemma NeitherSignals(r: Rules, c: Channel)
    ensures Unsignalled(r, [Tick(TOUCH_GRACE), Poll([], true, TOUCH_GRACE)], c)
  {
  }

  /** Without a signal a lease neither appears nor moves: events and publishes are not evidence of interest. */
  lemma {:induction false} LeaseStaysWithoutSignal(r: Rules, s: State, steps: seq<Step>, c: Channel)
    requires IsRun(r, s, steps) && Unsignalled(r, steps, c)
    ensures
      var t := After(r, s, steps);
      c in t.engine.live ==> c in s.engine.live && t.engine.live[c] == s.engine.live[c]
  {
    if steps == [] {
    } else {
      var n := |steps| - 1;
      LeaseStaysWithoutSignal(r, s, steps[..n], c);
      if !steps[n].Crash? {
        LeaseStep(r, After(r, s, steps[..n]), steps[n], c);
      }
    }
  }

  /** A step without a signal does not bring a channel back, and a late enough complete poll drops it. */
  lemma UnsignalledStep(r: Rules, u: State, step: Step, c: Channel, lease: Time)
    requires Enabled(r, u, step) && !Signals(r, step, c)
    requires c in u.engine.live ==> u.engine.live[c] == lease
    ensures c !in u.engine.live ==> c !in Apply(r, u, step).engine.live
    ensures step.Poll? && step.complete && step.at - lease >= TOUCH_GRACE ==> c !in Apply(r, u, step).engine.live
  {
    if !step.Crash? {
      LeaseStep(r, u, step, c);
    }
  }

  /**
   * A channel without signals is gone once a complete poll at or past the end of its grace has not listed it, and
   * stays gone: `first` is the run up to that poll and `rest` the run after it.
   */
  lemma DroppedAfterGrace(
    r: Rules, s: State, first: seq<Step>, u: State, channels: seq<Channel>, at: Time,
    rest: seq<Step>, t: State, c: Channel)
    requires RunsTo(r, s, first, u) && Unsignalled(r, first, c) && c in s.engine.live
    requires Enabled(r, u, Poll(channels, true, at)) && !Signals(r, Poll(channels, true, at), c)
    requires at - s.engine.live[c] >= TOUCH_GRACE
    requires RunsTo(r, Apply(r, u, Poll(channels, true, at)), rest, t) && Unsignalled(r, rest, c)
    ensures c !in t.engine.live
  {
    LeaseStaysWithoutSignal(r, s, first, c);
    UnsignalledStep(r, u, Poll(channels, true, at), c, s.engine.live[c]);
    LeaseStaysWithoutSignal(r, Apply(r, u, Poll(channels, true, at)), rest, c);
  }
}
