/** How many computes and lookup runs any number of marks can cost. */
module Coalescing {
  import opened Wrappers
  import opened ChannelCodec
  import opened EventMapping
  import opened EngineCore
  import opened Protocol
  import opened Lease

  function Bit(b: bool): nat { if b then 1 else 0 }

  /** A step drops a channel if its scan for work removes it as not live. */
  predicate DropsDoc(s: State, step: Step, c: Channel) {
    || (step.TakesDoc? && c in step.cold)
    || (step.FindsNoDoc? && TakeableDoc(s.engine, c))
  }

  predicate StartsDoc(step: Step, c: Channel) { step.TakesDoc? && step.channel == c }

  predicate StartsLookup(step: Step, key: LookupKey) { step.TakesLookup? && step.key == key }

  /** Totals over a run: computes started, cold drops and clean-to-dirty transitions of one channel. */
  datatype Tally = Tally(starts: nat, drops: nat, rises: nat)

  ghost function DocTally(r: Rules, s: State, steps: seq<Step>, c: Channel): Tally
    requires IsRun(r, s, steps)
  {
    if steps == [] then Tally(0, 0, 0)
    else
      var n := |steps| - 1;
      var u := After(r, s, steps[..n]);
      var before := DocTally(r, s, steps[..n], c);
      Tally(
        before.starts + Bit(StartsDoc(steps[n], c)),
        before.drops + Bit(DropsDoc(u, steps[n], c)),
        before.rises + Bit(c !in u.engine.dirty && c in Apply(r, u, steps[n]).engine.dirty))
  }

  ghost function LookupTally(r: Rules, s: State, steps: seq<Step>, key: LookupKey): Tally
    requires IsRun(r, s, steps)
  {
    if steps == [] then Tally(0, 0, 0)
    else
      var n := |steps| - 1;
      var u := After(r, s, steps[..n]);
      var before := LookupTally(r, s, steps[..n], key);
      Tally(
        before.starts + Bit(StartsLookup(steps[n], key)), 0,
        before.rises + Bit(key !in u.engine.lookups && key in Apply(r, u, steps[n]).engine.lookups))
  }

  /** The law for one step. */
  ghost predicate DocBalance(s: State, step: Step, t: State, c: Channel) {
    Bit(StartsDoc(step, c)) + Bit(DropsDoc(s, step, c)) + Bit(c in t.engine.dirty)
    == Bit(c in s.engine.dirty) + Bit(c !in s.engine.dirty && c in t.engine.dirty)
  }

  ghost predicate LookupBalance(s: State, step: Step, t: State, key: LookupKey) {
    Bit(StartsLookup(step, key)) + Bit(key in t.engine.lookups)
    == Bit(key in s.engine.lookups) + Bit(key !in s.engine.lookups && key in t.engine.lookups)
  }

  lemma OutsideBalances(s: State, step: Step, c: Channel, key: LookupKey)
    requires step.IsOutside() && !step.Crash?
    ensures DocBalance(s, step, ApplyOutside(s, step), c) && LookupBalance(s, step, ApplyOutside(s, step), key)
  {
  }

  lemma PollBalances(r: Rules, s: State, step: Step, c: Channel, key: LookupKey)
    requires (step.Boot? || step.Poll?) && EnabledDemand(r, s, step)
    ensures DocBalance(s, step, ApplyDemand(r, s, step), c) && LookupBalance(s, step, ApplyDemand(r, s, step), key)
  {
  }

  lemma InterestBalances(r: Rules, s: State, step: Step, c: Channel, key: LookupKey)
    requires (step.Warmed? || step.Touched?) && EnabledDemand(r, s, step)
    ensures DocBalance(s, step, ApplyDemand(r, s, step), c) && LookupBalance(s, step, ApplyDemand(r, s, step), key)
  {
  }

  lemma MarkBalances(s: State, step: Step, c: Channel, key: LookupKey)
    requires step.HandleOp? && EnabledHandler(s, step) && NextOp(s).Mark?
    ensures DocBalance(s, step, ApplyHandler(s, step), c) && LookupBalance(s, step, ApplyHandler(s, step), key)
  {
  }

  lemma AskBalances(s: State, step: Step, c: Channel, key: LookupKey)
    requires step.HandleOp? && EnabledHandler(s, step) && NextOp(s).Ask?
    ensures DocBalance(s, step, ApplyHandler(s, step), c) && LookupBalance(s, step, ApplyHandler(s, step), key)
  {
  }

  lemma HandlerBalances(s: State, step: Step, c: Channel, key: LookupKey)
    requires step.IsHandler() && EnabledHandler(s, step)
    ensures DocBalance(s, step, ApplyHandler(s, step), c) && LookupBalance(s, step, ApplyHandler(s, step), key)
  {
    if step.HandleOp? {
      if NextOp(s).Mark? {
        MarkBalances(s, step, c, key);
      } else {
        AskBalances(s, step, c, key);
      }
    }
  }

  lemma SearchBalances(s: State, step: Step, c: Channel, key: LookupKey)
    requires step.IsSearch() && EnabledSearch(s, step)
    ensures DocBalance(s, step, ApplySearch(s, step), c) && LookupBalance(s, step, ApplySearch(s, step), key)
  {
  }

  lemma UnitBalances(s: State, step: Step, c: Channel, key: LookupKey)
    requires step.IsUnit() && EnabledUnit(s, step)
    ensures DocBalance(s, step, ApplyUnit(s, step), c) && LookupBalance(s, step, ApplyUnit(s, step), key)
  {
  }

  lemma LookupBalances(r: Rules, s: State, step: Step, c: Channel, key: LookupKey)
    requires step.IsLookup() && EnabledLookup(s, step)
    ensures DocBalance(s, step, ApplyLookup(r, s, step), c) && LookupBalance(s, step, ApplyLookup(r, s, step), key)
  {
  }

  lemma DocBalances(r: Rules, s: State, step: Step, c: Channel, key: LookupKey)
    requires step.IsDoc() && EnabledDoc(r, s, step)
    ensures DocBalance(s, step, ApplyDoc(r, s, step), c) && LookupBalance(s, step, ApplyDoc(r, s, step), key)
  {
  }

  lemma ProducerBalances(r: Rules, s: State, step: Step, c: Channel, key: LookupKey)
    requires Enabled(r, s, step) && !step.Crash? && (step.IsOutside() || step.IsDemand() || step.IsHandler())
    ensures DocBalance(s, step, Apply(r, s, step), c) && LookupBalance(s, step, Apply(r, s, step), key)
  {
    if step.IsOutside() {
      IsOutsideStep(r, s, step);
      OutsideBalances(s, step, c, key);
    } else if step.IsHandler() {
      IsHandlerStep(r, s, step);
      HandlerBalances(s, step, c, key);
    } else {
      IsDemandStep(r, s, step);
      if step.Boot? || step.Poll? {
        PollBalances(r, s, step, c, key);
      } else {
        InterestBalances(r, s, step, c, key);
      }
    }
  }

  lemma WorkerBalances(r: Rules, s: State, step: Step, c: Channel, key: LookupKey)
    requires Enabled(r, s, step) && (step.IsSearch() || step.IsUnit() || step.IsLookup() || step.IsDoc())
    ensures DocBalance(s, step, Apply(r, s, step), c) && LookupBalance(s, step, Apply(r, s, step), key)
  {
    if step.IsSearch() {
      IsSearchStep(r, s, step);
      SearchBalances(s, step, c, key);
    } else if step.IsUnit() {
      IsUnitStep(r, s, step);
      UnitBalances(s, step, c, key);
    } else if step.IsLookup() {
      IsLookupStep(r, s, step);
      LookupBalances(r, s, step, c, key);
    } else {
      IsDocStep(r, s, step);
      DocBalances(r, s, step, c, key);
    }
  }

  lemma StepBalances(r: Rules, s: State, step: Step, c: Channel, key: LookupKey)
    requires Enabled(r, s, step) && !step.Crash?
    ensures DocBalance(s, step, Apply(r, s, step), c) && LookupBalance(s, step, Apply(r, s, step), key)
  {
    if step.IsOutside() || step.IsDemand() || step.IsHandler() {
      ProducerBalances(r, s, step, c, key);
    } else {
      WorkerBalances(r, s, step, c, key);
    }
  }

  /** Over any run: computes started, plus drops, plus dirty now, equal dirty before plus clean-to-dirty transitions. */
  lemma {:induction false} DocConservation(r: Rules, s: State, steps: seq<Step>, c: Channel)
    requires IsRun(r, s, steps) && NoCrash(steps)
    ensures
      var tally := DocTally(r, s, steps, c);
      tally.starts + tally.drops + Bit(c in After(r, s, steps).engine.dirty) == Bit(c in s.engine.dirty) + tally.rises
  {
    if steps == [] {
    } else {
      var n := |steps| - 1;
      DocConservation(r, s, steps[..n], c);
      StepBalances(r, After(r, s, steps[..n]), steps[n], c, LookupKey("", "", []));
    }
  }

  lemma {:induction false} LookupConservation(r: Rules, s: State, steps: seq<Step>, key: LookupKey)
    requires IsRun(r, s, steps) && NoCrash(steps)
    ensures
      var tally := LookupTally(r, s, steps, key);
      tally.starts + Bit(key in After(r, s, steps).engine.lookups) == Bit(key in s.engine.lookups) + tally.rises
  {
    if steps == [] {
    } else {
      var n := |steps| - 1;
      LookupConservation(r, s, steps[..n], key);
      StepBalances(r, After(r, s, steps[..n]), steps[n], "", key);
    }
  }

  /** Doc `c` is being computed before every step of the run. */
  ghost predicate ComputingThroughout(r: Rules, s: State, steps: seq<Step>, c: Channel)
    requires IsRun(r, s, steps)
  {
    steps == []
    || (c in After(r, s, steps[..|steps| - 1]).engine.inflight && ComputingThroughout(r, s, steps[..|steps| - 1], c))
  }

  lemma {:induction false} NothingTakenWhileComputing(r: Rules, s: State, steps: seq<Step>, c: Channel)
    requires IsRun(r, s, steps) && ComputingThroughout(r, s, steps, c)
    ensures DocTally(r, s, steps, c).starts == 0 && DocTally(r, s, steps, c).drops == 0
  {
    if steps == [] {
    } else {
      NothingTakenWhileComputing(r, s, steps[..|steps| - 1], c);
    }
  }

  /** Any number of marks while a doc is being computed costs at most one further compute. */
  lemma MarksDuringComputeCoalesce(r: Rules, s: State, steps: seq<Step>, c: Channel)
    requires IsRun(r, s, steps) && NoCrash(steps) && ComputingThroughout(r, s, steps, c)
    ensures Bit(c in s.engine.dirty) + DocTally(r, s, steps, c).rises <= 1
  {
    DocConservation(r, s, steps, c);
    NothingTakenWhileComputing(r, s, steps, c);
  }
}
