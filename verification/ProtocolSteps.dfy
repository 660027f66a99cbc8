/** Every step of the refetch protocol keeps every invariant, one group of steps and one invariant at a time. */
module ProtocolSteps {
  import opened Wrappers
  import opened ChannelCodec
  import opened EventMapping
  import opened EngineCore
  import opened Protocol
  import opened ProtocolInvariants

  // ----- control and versions

  lemma ControlOutside(r: Rules, s: State, step: Step)
    requires step.IsOutside() && EnabledOutside(r, s, step)
    requires Control(s)
    ensures Control(ApplyOutside(s, step))
  {
  }

  lemma ControlDemand(r: Rules, s: State, step: Step)
    requires step.IsDemand() && EnabledDemand(r, s, step)
    requires Control(s)
    ensures Control(ApplyDemand(r, s, step))
  {
  }

  lemma ControlHandler(s: State, step: Step)
    requires step.IsHandler() && EnabledHandler(s, step)
    requires Control(s)
    ensures Control(ApplyHandler(s, step))
  {
  }

  lemma ControlSearch(s: State, step: Step)
    requires step.IsSearch() && EnabledSearch(s, step)
    requires Control(s)
    ensures Control(ApplySearch(s, step))
  {
  }

  lemma ControlUnit(s: State, step: Step)
    requires step.IsUnit() && EnabledUnit(s, step)
    requires Control(s)
    ensures Control(ApplyUnit(s, step))
  {
  }

  lemma ControlLookup(r: Rules, s: State, step: Step)
    requires step.IsLookup() && EnabledLookup(s, step)
    requires Control(s)
    ensures Control(ApplyLookup(r, s, step))
  {
  }

  lemma ControlDoc(r: Rules, s: State, step: Step)
    requires step.IsDoc() && EnabledDoc(r, s, step)
    requires Control(s)
    ensures Control(ApplyDoc(r, s, step))
  {
  }

  lemma VersionsOutside(r: Rules, s: State, step: Step)
    requires step.IsOutside() && EnabledOutside(r, s, step)
    requires Control(s) && Versions(s)
    ensures Versions(ApplyOutside(s, step))
  {
  }

  lemma VersionsPolls(r: Rules, s: State, step: Step)
    requires (step.Boot? || step.Poll?) && EnabledDemand(r, s, step)
    requires Control(s) && Versions(s)
    ensures Versions(ApplyDemand(r, s, step))
  {
  }

  lemma VersionsDemand(r: Rules, s: State, step: Step)
    requires step.IsDemand() && EnabledDemand(r, s, step)
    requires Control(s) && Versions(s)
    ensures Versions(ApplyDemand(r, s, step))
  {
    if step.Boot? || step.Poll? {
      VersionsPolls(r, s, step);
    }
  }

  lemma VersionsOp(s: State, step: Step)
    requires step.HandleOp? && EnabledHandler(s, step)
    requires Control(s) && Versions(s)
    ensures Versions(ApplyHandler(s, step))
  {
  }

  lemma VersionsHandler(s: State, step: Step)
    requires step.IsHandler() && EnabledHandler(s, step)
    requires Control(s) && Versions(s)
    ensures Versions(ApplyHandler(s, step))
  {
    if step.HandleOp? {
      VersionsOp(s, step);
    }
  }

  lemma VersionsSearch(s: State, step: Step)
    requires step.IsSearch() && EnabledSearch(s, step)
    requires Control(s) && Versions(s)
    ensures Versions(ApplySearch(s, step))
  {
  }

  lemma VersionsUnit(s: State, step: Step)
    requires step.IsUnit() && EnabledUnit(s, step)
    requires Control(s) && Versions(s)
    ensures Versions(ApplyUnit(s, step))
  {
  }

  lemma VersionsMarksRow(r: Rules, s: State, step: Step)
    requires step.MarksRow? && EnabledLookup(s, step)
    requires Control(s) && Versions(s)
    ensures Versions(ApplyLookup(r, s, step))
  {
  }

  lemma VersionsMarksLive(r: Rules, s: State, step: Step)
    requires step.MarksLive? && EnabledLookup(s, step)
    requires Control(s) && Versions(s)
    ensures Versions(ApplyLookup(r, s, step))
  {
  }

  lemma VersionsLookup(r: Rules, s: State, step: Step)
    requires step.IsLookup() && EnabledLookup(s, step)
    requires Control(s) && Versions(s)
    ensures Versions(ApplyLookup(r, s, step))
  {
    if step.MarksRow? {
      VersionsMarksRow(r, s, step);
    } else if step.MarksLive? {
      VersionsMarksLive(r, s, step);
    }
  }

  lemma VersionsDoc(r: Rules, s: State, step: Step)
    requires step.IsDoc() && EnabledDoc(r, s, step)
    requires Control(s) && Versions(s)
    ensures Versions(ApplyDoc(r, s, step))
  {
  }

  // ----- single flight

  /** A step of worker `w` that leaves its unit and the marks alone keeps single flight. */
  lemma DocFlightFrame(s: State, t: State, w: nat)
    requires DocFlight(s) && w < |s.workers| == |t.workers| && t.engine.inflight == s.engine.inflight
    requires HeldDoc(t.workers[w].pc) == HeldDoc(s.workers[w].pc)
    requires forall v | 0 <= v < |s.workers| && v != w :: t.workers[v] == s.workers[v]
    ensures DocFlight(t)
  {
  }

  lemma KeyFlightFrame(s: State, t: State, w: nat)
    requires KeyFlight(s) && w < |s.workers| == |t.workers| && t.engine.lookupInflight == s.engine.lookupInflight
    requires HeldKey(t.workers[w].pc) == HeldKey(s.workers[w].pc)
    requires forall v | 0 <= v < |s.workers| && v != w :: t.workers[v] == s.workers[v]
    ensures KeyFlight(t)
  {
  }

  /** A step that leaves the workers and the marks alone keeps single flight. */
  lemma FlightSame(s: State, t: State)
    requires DocFlight(s) && KeyFlight(s) && t.workers == s.workers
    requires t.engine.inflight == s.engine.inflight && t.engine.lookupInflight == s.engine.lookupInflight
    ensures DocFlight(t) && KeyFlight(t)
  {
  }

  lemma FlightOutside(r: Rules, s: State, step: Step)
    requires step.IsOutside() && EnabledOutside(r, s, step)
    requires Control(s) && DocFlight(s) && KeyFlight(s)
    ensures DocFlight(ApplyOutside(s, step)) && KeyFlight(ApplyOutside(s, step))
  {
  }

  lemma FlightPolls(r: Rules, s: State, step: Step)
    requires (step.Boot? || step.Poll?) && EnabledDemand(r, s, step)
    requires Control(s) && DocFlight(s) && KeyFlight(s)
    ensures DocFlight(ApplyDemand(r, s, step)) && KeyFlight(ApplyDemand(r, s, step))
  {
    FlightSame(s, ApplyDemand(r, s, step));
  }

  lemma FlightDemand(r: Rules, s: State, step: Step)
    requires step.IsDemand() && EnabledDemand(r, s, step)
    requires Control(s) && DocFlight(s) && KeyFlight(s)
    ensures DocFlight(ApplyDemand(r, s, step)) && KeyFlight(ApplyDemand(r, s, step))
  {
    if step.Boot? || step.Poll? {
      FlightPolls(r, s, step);
    } else {
      FlightSame(s, ApplyDemand(r, s, step));
    }
  }

  lemma FlightHandler(s: State, step: Step)
    requires step.IsHandler() && EnabledHandler(s, step)
    requires Control(s) && DocFlight(s) && KeyFlight(s)
    ensures DocFlight(ApplyHandler(s, step)) && KeyFlight(ApplyHandler(s, step))
  {
    FlightSame(s, ApplyHandler(s, step));
  }

  lemma FlightSearch(s: State, step: Step)
    requires step.IsSearch() && EnabledSearch(s, step)
    requires Control(s) && DocFlight(s) && KeyFlight(s)
    ensures DocFlight(ApplySearch(s, step)) && KeyFlight(ApplySearch(s, step))
  {
    DocFlightFrame(s, ApplySearch(s, step), step.w);
    KeyFlightFrame(s, ApplySearch(s, step), step.w);
  }

  lemma FlightLookup(r: Rules, s: State, step: Step)
    requires step.IsLookup() && EnabledLookup(s, step)
    requires Control(s) && DocFlight(s) && KeyFlight(s)
    ensures DocFlight(ApplyLookup(r, s, step)) && KeyFlight(ApplyLookup(r, s, step))
  {
    DocFlightFrame(s, ApplyLookup(r, s, step), step.w);
    KeyFlightFrame(s, ApplyLookup(r, s, step), step.w);
  }

  lemma FlightDoc(r: Rules, s: State, step: Step)
    requires step.IsDoc() && EnabledDoc(r, s, step)
    requires Control(s) && DocFlight(s) && KeyFlight(s)
    ensures DocFlight(ApplyDoc(r, s, step)) && KeyFlight(ApplyDoc(r, s, step))
  {
    DocFlightFrame(s, ApplyDoc(r, s, step), step.w);
    KeyFlightFrame(s, ApplyDoc(r, s, step), step.w);
  }

  lemma FlightTakesDoc(s: State, step: Step)
    requires step.TakesDoc? && EnabledUnit(s, step)
    requires Control(s) && DocFlight(s)
    ensures DocFlight(ApplyUnit(s, step))
  {
  }

  lemma FlightFinishesDoc(s: State, step: Step)
    requires step.FinishesDoc? && EnabledUnit(s, step)
    requires Control(s) && DocFlight(s)
    ensures DocFlight(ApplyUnit(s, step))
  {
  }

  lemma FlightTakesLookup(s: State, step: Step)
    requires step.TakesLookup? && EnabledUnit(s, step)
    requires Control(s) && KeyFlight(s)
    ensures KeyFlight(ApplyUnit(s, step))
  {
  }

  lemma FlightFinishesLookup(s: State, step: Step)
    requires step.FinishesLookup? && EnabledUnit(s, step)
    requires Control(s) && KeyFlight(s)
    ensures KeyFlight(ApplyUnit(s, step))
  {
  }

  lemma FlightUnit(s: State, step: Step)
    requires step.IsUnit() && EnabledUnit(s, step)
    requires Control(s) && DocFlight(s) && KeyFlight(s)
    ensures DocFlight(ApplyUnit(s, step)) && KeyFlight(ApplyUnit(s, step))
  {
    var t := ApplyUnit(s, step);
    if step.TakesDoc? {
      FlightTakesDoc(s, step);
      KeyFlightFrame(s, t, step.w);
    } else if step.FinishesDoc? {
      FlightFinishesDoc(s, step);
      KeyFlightFrame(s, t, step.w);
    } else if step.TakesLookup? {
      FlightTakesLookup(s, step);
      DocFlightFrame(s, t, step.w);
    } else {
      FlightFinishesLookup(s, step);
      DocFlightFrame(s, t, step.w);
    }
  }

  // ----- keys and forward publishing

  lemma KeysOutside(r: Rules, s: State, step: Step)
    requires step.IsOutside() && EnabledOutside(r, s, step)
    requires Control(s) && DocFlight(s) && Keys(r, s)
    ensures Keys(r, ApplyOutside(s, step))
  {
  }

  lemma KeysPolls(r: Rules, s: State, step: Step)
    requires (step.Boot? || step.Poll?) && EnabledDemand(r, s, step)
    requires Control(s) && DocFlight(s) && Keys(r, s)
    ensures Keys(r, ApplyDemand(r, s, step))
  {
  }

  lemma KeysDemand(r: Rules, s: State, step: Step)
    requires step.IsDemand() && EnabledDemand(r, s, step)
    requires Control(s) && DocFlight(s) && Keys(r, s)
    ensures Keys(r, ApplyDemand(r, s, step))
  {
    if step.Boot? || step.Poll? {
      KeysPolls(r, s, step);
    }
  }

  lemma KeysOp(r: Rules, s: State, step: Step)
    requires step.HandleOp? && EnabledHandler(s, step)
    requires Control(s) && DocFlight(s) && Keys(r, s)
    ensures Keys(r, ApplyHandler(s, step))
  {
  }

  lemma KeysHandler(r: Rules, s: State, step: Step)
    requires step.IsHandler() && EnabledHandler(s, step)
    requires Control(s) && DocFlight(s) && Keys(r, s)
    ensures Keys(r, ApplyHandler(s, step))
  {
    if step.HandleOp? {
      KeysOp(r, s, step);
    }
  }

  lemma KeysSearch(r: Rules, s: State, step: Step)
    requires step.IsSearch() && EnabledSearch(s, step)
    requires Control(s) && DocFlight(s) && Keys(r, s)
    ensures Keys(r, ApplySearch(s, step))
  {
  }

  lemma KeysUnit(r: Rules, s: State, step: Step)
    requires step.IsUnit() && EnabledUnit(s, step)
    requires Control(s) && DocFlight(s) && Keys(r, s)
    ensures Keys(r, ApplyUnit(s, step))
  {
  }

  lemma KeysLookup(r: Rules, s: State, step: Step)
    requires step.IsLookup() && EnabledLookup(s, step)
    requires Control(s) && DocFlight(s) && Keys(r, s)
    ensures Keys(r, ApplyLookup(r, s, step))
  {
  }

  lemma KeysDoc(r: Rules, s: State, step: Step)
    requires step.IsDoc() && EnabledDoc(r, s, step)
    requires Control(s) && DocFlight(s) && Keys(r, s)
    ensures Keys(r, ApplyDoc(r, s, step))
  {
  }

  lemma ForwardPublishOutside(r: Rules, s: State, step: Step)
    requires step.IsOutside() && EnabledOutside(r, s, step)
    requires Control(s) && Versions(s) && DocFlight(s) && ForwardPublish(s)
    ensures ForwardPublish(ApplyOutside(s, step))
  {
  }

  lemma ForwardPublishDemand(r: Rules, s: State, step: Step)
    requires step.IsDemand() && EnabledDemand(r, s, step)
    requires Control(s) && Versions(s) && DocFlight(s) && ForwardPublish(s)
    ensures ForwardPublish(ApplyDemand(r, s, step))
  {
  }

  lemma ForwardPublishHandler(s: State, step: Step)
    requires step.IsHandler() && EnabledHandler(s, step)
    requires Control(s) && Versions(s) && DocFlight(s) && ForwardPublish(s)
    ensures ForwardPublish(ApplyHandler(s, step))
  {
  }

  lemma ForwardPublishSearch(s: State, step: Step)
    requires step.IsSearch() && EnabledSearch(s, step)
    requires Control(s) && Versions(s) && DocFlight(s) && ForwardPublish(s)
    ensures ForwardPublish(ApplySearch(s, step))
  {
  }

  lemma ForwardPublishUnit(s: State, step: Step)
    requires step.IsUnit() && EnabledUnit(s, step)
    requires Control(s) && Versions(s) && DocFlight(s) && ForwardPublish(s)
    ensures ForwardPublish(ApplyUnit(s, step))
  {
  }

  lemma ForwardPublishLookup(r: Rules, s: State, step: Step)
    requires step.IsLookup() && EnabledLookup(s, step)
    requires Control(s) && Versions(s) && DocFlight(s) && ForwardPublish(s)
    ensures ForwardPublish(ApplyLookup(r, s, step))
  {
  }

  lemma ForwardPublishDoc(r: Rules, s: State, step: Step)
    requires step.IsDoc() && EnabledDoc(r, s, step)
    requires Control(s) && Versions(s) && DocFlight(s) && ForwardPublish(s)
    ensures ForwardPublish(ApplyDoc(r, s, step))
  {
  }

  // ----- freshness

  lemma FreshOutside(r: Rules, s: State, step: Step)
    requires step.IsOutside() && EnabledOutside(r, s, step)
    requires Control(s) && Versions(s) && DocFlight(s) && ForwardPublish(s) && Fresh(s)
    ensures Fresh(ApplyOutside(s, step))
  {
  }

  lemma FreshDemand(r: Rules, s: State, step: Step)
    requires step.IsDemand() && EnabledDemand(r, s, step)
    requires Control(s) && Versions(s) && DocFlight(s) && ForwardPublish(s) && Fresh(s)
    ensures Fresh(ApplyDemand(r, s, step))
  {
  }

  lemma FreshHandler(s: State, step: Step)
    requires step.IsHandler() && EnabledHandler(s, step)
    requires Control(s) && Versions(s) && DocFlight(s) && ForwardPublish(s) && Fresh(s)
    ensures Fresh(ApplyHandler(s, step))
  {
  }

  lemma FreshSearch(s: State, step: Step)
    requires step.IsSearch() && EnabledSearch(s, step)
    requires Control(s) && Versions(s) && DocFlight(s) && ForwardPublish(s) && Fresh(s)
    ensures Fresh(ApplySearch(s, step))
  {
  }

  lemma FreshTakesDoc(s: State, step: Step)
    requires step.TakesDoc? && EnabledUnit(s, step)
    requires Control(s) && Versions(s) && DocFlight(s) && ForwardPublish(s) && Fresh(s)
    ensures Fresh(ApplyUnit(s, step))
  {
  }

  lemma FreshUnit(s: State, step: Step)
    requires step.IsUnit() && EnabledUnit(s, step)
    requires Control(s) && Versions(s) && DocFlight(s) && ForwardPublish(s) && Fresh(s)
    ensures Fresh(ApplyUnit(s, step))
  {
    if step.TakesDoc? {
      FreshTakesDoc(s, step);
    }
  }

  lemma FreshMarksRow(r: Rules, s: State, step: Step)
    requires step.MarksRow? && EnabledLookup(s, step)
    requires Control(s) && Versions(s) && Keys(r, s) && DocFlight(s) && ForwardPublish(s) && Fresh(s)
    ensures Fresh(ApplyLookup(r, s, step))
  {
  }

  lemma FreshMarksLive(r: Rules, s: State, step: Step)
    requires step.MarksLive? && EnabledLookup(s, step)
    requires Control(s) && Versions(s) && Keys(r, s) && DocFlight(s) && ForwardPublish(s) && Fresh(s)
    ensures Fresh(ApplyLookup(r, s, step))
  {
  }

  lemma FreshRequeues(r: Rules, s: State, step: Step)
    requires step.RequeuesLookup? && EnabledLookup(s, step)
    requires Control(s) && Versions(s) && Keys(r, s) && DocFlight(s) && ForwardPublish(s) && Fresh(s)
    ensures Fresh(ApplyLookup(r, s, step))
  {
  }

  lemma FreshReads(r: Rules, s: State, step: Step)
    requires (step.KeysRead? || step.KeysOverCap? || step.KeysFailed?) && EnabledLookup(s, step)
    requires Control(s) && Versions(s) && Keys(r, s) && DocFlight(s) && ForwardPublish(s) && Fresh(s)
    ensures Fresh(ApplyLookup(r, s, step))
  {
  }

  lemma FreshLookup(r: Rules, s: State, step: Step)
    requires step.IsLookup() && EnabledLookup(s, step)
    requires Control(s) && Versions(s) && Keys(r, s) && DocFlight(s) && ForwardPublish(s) && Fresh(s)
    ensures Fresh(ApplyLookup(r, s, step))
  {
    if step.MarksRow? {
      FreshMarksRow(r, s, step);
    } else if step.MarksLive? {
      FreshMarksLive(r, s, step);
    } else if step.RequeuesLookup? {
      FreshRequeues(r, s, step);
    } else if step.KeysRead? || step.KeysOverCap? || step.KeysFailed? {
      FreshReads(r, s, step);
    }
  }

  lemma FreshPublishes(r: Rules, s: State, step: Step)
    requires step.Publishes? && EnabledDoc(r, s, step)
    requires Control(s) && Versions(s) && Keys(r, s) && DocFlight(s) && ForwardPublish(s) && Fresh(s)
    ensures Fresh(ApplyDoc(r, s, step))
  {
  }

  lemma FreshPublishFailed(r: Rules, s: State, step: Step)
    requires step.PublishFailed? && EnabledDoc(r, s, step)
    requires Control(s) && Versions(s) && Keys(r, s) && DocFlight(s) && ForwardPublish(s) && Fresh(s)
    ensures Fresh(ApplyDoc(r, s, step))
  {
  }

  lemma FreshDoc(r: Rules, s: State, step: Step)
    requires step.IsDoc() && EnabledDoc(r, s, step)
    requires Control(s) && Versions(s) && Keys(r, s) && DocFlight(s) && ForwardPublish(s) && Fresh(s)
    ensures Fresh(ApplyDoc(r, s, step))
  {
    if step.Publishes? {
      FreshPublishes(r, s, step);
    } else if step.PublishFailed? {
      FreshPublishFailed(r, s, step);
    }
  }

  // ----- lookups

  lemma AskStands(h: seq<Change>, longer: seq<Change>, u: nat, key: LookupKey, lookup: Lookup)
    requires h <= longer && AskedBefore(h, u, key, lookup)
    ensures forall v | u <= v :: AskedBefore(longer, v, key, lookup)
  {
    var j, k :| 0 <= j < u && j < |h| && 0 <= k < |h[j].ops| && h[j].ops[k] == Ask(key, lookup);
    assert longer[j] == h[j];
  }

  /** Obligations only grow and a channel becomes live owing the current version, so what has been served stays so. */
  lemma ServedStays(r: Rules, s: State, t: State, key: LookupKey, v: nat)
    requires ServedSince(r, s, key, v) && s.history <= t.history
    requires forall c :: Latest(t.owed, c) >= Latest(s.owed, c)
    requires forall c | c in t.engine.live && c !in s.engine.live :: Latest(t.owed, c) >= s.Version()
    ensures ServedSince(r, t, key, v)
  {
    var u: nat, lookup :| v <= u && Served(r, s, key, u, lookup);
    assert IndexAt(t.history, u, key) == IndexAt(s.history, u, key);
    AskStands(s.history, t.history, u, key, lookup);
    assert Served(r, t, key, u, lookup);
  }

  /** A worker other than those the step moves goes on covering. */
  lemma CoveredStays(r: Rules, s: State, t: State, key: LookupKey)
    requires key in s.asked && key in t.asked && t.asked[key] == s.asked[key] && CoveredAt(r, s, key)
    requires s.engine.lookups.Keys <= t.engine.lookups.Keys && s.history <= t.history
    requires |t.workers| == |s.workers|
    requires forall w | 0 <= w < |s.workers| :: t.workers[w].pc == s.workers[w].pc
    requires forall c :: Latest(t.owed, c) >= Latest(s.owed, c)
    requires forall c | c in t.engine.live && c !in s.engine.live :: Latest(t.owed, c) >= s.Version()
    ensures CoveredAt(r, t, key)
  {
    if InLookup(s.workers, key, s.asked[key]) {
      var w :| 0 <= w < |s.workers| && Covering(s.workers[w].pc, key, s.asked[key]);
      assert Covering(t.workers[w].pc, key, t.asked[key]);
    } else if key !in s.engine.lookups {
      ServedStays(r, s, t, key, s.asked[key]);
    }
  }

  /** One worker moves: the key is still covered if it was not that worker's, or the worker goes on covering it. */
  lemma CoveredMoves(r: Rules, s: State, t: State, w: nat, key: LookupKey)
    requires key in s.asked && t.asked == s.asked && CoveredAt(r, s, key)
    requires w < |s.workers| && t.history == s.history && t.engine.live.Keys == s.engine.live.Keys
    requires |t.workers| == |s.workers| && forall v | 0 <= v < |s.workers| && v != w :: t.workers[v] == s.workers[v]
    requires forall c :: Latest(t.owed, c) >= Latest(s.owed, c)
    requires key in s.engine.lookups || Covering(s.workers[w].pc, key, s.asked[key]) ==>
               || key in t.engine.lookups
               || Covering(t.workers[w].pc, key, s.asked[key])
               || ServedSince(r, t, key, s.asked[key])
    ensures CoveredAt(r, t, key)
  {
    if ServedSince(r, s, key, s.asked[key]) {
      ServedStays(r, s, t, key, s.asked[key]);
    } else if key !in s.engine.lookups {
      var v :| 0 <= v < |s.workers| && Covering(s.workers[v].pc, key, s.asked[key]);
      assert v != w ==> Covering(t.workers[v].pc, key, s.asked[key]);
    }
  }

  /** A run that has marked all its rows, or every live doc of the query, has served its key. */
  lemma FinishedServes(r: Rules, s: State, step: Step)
    requires (step.RowsDone? || step.MarksLive?) && EnabledLookup(s, step)
    requires Control(s) && Versions(s) && Queued(s) && LookupOutcomes(r, s)
    ensures
      var pc := s.At(step.w);
      Served(r, ApplyLookup(r, s, step), pc.key, pc.read.version, pc.read.lookup)
  {
    assert LookupOutcome(r, s, s.workers[step.w].pc);
    assert QueuedPc(s.history, s.workers[step.w].pc);
  }

  lemma CoveredOutside(r: Rules, s: State, step: Step)
    requires step.IsOutside() && EnabledOutside(r, s, step)
    requires Control(s) && Versions(s) && Asked(s) && Covered(r, s)
    ensures Covered(r, ApplyOutside(s, step))
  {
    var t := ApplyOutside(s, step);
    forall key | key in t.asked ensures CoveredAt(r, t, key) {
      if step.Crash? {
        var lookup :| AskedBefore(s.history, s.asked[key], key, lookup);
        assert Served(r, t, key, t.asked[key], lookup);
      } else {
        CoveredStays(r, s, t, key);
      }
    }
  }

  /** Interest only adds obligations, and a channel it makes live owes the current version. */
  lemma DemandOwes(r: Rules, s: State, step: Step)
    requires step.IsDemand() && EnabledDemand(r, s, step) && Versions(s)
    ensures
      var t := ApplyDemand(r, s, step);
      && (forall c :: Latest(t.owed, c) >= Latest(s.owed, c))
      && (forall c | c in t.engine.live && c !in s.engine.live :: Latest(t.owed, c) >= s.Version())
  {
  }

  lemma CoveredDemand(r: Rules, s: State, step: Step)
    requires step.IsDemand() && EnabledDemand(r, s, step)
    requires Control(s) && Versions(s) && Asked(s) && Covered(r, s)
    ensures Covered(r, ApplyDemand(r, s, step))
  {
    var t := ApplyDemand(r, s, step);
    forall key | key in t.asked ensures CoveredAt(r, t, key) {
      DemandOwes(r, s, step);
      CoveredStays(r, s, t, key);
    }
  }

  lemma CoveredHandlerKey(r: Rules, s: State, step: Step, key: LookupKey)
    requires step.IsHandler() && EnabledHandler(s, step) && Control(s) && Versions(s)
    requires key in s.asked && CoveredAt(r, s, key) && !(step.HandleOp? && NextOp(s).Ask? && NextOp(s).key == key)
    ensures CoveredAt(r, ApplyHandler(s, step), key)
  {
    CoveredStays(r, s, ApplyHandler(s, step), key);
  }

  lemma CoveredHandler(r: Rules, s: State, step: Step)
    requires step.IsHandler() && EnabledHandler(s, step)
    requires Control(s) && Versions(s) && Asked(s) && Covered(r, s)
    ensures Covered(r, ApplyHandler(s, step))
  {
    var t := ApplyHandler(s, step);
    forall key | key in t.asked ensures CoveredAt(r, t, key) {
      if !(step.HandleOp? && NextOp(s).Ask? && NextOp(s).key == key) {
        CoveredHandlerKey(r, s, step, key);
      }
    }
  }

  lemma CoveredSearch(r: Rules, s: State, step: Step)
    requires step.IsSearch() && EnabledSearch(s, step)
    requires Control(s) && Versions(s) && Asked(s) && Covered(r, s)
    ensures Covered(r, ApplySearch(s, step))
  {
    var t := ApplySearch(s, step);
    forall key | key in t.asked ensures CoveredAt(r, t, key) {
      CoveredMoves(r, s, t, step.w, key);
    }
  }

  lemma CoveredUnitKey(r: Rules, s: State, step: Step, key: LookupKey)
    requires step.IsUnit() && EnabledUnit(s, step) && key in s.asked && CoveredAt(r, s, key)
    ensures CoveredAt(r, ApplyUnit(s, step), key)
  {
    CoveredMoves(r, s, ApplyUnit(s, step), step.w, key);
  }

  lemma CoveredUnit(r: Rules, s: State, step: Step)
    requires step.IsUnit() && EnabledUnit(s, step)
    requires Control(s) && Versions(s) && Asked(s) && Covered(r, s)
    ensures Covered(r, ApplyUnit(s, step))
  {
    var t := ApplyUnit(s, step);
    forall key | key in t.asked ensures CoveredAt(r, t, key) {
      CoveredUnitKey(r, s, step, key);
    }
  }

  lemma LookupOwes(r: Rules, s: State, step: Step)
    requires step.IsLookup() && EnabledLookup(s, step)
    ensures forall c :: Latest(ApplyLookup(r, s, step).owed, c) >= Latest(s.owed, c)
    ensures
      var t := ApplyLookup(r, s, step);
      && t.history == s.history && t.asked == s.asked && t.engine.live == s.engine.live
      && s.engine.lookups.Keys <= t.engine.lookups.Keys
  {
  }

  lemma CoveredGoesOn(r: Rules, s: State, step: Step, key: LookupKey)
    requires step.IsLookup() && EnabledLookup(s, step) && !step.RowsDone? && !step.MarksLive?
    requires key in s.asked && CoveredAt(r, s, key) && s.asked[key] <= s.Version()
    ensures CoveredAt(r, ApplyLookup(r, s, step), key)
  {
    LookupOwes(r, s, step);
    CoveredMoves(r, s, ApplyLookup(r, s, step), step.w, key);
  }

  lemma CoveredFinishes(r: Rules, s: State, step: Step, key: LookupKey)
    requires (step.RowsDone? || step.MarksLive?) && EnabledLookup(s, step)
    requires key in s.asked && CoveredAt(r, s, key)
    requires Served(r, ApplyLookup(r, s, step), s.At(step.w).key, s.At(step.w).read.version, s.At(step.w).read.lookup)
    ensures CoveredAt(r, ApplyLookup(r, s, step), key)
  {
    LookupOwes(r, s, step);
    CoveredMoves(r, s, ApplyLookup(r, s, step), step.w, key);
  }

  lemma CoveredLookup(r: Rules, s: State, step: Step)
    requires step.IsLookup() && EnabledLookup(s, step)
    requires Control(s) && Versions(s) && Asked(s) && Covered(r, s) && Queued(s) && LookupOutcomes(r, s)
    ensures Covered(r, ApplyLookup(r, s, step))
  {
    var t := ApplyLookup(r, s, step);
    forall key | key in t.asked ensures CoveredAt(r, t, key) {
      if step.RowsDone? || step.MarksLive? {
        FinishedServes(r, s, step);
        CoveredFinishes(r, s, step, key);
      } else {
        CoveredGoesOn(r, s, step, key);
      }
    }
  }

  lemma CoveredDoc(r: Rules, s: State, step: Step)
    requires step.IsDoc() && EnabledDoc(r, s, step)
    requires Control(s) && Versions(s) && Asked(s) && Covered(r, s)
    ensures Covered(r, ApplyDoc(r, s, step))
  {
    var t := ApplyDoc(r, s, step);
    forall key | key in t.asked ensures CoveredAt(r, t, key) {
      CoveredMoves(r, s, t, step.w, key);
    }
  }

  /** The op being handled is one of the transaction at the handler's position. */
  lemma NextIsAsked(s: State)
    requires Control(s) && s.handling.Some? && |s.handling.value| > 0 && NextOp(s).Ask?
    ensures AskedBefore(s.history, s.position + 1, NextOp(s).key, NextOp(s).lookup)
    ensures AskedBefore(s.history, s.Version(), NextOp(s).key, NextOp(s).lookup)
  {
    var ops := s.history[s.position].ops;
    assert ops[|ops| - |s.handling.value|] == NextOp(s);
  }

  lemma QueuedGrows(s: State, t: State)
    requires Queued(s) && Versions(s) && s.history <= t.history && t.workers == s.workers
    requires t.engine.lookups == s.engine.lookups
    ensures Queued(t)
  {
    forall key | key in t.engine.lookups
      ensures AskedBefore(t.history, t.Version(), key, t.engine.lookups[key])
    {
      AskStands(s.history, t.history, s.Version(), key, s.engine.lookups[key]);
    }
    forall w | 0 <= w < |t.workers| ensures QueuedPc(t.history, t.workers[w].pc) {
      QueuedPcGrows(s.history, t.history, s.workers[w].pc);
    }
  }

  lemma QueuedPcGrows(h: seq<Change>, longer: seq<Change>, pc: Pc)
    requires h <= longer && QueuedPc(h, pc) && PcVersionKnown(pc, |h|)
    ensures QueuedPc(longer, pc)
  {
    if pc.LookupRead? || pc.LookupBackoff? {
      AskStands(h, longer, |h|, pc.key, pc.lookup);
    } else if pc.LookupOverCap? || pc.LookupMarking? {
      AskStands(h, longer, pc.read.version, pc.key, pc.read.lookup);
    } else if pc.LookupFinish? && pc.done.Some? {
      AskStands(h, longer, pc.done.value.version, pc.key, pc.done.value.lookup);
    }
  }

  lemma QueuedOutside(r: Rules, s: State, step: Step)
    requires step.IsOutside() && EnabledOutside(r, s, step)
    requires Control(s) && Versions(s) && Queued(s)
    ensures Queued(ApplyOutside(s, step))
  {
    if step.Commit? {
      QueuedGrows(s, ApplyOutside(s, step));
    }
  }

  lemma QueuedDemand(r: Rules, s: State, step: Step)
    requires step.IsDemand() && EnabledDemand(r, s, step)
    requires Control(s) && Versions(s) && Queued(s)
    ensures Queued(ApplyDemand(r, s, step))
  {
  }

  lemma QueuedHandler(s: State, step: Step)
    requires step.IsHandler() && EnabledHandler(s, step)
    requires Control(s) && Versions(s) && Queued(s)
    ensures Queued(ApplyHandler(s, step))
  {
    if step.HandleOp? && NextOp(s).Ask? {
      NextIsAsked(s);
    }
  }

  lemma QueuedSearch(s: State, step: Step)
    requires step.IsSearch() && EnabledSearch(s, step)
    requires Control(s) && Versions(s) && Queued(s)
    ensures Queued(ApplySearch(s, step))
  {
  }

  lemma QueuedUnit(s: State, step: Step)
    requires step.IsUnit() && EnabledUnit(s, step)
    requires Control(s) && Versions(s) && Queued(s)
    ensures Queued(ApplyUnit(s, step))
  {
  }

  lemma QueuedRequeues(r: Rules, s: State, step: Step)
    requires step.RequeuesLookup? && EnabledLookup(s, step)
    requires Control(s) && Versions(s) && Queued(s)
    ensures Queued(ApplyLookup(r, s, step))
  {
  }

  lemma QueuedLookup(r: Rules, s: State, step: Step)
    requires step.IsLookup() && EnabledLookup(s, step)
    requires Control(s) && Versions(s) && Queued(s)
    ensures Queued(ApplyLookup(r, s, step))
  {
    if step.RequeuesLookup? {
      QueuedRequeues(r, s, step);
    }
  }

  lemma QueuedDoc(r: Rules, s: State, step: Step)
    requires step.IsDoc() && EnabledDoc(r, s, step)
    requires Control(s) && Versions(s) && Queued(s)
    ensures Queued(ApplyDoc(r, s, step))
  {
  }

  lemma AskedOutside(r: Rules, s: State, step: Step)
    requires step.IsOutside() && EnabledOutside(r, s, step)
    requires Control(s) && Versions(s) && Asked(s)
    ensures Asked(ApplyOutside(s, step))
  {
    var t := ApplyOutside(s, step);
    forall key | key in t.asked ensures exists lookup :: AskedBefore(t.history, t.asked[key], key, lookup) {
      var lookup :| AskedBefore(s.history, s.asked[key], key, lookup);
      AskStands(s.history, t.history, s.asked[key], key, lookup);
      assert AskedBefore(t.history, t.asked[key], key, lookup);
    }
  }

  lemma AskedDemand(r: Rules, s: State, step: Step)
    requires step.IsDemand() && EnabledDemand(r, s, step)
    requires Control(s) && Versions(s) && Asked(s)
    ensures Asked(ApplyDemand(r, s, step))
  {
  }

  lemma AskedAsk(s: State, step: Step)
    requires Control(s) && Asked(s) && step.HandleOp? && EnabledHandler(s, step) && NextOp(s).Ask?
    ensures Asked(ApplyHandler(s, step))
  {
    var t := ApplyHandler(s, step);
    NextIsAsked(s);
    forall key | key in t.asked ensures exists lookup :: AskedBefore(t.history, t.asked[key], key, lookup) {
      if key == NextOp(s).key && t.asked[key] == s.position + 1 {
        assert AskedBefore(t.history, t.asked[key], key, NextOp(s).lookup);
      } else {
        assert t.asked[key] == s.asked[key];
      }
    }
  }

  lemma AskedHandler(s: State, step: Step)
    requires step.IsHandler() && EnabledHandler(s, step)
    requires Control(s) && Versions(s) && Asked(s)
    ensures Asked(ApplyHandler(s, step))
  {
    if step.HandleOp? && NextOp(s).Ask? {
      AskedAsk(s, step);
    }
  }

  lemma AskedSearch(s: State, step: Step)
    requires step.IsSearch() && EnabledSearch(s, step)
    requires Control(s) && Versions(s) && Asked(s)
    ensures Asked(ApplySearch(s, step))
  {
  }

  lemma AskedUnit(s: State, step: Step)
    requires step.IsUnit() && EnabledUnit(s, step)
    requires Control(s) && Versions(s) && Asked(s)
    ensures Asked(ApplyUnit(s, step))
  {
  }

  lemma AskedLookup(r: Rules, s: State, step: Step)
    requires step.IsLookup() && EnabledLookup(s, step)
    requires Control(s) && Versions(s) && Asked(s)
    ensures Asked(ApplyLookup(r, s, step))
  {
  }

  lemma AskedDoc(r: Rules, s: State, step: Step)
    requires step.IsDoc() && EnabledDoc(r, s, step)
    requires Control(s) && Versions(s) && Asked(s)
    ensures Asked(ApplyDoc(r, s, step))
  {
  }

  /** Obligations only grow, so the outcome of every lookup run stands. */
  lemma OutcomesGrow(r: Rules, s: State, t: State)
    requires LookupOutcomes(r, s) && t.workers == s.workers && t.history == s.history
    requires forall c :: Latest(t.owed, c) >= Latest(s.owed, c)
    requires s.engine.lookups.Keys <= t.engine.lookups.Keys
    requires Versions(s) && forall c | c in t.engine.live && c !in s.engine.live :: Latest(t.owed, c) >= s.Version()
    ensures LookupOutcomes(r, t)
  {
    forall w | 0 <= w < |t.workers| ensures LookupOutcome(r, t, t.workers[w].pc) {
      assert LookupOutcome(r, s, s.workers[w].pc);
    }
  }

  /** One worker moves: the outcomes of the others stand. */
  lemma OutcomesMove(r: Rules, s: State, t: State, w: nat)
    requires LookupOutcomes(r, s) && w < |s.workers| == |t.workers| && t.history == s.history
    requires forall v | 0 <= v < |s.workers| && v != w :: t.workers[v] == s.workers[v]
    requires forall c :: Latest(t.owed, c) >= Latest(s.owed, c)
    requires s.engine.lookups.Keys <= t.engine.lookups.Keys && t.engine.live == s.engine.live
    requires LookupOutcome(r, t, t.workers[w].pc)
    ensures LookupOutcomes(r, t)
  {
    forall v | 0 <= v < |t.workers| ensures LookupOutcome(r, t, t.workers[v].pc) {
      assert LookupOutcome(r, s, s.workers[v].pc);
    }
  }

  lemma OutcomesOutside(r: Rules, s: State, step: Step)
    requires step.IsOutside() && EnabledOutside(r, s, step)
    requires Control(s) && Versions(s) && KeyFlight(s) && Queued(s) && LookupOutcomes(r, s)
    ensures LookupOutcomes(r, ApplyOutside(s, step))
  {
  }

  lemma OutcomesDemand(r: Rules, s: State, step: Step)
    requires step.IsDemand() && EnabledDemand(r, s, step)
    requires Control(s) && Versions(s) && KeyFlight(s) && Queued(s) && LookupOutcomes(r, s)
    ensures LookupOutcomes(r, ApplyDemand(r, s, step))
  {
    DemandOwes(r, s, step);
    OutcomesGrow(r, s, ApplyDemand(r, s, step));
  }

  lemma OutcomesHandler(r: Rules, s: State, step: Step)
    requires step.IsHandler() && EnabledHandler(s, step)
    requires Control(s) && Versions(s) && KeyFlight(s) && Queued(s) && LookupOutcomes(r, s)
    ensures LookupOutcomes(r, ApplyHandler(s, step))
  {
    OutcomesGrow(r, s, ApplyHandler(s, step));
  }

  lemma OutcomesSearch(r: Rules, s: State, step: Step)
    requires step.IsSearch() && EnabledSearch(s, step)
    requires Control(s) && Versions(s) && KeyFlight(s) && Queued(s) && LookupOutcomes(r, s)
    ensures LookupOutcomes(r, ApplySearch(s, step))
  {
  }

  lemma OutcomesUnit(r: Rules, s: State, step: Step)
    requires step.IsUnit() && EnabledUnit(s, step)
    requires Control(s) && Versions(s) && KeyFlight(s) && Queued(s) && LookupOutcomes(r, s)
    ensures LookupOutcomes(r, ApplyUnit(s, step))
  {
  }

  lemma OutcomesMarksRow(r: Rules, s: State, step: Step)
    requires step.MarksRow? && EnabledLookup(s, step)
    requires Control(s) && Versions(s) && KeyFlight(s) && Queued(s) && LookupOutcomes(r, s)
    ensures LookupOutcomes(r, ApplyLookup(r, s, step))
  {
    assert LookupOutcome(r, s, s.workers[step.w].pc);
    OutcomesMove(r, s, ApplyLookup(r, s, step), step.w);
  }

  lemma OutcomesMarksLive(r: Rules, s: State, step: Step)
    requires step.MarksLive? && EnabledLookup(s, step)
    requires Control(s) && Versions(s) && KeyFlight(s) && Queued(s) && LookupOutcomes(r, s)
    ensures LookupOutcomes(r, ApplyLookup(r, s, step))
  {
    OutcomesMove(r, s, ApplyLookup(r, s, step), step.w);
  }

  lemma OutcomesLookup(r: Rules, s: State, step: Step)
    requires step.IsLookup() && EnabledLookup(s, step)
    requires Control(s) && Versions(s) && KeyFlight(s) && Queued(s) && LookupOutcomes(r, s)
    ensures LookupOutcomes(r, ApplyLookup(r, s, step))
  {
    if step.MarksRow? {
      OutcomesMarksRow(r, s, step);
    } else if step.MarksLive? {
      OutcomesMarksLive(r, s, step);
    }
  }

  lemma OutcomesDoc(r: Rules, s: State, step: Step)
    requires step.IsDoc() && EnabledDoc(r, s, step)
    requires Control(s) && Versions(s) && KeyFlight(s) && Queued(s) && LookupOutcomes(r, s)
    ensures LookupOutcomes(r, ApplyDoc(r, s, step))
  {
  }

  // ----- handled changes

  lemma HandledOutside(r: Rules, s: State, step: Step)
    requires step.IsOutside() && EnabledOutside(r, s, step)
    requires Control(s) && Versions(s) && Handled(s)
    ensures Handled(ApplyOutside(s, step))
  {
  }

  lemma HandledPolls(r: Rules, s: State, step: Step)
    requires (step.Boot? || step.Poll?) && EnabledDemand(r, s, step)
    requires Control(s) && Versions(s) && Handled(s)
    ensures Handled(ApplyDemand(r, s, step))
  {
  }

  lemma HandledDemand(r: Rules, s: State, step: Step)
    requires step.IsDemand() && EnabledDemand(r, s, step)
    requires Control(s) && Versions(s) && Handled(s)
    ensures Handled(ApplyDemand(r, s, step))
  {
    if step.Boot? || step.Poll? {
      HandledPolls(r, s, step);
    }
  }

  lemma HandledMark(s: State, step: Step)
    requires step.HandleOp? && EnabledHandler(s, step) && NextOp(s).Mark?
    requires Control(s) && Versions(s) && Handled(s)
    ensures Handled(ApplyHandler(s, step))
  {
  }

  lemma HandledAsk(s: State, step: Step)
    requires step.HandleOp? && EnabledHandler(s, step) && NextOp(s).Ask?
    requires Control(s) && Versions(s) && Handled(s)
    ensures Handled(ApplyHandler(s, step))
  {
  }

  lemma HandledHandler(s: State, step: Step)
    requires step.IsHandler() && EnabledHandler(s, step)
    requires Control(s) && Versions(s) && Handled(s)
    ensures Handled(ApplyHandler(s, step))
  {
    if step.HandleOp? && NextOp(s).Mark? {
      HandledMark(s, step);
    } else if step.HandleOp? && NextOp(s).Ask? {
      HandledAsk(s, step);
    }
  }

  lemma HandledSearch(s: State, step: Step)
    requires step.IsSearch() && EnabledSearch(s, step)
    requires Control(s) && Versions(s) && Handled(s)
    ensures Handled(ApplySearch(s, step))
  {
  }

  lemma HandledUnit(s: State, step: Step)
    requires step.IsUnit() && EnabledUnit(s, step)
    requires Control(s) && Versions(s) && Handled(s)
    ensures Handled(ApplyUnit(s, step))
  {
  }

  lemma HandledMarksRow(r: Rules, s: State, step: Step)
    requires step.MarksRow? && EnabledLookup(s, step)
    requires Control(s) && Versions(s) && Handled(s)
    ensures Handled(ApplyLookup(r, s, step))
  {
  }

  lemma HandledMarksLive(r: Rules, s: State, step: Step)
    requires step.MarksLive? && EnabledLookup(s, step)
    requires Control(s) && Versions(s) && Handled(s)
    ensures Handled(ApplyLookup(r, s, step))
  {
  }

  lemma HandledLookup(r: Rules, s: State, step: Step)
    requires step.IsLookup() && EnabledLookup(s, step)
    requires Control(s) && Versions(s) && Handled(s)
    ensures Handled(ApplyLookup(r, s, step))
  {
    if step.MarksRow? {
      HandledMarksRow(r, s, step);
    } else if step.MarksLive? {
      HandledMarksLive(r, s, step);
    }
  }

  lemma HandledDoc(r: Rules, s: State, step: Step)
    requires step.IsDoc() && EnabledDoc(r, s, step)
    requires Control(s) && Versions(s) && Handled(s)
    ensures Handled(ApplyDoc(r, s, step))
  {
  }

  // ----- wakeups

  lemma AwakeOutside(r: Rules, s: State, step: Step)
    requires step.IsOutside() && EnabledOutside(r, s, step)
    requires Control(s) && Awake(s)
    ensures Awake(ApplyOutside(s, step))
  {
  }

  lemma AwakeDemand(r: Rules, s: State, step: Step)
    requires step.IsDemand() && EnabledDemand(r, s, step)
    requires Control(s) && Awake(s)
    ensures Awake(ApplyDemand(r, s, step))
  {
    assert s.workers[0] == Worker(Top, false) || s.running;
  }

  lemma AwakeHandler(s: State, step: Step)
    requires step.IsHandler() && EnabledHandler(s, step)
    requires Control(s) && Awake(s)
    ensures Awake(ApplyHandler(s, step))
  {
  }

  lemma AwakeSearch(s: State, step: Step)
    requires step.IsSearch() && EnabledSearch(s, step)
    requires Control(s) && Awake(s)
    ensures Awake(ApplySearch(s, step))
  {
  }

  lemma AwakeUnit(s: State, step: Step)
    requires step.IsUnit() && EnabledUnit(s, step)
    requires Control(s) && Awake(s)
    ensures Awake(ApplyUnit(s, step))
  {
  }

  lemma AwakeLookup(r: Rules, s: State, step: Step)
    requires step.IsLookup() && EnabledLookup(s, step)
    requires Control(s) && Awake(s)
    ensures Awake(ApplyLookup(r, s, step))
  {
  }

  lemma AwakeDoc(r: Rules, s: State, step: Step)
    requires step.IsDoc() && EnabledDoc(r, s, step)
    requires Control(s) && Awake(s)
    ensures Awake(ApplyDoc(r, s, step))
  {
  }

  // ----- every step, every run

  lemma InvOutside(r: Rules, s: State, step: Step)
    requires step.IsOutside() && EnabledOutside(r, s, step) && Inv(r, s)
    ensures Inv(r, ApplyOutside(s, step))
  {
    ControlOutside(r, s, step);
    VersionsOutside(r, s, step);
    FlightOutside(r, s, step);
    KeysOutside(r, s, step);
    QueuedOutside(r, s, step);
    ForwardPublishOutside(r, s, step);
    FreshOutside(r, s, step);
    AskedOutside(r, s, step);
    CoveredOutside(r, s, step);
    OutcomesOutside(r, s, step);
    HandledOutside(r, s, step);
    AwakeOutside(r, s, step);
  }

  lemma InvDemand(r: Rules, s: State, step: Step)
    requires step.IsDemand() && EnabledDemand(r, s, step) && Inv(r, s)
    ensures Inv(r, ApplyDemand(r, s, step))
  {
    ControlDemand(r, s, step);
    VersionsDemand(r, s, step);
    FlightDemand(r, s, step);
    KeysDemand(r, s, step);
    QueuedDemand(r, s, step);
    ForwardPublishDemand(r, s, step);
    FreshDemand(r, s, step);
    AskedDemand(r, s, step);
    CoveredDemand(r, s, step);
    OutcomesDemand(r, s, step);
    HandledDemand(r, s, step);
    AwakeDemand(r, s, step);
  }

  lemma InvHandler(r: Rules, s: State, step: Step)
    requires step.IsHandler() && EnabledHandler(s, step) && Inv(r, s)
    ensures Inv(r, ApplyHandler(s, step))
  {
    ControlHandler(s, step);
    VersionsHandler(s, step);
    FlightHandler(s, step);
    KeysHandler(r, s, step);
    QueuedHandler(s, step);
    ForwardPublishHandler(s, step);
    FreshHandler(s, step);
    AskedHandler(s, step);
    CoveredHandler(r, s, step);
    OutcomesHandler(r, s, step);
    HandledHandler(s, step);
    AwakeHandler(s, step);
  }

  lemma InvSearch(r: Rules, s: State, step: Step)
    requires step.IsSearch() && EnabledSearch(s, step) && Inv(r, s)
    ensures Inv(r, ApplySearch(s, step))
  {
    ControlSearch(s, step);
    VersionsSearch(s, step);
    FlightSearch(s, step);
    KeysSearch(r, s, step);
    QueuedSearch(s, step);
    ForwardPublishSearch(s, step);
    FreshSearch(s, step);
    AskedSearch(s, step);
    CoveredSearch(r, s, step);
    OutcomesSearch(r, s, step);
    HandledSearch(s, step);
    AwakeSearch(s, step);
  }

  lemma InvUnit(r: Rules, s: State, step: Step)
    requires step.IsUnit() && EnabledUnit(s, step) && Inv(r, s)
    ensures Inv(r, ApplyUnit(s, step))
  {
    ControlUnit(s, step);
    VersionsUnit(s, step);
    FlightUnit(s, step);
    KeysUnit(r, s, step);
    QueuedUnit(s, step);
    ForwardPublishUnit(s, step);
    FreshUnit(s, step);
    AskedUnit(s, step);
    CoveredUnit(r, s, step);
    OutcomesUnit(r, s, step);
    HandledUnit(s, step);
    AwakeUnit(s, step);
  }

  lemma InvLookup(r: Rules, s: State, step: Step)
    requires step.IsLookup() && EnabledLookup(s, step) && Inv(r, s)
    ensures Inv(r, ApplyLookup(r, s, step))
  {
    ControlLookup(r, s, step);
    VersionsLookup(r, s, step);
    FlightLookup(r, s, step);
    KeysLookup(r, s, step);
    QueuedLookup(r, s, step);
    ForwardPublishLookup(r, s, step);
    FreshLookup(r, s, step);
    AskedLookup(r, s, step);
    CoveredLookup(r, s, step);
    OutcomesLookup(r, s, step);
    HandledLookup(r, s, step);
    AwakeLookup(r, s, step);
  }

  lemma InvDoc(r: Rules, s: State, step: Step)
    requires step.IsDoc() && EnabledDoc(r, s, step) && Inv(r, s)
    ensures Inv(r, ApplyDoc(r, s, step))
  {
    ControlDoc(r, s, step);
    VersionsDoc(r, s, step);
    FlightDoc(r, s, step);
    KeysDoc(r, s, step);
    QueuedDoc(r, s, step);
    ForwardPublishDoc(r, s, step);
    FreshDoc(r, s, step);
    AskedDoc(r, s, step);
    CoveredDoc(r, s, step);
    OutcomesDoc(r, s, step);
    HandledDoc(r, s, step);
    AwakeDoc(r, s, step);
  }

  lemma InvOutsideStep(r: Rules, s: State, step: Step)
    requires step.IsOutside() && Enabled(r, s, step) && Inv(r, s)
    ensures Inv(r, Apply(r, s, step))
  {
    IsOutsideStep(r, s, step);
    InvOutside(r, s, step);
  }

  lemma InvDemandStep(r: Rules, s: State, step: Step)
    requires step.IsDemand() && Enabled(r, s, step) && Inv(r, s)
    ensures Inv(r, Apply(r, s, step))
  {
    IsDemandStep(r, s, step);
    InvDemand(r, s, step);
  }

  lemma InvHandlerStep(r: Rules, s: State, step: Step)
    requires step.IsHandler() && Enabled(r, s, step) && Inv(r, s)
    ensures Inv(r, Apply(r, s, step))
  {
    IsHandlerStep(r, s, step);
    InvHandler(r, s, step);
  }

  lemma InvSearchStep(r: Rules, s: State, step: Step)
    requires step.IsSearch() && Enabled(r, s, step) && Inv(r, s)
    ensures Inv(r, Apply(r, s, step))
  {
    IsSearchStep(r, s, step);
    InvSearch(r, s, step);
  }

  lemma InvUnitStep(r: Rules, s: State, step: Step)
    requires step.IsUnit() && Enabled(r, s, step) && Inv(r, s)
    ensures Inv(r, Apply(r, s, step))
  {
    IsUnitStep(r, s, step);
    InvUnit(r, s, step);
  }

  lemma InvLookupStep(r: Rules, s: State, step: Step)
    requires step.IsLookup() && Enabled(r, s, step) && Inv(r, s)
    ensures Inv(r, Apply(r, s, step))
  {
    IsLookupStep(r, s, step);
    InvLookup(r, s, step);
  }

  lemma InvDocStep(r: Rules, s: State, step: Step)
    requires step.IsDoc() && Enabled(r, s, step) && Inv(r, s)
    ensures Inv(r, Apply(r, s, step))
  {
    IsDocStep(r, s, step);
    InvDoc(r, s, step);
  }

  /** Every enabled step keeps every invariant. */
  lemma InvStep(r: Rules, s: State, step: Step)
    requires Enabled(r, s, step) && Inv(r, s)
    ensures Inv(r, Apply(r, s, step))
  {
    if step.IsOutside() { InvOutsideStep(r, s, step); }
    else if step.IsDemand() { InvDemandStep(r, s, step); }
    else if step.IsHandler() { InvHandlerStep(r, s, step); }
    else if step.IsSearch() { InvSearchStep(r, s, step); }
    else if step.IsUnit() { InvUnitStep(r, s, step); }
    else if step.IsLookup() { InvLookupStep(r, s, step); }
    else { InvDocStep(r, s, step); }
  }

  lemma {:induction false} InvRun(r: Rules, s: State, steps: seq<Step>)
    requires Inv(r, s) && IsRun(r, s, steps)
    ensures Inv(r, After(r, s, steps))
  {
    if steps == [] {
    } else {
      var n := |steps| - 1;
      InvRun(r, s, steps[..n]);
      InvStep(r, After(r, s, steps[..n]), steps[n]);
    }
  }

  lemma InvInit(r: Rules, now: Time)
    ensures Inv(r, Init(now))
  {
  }

  /** Every reachable state satisfies every invariant. */
  lemma InvReachable(r: Rules, s: State)
    requires Reachable(r, s)
    ensures Inv(r, s)
  {
    var now, steps :| RunsTo(r, Init(now), steps, s);
    InvInit(r, now);
    InvRun(r, Init(now), steps);
  }
}
