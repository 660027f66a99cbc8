/** A whole worker pass, uninterrupted, is a run of the protocol and ends in the state the pass leaves. */
module WorkerRuns {
  import opened Wrappers
  import opened Values
  import opened ChannelCodec
  import opened EventMapping
  import opened EngineCore
  import opened Units
  import opened Protocol
  import opened Guarantees
  import opened System

  ghost predicate StepsTo(r: Rules, s: State, step: Step, t: State) { Enabled(r, s, step) && t == Apply(r, s, step) }

  lemma TwoSteps(r: Rules, s: State, first: Step, u: State, second: Step, t: State)
    requires StepsTo(r, s, first, u) && StepsTo(r, u, second, t)
    ensures RunsTo(r, s, [first, second], t)
  {
    OneStep(r, s, first);
    RunsToOneMore(r, s, [first], u, second);
    assert [first] + [second] == [first, second];
  }

  lemma StepThenRun(r: Rules, s: State, step: Step, u: State, run: seq<Step>, t: State)
    requires StepsTo(r, s, step, u) && RunsTo(r, u, run, t)
    ensures RunsTo(r, s, [step] + run, t)
  {
    OneStep(r, s, step);
    RunsCompose(r, s, [step], u, run, t);
  }

  lemma SignalsOnce(r: Rules, s: State, w: nat) returns (t: State)
    requires s.running && w < |s.workers| && s.workers[w].signalling
    ensures StepsTo(r, s, Signalling(w), t) && t == Go(s, w, s.At(w), false).(engine := Signal(s.engine))
  {
    t := Apply(r, s, Signalling(w));
  }

  /** A worker that owes a signal sends it. */
  lemma SendsSignal(r: Rules, s: State, w: nat) returns (steps: seq<Step>, t: State)
    requires s.running && w < |s.workers|
    ensures RunsTo(r, s, steps, t)
    ensures t == Go(s, w, s.At(w), false).(engine := SignalIf(s.engine, s.workers[w].signalling))
  {
    if s.workers[w].signalling {
      t := SignalsOnce(r, s, w);
      OneStep(r, s, Signalling(w));
      steps := [Signalling(w)];
    } else {
      RunsToNothing(r, s);
      steps, t := [], s;
    }
  }

  ghost predicate BackAtTop(s: State, w: nat) { Ready(s, w) && s.At(w).Top? }

  /** A step and the signal it asks for. */
  lemma ThenSignals(r: Rules, s: State, w: nat, step: Step, u: State) returns (steps: seq<Step>, t: State)
    requires StepsTo(r, s, step, u) && u.running && w < |u.workers|
    ensures RunsTo(r, s, steps, t)
    ensures t == Go(u, w, u.At(w), false).(engine := SignalIf(u.engine, u.workers[w].signalling))
  {
    var more;
    more, t := SendsSignal(r, u, w);
    StepThenRun(r, s, step, u, more, t);
    steps := [step] + more;
  }

  lemma EndsLookup(r: Rules, s: State, w: nat) returns (steps: seq<Step>, t: State)
    requires Ready(s, w) && s.At(w).LookupFinish?
    ensures RunsTo(r, s, steps, t) && BackAtTop(t, w) && t.engine == Settle(FinishLookup(s.engine, s.At(w).key))
  {
    steps, t := ThenSignals(r, s, w, FinishesLookup(w), Apply(r, s, FinishesLookup(w)));
  }

  lemma EndsDoc(r: Rules, s: State, w: nat) returns (steps: seq<Step>, t: State)
    requires Ready(s, w) && s.At(w).DocFinish?
    ensures RunsTo(r, s, steps, t) && BackAtTop(t, w) && t.engine == Settle(FinishDoc(s.engine, s.At(w).channel))
  {
    steps, t := ThenSignals(r, s, w, FinishesDoc(w), Apply(r, s, FinishesDoc(w)));
  }

  // ----- lookups

  /** The grammar rules are the ones the engine uses. */
  ghost predicate Selects(r: Rules) { forall name, c :: r.inQuery(name, c) == InQuery(name, c) }

  /** The answer is a failure, or what the executor makes of the rows the database holds now. */
  ghost predicate Answers(s: State, key: LookupKey, lookup: Lookup, answer: KeysAnswer) {
    answer.KeysError? || exists rows :: IsAnswer(s, key, lookup, answer, rows)
  }

  ghost predicate IsAnswer(s: State, key: LookupKey, lookup: Lookup, answer: KeysAnswer, rows: seq<seq<Value>>) {
    && answer == Capped(lookup.watch, rows)
    && IndexAt(s.history, s.Version(), key) == Index(|rows|, RowChannels(lookup.query, rows))
  }

  ghost predicate LookupDone(s: State, w: nat, key: LookupKey)
    requires w < |s.workers|
  {
    s.At(w).LookupFinish? && s.At(w).key == key
  }

  lemma ExceedsCap(r: Rules, s: State, w: nat) returns (t: State)
    requires Ready(s, w) && s.At(w).LookupRead? && !Within(IndexNow(s, w), s.At(w).lookup)
    ensures StepsTo(r, s, KeysOverCap(w), t)
    ensures t == Go(s, w, LookupOverCap(s.At(w).key, Read(s.Version(), s.At(w).lookup)), false)
  {
    t := Apply(r, s, KeysOverCap(w));
  }

  lemma MarksAllLive(r: Rules, s: State, w: nat) returns (t: State)
    requires Ready(s, w) && s.At(w).LookupOverCap? && Selects(r)
    ensures StepsTo(r, s, MarksLive(w), t) && t.running && w < |t.workers| && LookupDone(t, w, s.At(w).key)
    ensures
      var docs := LiveDocs(s.engine, InQuery, s.At(w).key.query);
      t.engine == MarkAll(s.engine, docs) && t.workers[w].signalling == (docs != {})
  {
    assert LiveDocs(s.engine, r.inQuery, s.At(w).key.query) == LiveDocs(s.engine, InQuery, s.At(w).key.query);
    t := Apply(r, s, MarksLive(w));
  }

  lemma FallsBack(r: Rules, s: State, w: nat) returns (steps: seq<Step>, t: State)
    requires Ready(s, w) && s.At(w).LookupRead? && Selects(r) && !Within(IndexNow(s, w), s.At(w).lookup)
    ensures RunsTo(r, s, steps, t) && Ready(t, w) && LookupDone(t, w, s.At(w).key)
    ensures
      var docs := LiveDocs(s.engine, InQuery, s.At(w).key.query);
      t.engine == SignalIf(MarkAll(s.engine, docs), docs != {})
  {
    var u := ExceedsCap(r, s, w);
    var v := MarksAllLive(r, u, w);
    steps, t := ThenSignals(r, u, w, MarksLive(w), v);
    StepThenRun(r, s, KeysOverCap(w), u, steps, t);
    steps := [KeysOverCap(w)] + steps;
  }

  lemma FailsKeys(r: Rules, s: State, w: nat) returns (t: State)
    requires Ready(s, w) && s.At(w).LookupRead?
    ensures StepsTo(r, s, KeysFailed(w), t) && t == Go(s, w, LookupBackoff(s.At(w).key, s.At(w).lookup), false)
  {
    t := Apply(r, s, KeysFailed(w));
  }

  lemma EnqueuesAgain(r: Rules, s: State, w: nat) returns (t: State)
    requires Ready(s, w) && s.At(w).LookupBackoff?
    ensures StepsTo(r, s, RequeuesLookup(w), t) && t.running && w < |t.workers| && LookupDone(t, w, s.At(w).key)
    ensures t.engine == Enqueue(s.engine, s.At(w).key, s.At(w).lookup) && t.workers[w].signalling
  {
    t := Apply(r, s, RequeuesLookup(w));
  }

  lemma Requeues(r: Rules, s: State, w: nat) returns (steps: seq<Step>, t: State)
    requires Ready(s, w) && s.At(w).LookupRead?
    ensures RunsTo(r, s, steps, t) && Ready(t, w) && LookupDone(t, w, s.At(w).key)
    ensures t.engine == Signal(Enqueue(s.engine, s.At(w).key, s.At(w).lookup))
  {
    var u := FailsKeys(r, s, w);
    var v := EnqueuesAgain(r, u, w);
    steps, t := ThenSignals(r, u, w, RequeuesLookup(w), v);
    StepThenRun(r, s, KeysFailed(w), u, steps, t);
    steps := [KeysFailed(w)] + steps;
  }

  lemma MarksRows(r: Rules, s: State, w: nat, lookup: Lookup, rows: seq<seq<Value>>)
    returns (steps: seq<Step>, t: State)
    requires Ready(s, w) && s.At(w).LookupRead?
    requires lookup == s.At(w).lookup && IndexNow(s, w) == Index(|rows|, RowChannels(lookup.query, rows))
    requires Within(IndexNow(s, w), lookup)
    ensures RunsTo(r, s, steps, t) && Ready(t, w) && LookupDone(t, w, s.At(w).key)
    ensures t.engine == ApplyOps(s.engine, Marks(RowChannels(lookup.query, rows)))
  {
    var u := Apply(r, s, KeysRead(w));
    steps, t := RunLookupIsARun(r, u, w);
    StepThenRun(r, s, KeysRead(w), u, steps, t);
    steps := [KeysRead(w)] + steps;
  }

  lemma RunsLookup(r: Rules, s: State, w: nat, answer: KeysAnswer) returns (steps: seq<Step>, t: State)
    requires Ready(s, w) && s.At(w).LookupRead? && Selects(r)
    requires Answers(s, s.At(w).key, s.At(w).lookup, answer) && s.At(w).lookup.query.name == s.At(w).key.query
    ensures RunsTo(r, s, steps, t) && Ready(t, w) && LookupDone(t, w, s.At(w).key)
    ensures t.engine == AfterKeys(s.engine, s.At(w).key, s.At(w).lookup, answer)
  {
    match answer {
      case TooManyKeys => steps, t := FallsBack(r, s, w);
      case KeysError => steps, t := Requeues(r, s, w);
      case Rows(rows) => steps, t := MarksRows(r, s, w, s.At(w).lookup, rows);
    }
  }

  lemma LookupUnitIsARun(r: Rules, s: State, w: nat, key: LookupKey, answer: KeysAnswer)
    returns (steps: seq<Step>, t: State)
    requires BackAtTop(s, w) && Selects(r) && TakeableLookup(s.engine, key)
    requires Answers(s, key, s.engine.lookups[key], answer) && s.engine.lookups[key].query.name == key.query
    ensures RunsTo(r, s, steps, t) && BackAtTop(t, w) && t.engine == AfterLookupUnit(s.engine, key, answer)
  {
    var take := TakesLookup(w, key);
    var taken := Apply(r, s, take);
    if !answer.KeysError? {
      var rows :| IsAnswer(s, key, s.engine.lookups[key], answer, rows);
      assert IsAnswer(taken, key, s.engine.lookups[key], answer, rows);
    }
    var run, ran := RunsLookup(r, taken, w, answer);
    StepThenRun(r, s, take, taken, run, ran);
    var end;
    end, t := EndsLookup(r, ran, w);
    RunsCompose(r, s, [take] + run, ran, end, t);
    steps := [take] + run + end;
  }

  // ----- docs

  ghost predicate DocDone(s: State, w: nat, channel: Channel)
    requires w < |s.workers|
  {
    s.At(w) == DocFinish(channel)
  }

  lemma MarksAgain(r: Rules, s: State, w: nat) returns (t: State)
    requires Ready(s, w) && s.At(w).DocBackoff?
    ensures StepsTo(r, s, RequeuesDoc(w), t) && t.running && w < |t.workers| && DocDone(t, w, s.At(w).channel)
    ensures t.engine == MarkDirty(s.engine, s.At(w).channel) && t.workers[w].signalling
  {
    t := Apply(r, s, RequeuesDoc(w));
  }

  lemma RetriesDoc(r: Rules, s: State, w: nat, failed: seq<Step>, u: State) returns (steps: seq<Step>, t: State)
    requires RunsTo(r, s, failed, u) && Ready(u, w) && u.At(w).DocBackoff?
    ensures RunsTo(r, s, steps, t) && Ready(t, w) && DocDone(t, w, u.At(w).channel)
    ensures t.engine == Signal(MarkDirty(u.engine, u.At(w).channel))
  {
    var v := MarksAgain(r, u, w);
    var retry;
    retry, t := ThenSignals(r, u, w, RequeuesDoc(w), v);
    RunsCompose(r, s, failed, u, retry, t);
    steps := failed + retry;
  }

  lemma ReadsDoc(r: Rules, s: State, w: nat) returns (t: State)
    requires Ready(s, w) && s.At(w).DocRead? && r.parses(s.At(w).channel)
    ensures StepsTo(r, s, DocWasRead(w), t) && t == Go(s, w, DocPublish(s.At(w).channel, s.Version()), false)
  {
    t := Apply(r, s, DocWasRead(w));
  }

  lemma FailsDoc(r: Rules, s: State, w: nat) returns (t: State)
    requires Ready(s, w) && s.At(w).DocRead? && r.parses(s.At(w).channel)
    ensures StepsTo(r, s, DocFailed(w), t) && t == Go(s, w, DocBackoff(s.At(w).channel), false)
  {
    t := Apply(r, s, DocFailed(w));
  }

  lemma PublishesRead(r: Rules, s: State, w: nat) returns (t: State)
    requires Ready(s, w) && s.At(w).DocPublish?
    ensures StepsTo(r, s, Publishes(w), t)
    ensures
      t == Go(s, w, DocFinish(s.At(w).channel), false).(published := s.published[s.At(w).channel := s.At(w).version])
  {
    t := Apply(r, s, Publishes(w));
  }

  lemma LosesPublish(r: Rules, s: State, w: nat) returns (t: State)
    requires Ready(s, w) && s.At(w).DocPublish?
    ensures StepsTo(r, s, PublishFailed(w, false), t) && t == Go(s, w, DocBackoff(s.At(w).channel), false)
  {
    t := Apply(r, s, PublishFailed(w, false));
  }

  lemma Publishing(r: Rules, s: State, w: nat) returns (steps: seq<Step>, t: State)
    requires Ready(s, w) && s.At(w).DocRead? && r.parses(s.At(w).channel)
    ensures RunsTo(r, s, steps, t) && Ready(t, w) && DocDone(t, w, s.At(w).channel) && t.engine == s.engine
    ensures t.published == s.published[s.At(w).channel := s.Version()]
  {
    var u := ReadsDoc(r, s, w);
    t := PublishesRead(r, u, w);
    TwoSteps(r, s, DocWasRead(w), u, Publishes(w), t);
    steps := [DocWasRead(w), Publishes(w)];
  }

  lemma FailingPublish(r: Rules, s: State, w: nat) returns (steps: seq<Step>, t: State)
    requires Ready(s, w) && s.At(w).DocRead? && r.parses(s.At(w).channel)
    ensures RunsTo(r, s, steps, t) && Ready(t, w) && t.At(w) == DocBackoff(s.At(w).channel) && t.engine == s.engine
  {
    var u := ReadsDoc(r, s, w);
    t := LosesPublish(r, u, w);
    TwoSteps(r, s, DocWasRead(w), u, PublishFailed(w, false), t);
    steps := [DocWasRead(w), PublishFailed(w, false)];
  }

  lemma Refreshes(r: Rules, s: State, w: nat, answer: DocAnswer) returns (steps: seq<Step>, t: State)
    requires Ready(s, w) && s.At(w).DocRead? && r.parses(s.At(w).channel)
    ensures RunsTo(r, s, steps, t) && Ready(t, w) && DocDone(t, w, s.At(w).channel)
    ensures t.engine == AfterDoc(s.engine, s.At(w).channel, answer)
    ensures answer.PublishOk? ==> t.published == s.published[s.At(w).channel := s.Version()]
  {
    match answer {
      case PublishOk =>
        steps, t := Publishing(r, s, w);
      case DocError =>
        t := FailsDoc(r, s, w);
        OneStep(r, s, DocFailed(w));
        steps, t := RetriesDoc(r, s, w, [DocFailed(w)], t);
      case PublishError =>
        steps, t := FailingPublish(r, s, w);
        steps, t := RetriesDoc(r, s, w, steps, t);
    }
  }

  lemma FindsLookupsDone(r: Rules, s: State, w: nat) returns (t: State)
    requires BackAtTop(s, w) && NoLookup(s.engine)
    ensures StepsTo(r, s, FindsNoLookup(w), t) && t == Go(s, w, TryDirty, false)
  {
    t := Apply(r, s, FindsNoLookup(w));
  }

  lemma TakesUp(r: Rules, s: State, w: nat, c: Channel, cold: set<Channel>) returns (t: State)
    requires Ready(s, w) && s.At(w).TryDirty? && ColdTakeable(s.engine, cold)
    requires TakeableDoc(s.engine, c) && c in s.engine.live
    ensures StepsTo(r, s, TakesDoc(w, cold, c), t)
    ensures t == Go(s, w, DocRead(c), false).(engine := TakeDoc(DropCold(s.engine, cold), c))
  {
    t := Apply(r, s, TakesDoc(w, cold, c));
  }

  lemma BeginsDoc(r: Rules, s: State, w: nat, c: Channel, cold: set<Channel>) returns (steps: seq<Step>, t: State)
    requires BackAtTop(s, w) && Picks(s.engine, DocUnit(c, cold))
    ensures RunsTo(r, s, steps, t) && Ready(t, w) && t.At(w) == DocRead(c)
    ensures t.engine == TakeDoc(DropCold(s.engine, cold), c)
  {
    var u := FindsLookupsDone(r, s, w);
    t := TakesUp(r, u, w, c, cold);
    TwoSteps(r, s, FindsNoLookup(w), u, TakesDoc(w, cold, c), t);
    steps := [FindsNoLookup(w), TakesDoc(w, cold, c)];
  }

  lemma DocUnitIsARun(r: Rules, s: State, w: nat, c: Channel, cold: set<Channel>, answer: DocAnswer)
    returns (steps: seq<Step>, t: State)
    requires BackAtTop(s, w) && Picks(s.engine, DocUnit(c, cold)) && r.parses(c)
    ensures RunsTo(r, s, steps, t) && BackAtTop(t, w) && t.engine == AfterDocUnit(s.engine, r.parses, c, cold, answer)
  {
    var take, taken := BeginsDoc(r, s, w, c, cold);
    var run, ran := Refreshes(r, taken, w, answer);
    RunsCompose(r, s, take, taken, run, ran);
    var end;
    end, t := EndsDoc(r, ran, w);
    RunsCompose(r, s, take + run, ran, end, t);
    steps := take + run + end;
  }

  lemma FindsNothing(r: Rules, s: State, w: nat) returns (steps: seq<Step>, t: State)
    requires BackAtTop(s, w) && Picks(s.engine, Nothing)
    ensures RunsTo(r, s, steps, t) && Ready(t, w) && t.At(w).Asleep?
    ensures t.engine == DropCold(s.engine, s.engine.dirty - s.engine.inflight)
  {
    var u := FindsLookupsDone(r, s, w);
    t := Apply(r, u, FindsNoDoc(w));
    TwoSteps(r, s, FindsNoLookup(w), u, FindsNoDoc(w), t);
    steps := [FindsNoLookup(w), FindsNoDoc(w)];
  }

  // ----- the pass

  /**
   * Whatever a pass picks, its uninterrupted execution is a run of the protocol that leaves the engine exactly as
   * WorkerPass ensures: the worker is back at the top of its loop, or asleep if it found nothing.
   */
  lemma WorkerPassIsARun(
    r: Rules, s: State, w: nat, unit: Unit, keys: LookupKey -> KeysAnswer, docs: Channel -> DocAnswer)
    returns (steps: seq<Step>, t: State)
    requires BackAtTop(s, w) && Selects(r) && Picks(s.engine, unit)
    requires Reachable(r, s)
    requires unit.LookupUnit? ==> Answers(s, unit.key, s.engine.lookups[unit.key], keys(unit.key))
    ensures RunsTo(r, s, steps, t) && Ready(t, w)
    ensures if unit.Nothing? then t.At(w).Asleep? else t.At(w).Top?
    ensures t.engine == AfterUnit(s.engine, r.parses, unit, keys, docs)
  {
    match unit {
      case LookupUnit(key) =>
        QueuedLookupsFit(r, s, key);
        steps, t := LookupUnitIsARun(r, s, w, key, keys(key));
      case DocUnit(channel, cold) =>
        EveryHeldChannelParses(r, s, w);
        steps, t := DocUnitIsARun(r, s, w, channel, cold, docs(channel));
      case Nothing => steps, t := FindsNothing(r, s, w);
    }
  }
}
