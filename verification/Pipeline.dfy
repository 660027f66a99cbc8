/**
 * From the replication connection to the refetch protocol: what the server sends, decoded, handled and acknowledged,
 * is a run of the protocol, and the protocol's acknowledgements are those of the connection.
 */
module Pipeline {
  import opened Wrappers
  import opened Spec
  import opened Values
  import opened Definitions
  import opened EventMapping
  import opened EngineCore
  import opened Protocol
  import opened System
  import opened Stream = ReplicationStream
  import Decoder

  /** The event the engine is given: FullTableName and the rows. */
  function ToEvent(decoded: Decoder.Event): Event {
    Event(decoded.schema + "." + decoded.table, decoded.oldData, decoded.newData)
  }

  // ----- decoded messages carry the events the server sent

  /** The messages are what the decoder makes of `sent`, each under the relations described before it. */
  ghost predicate Decodes(sent: seq<Decoder.Wire>, messages: seq<Message<Decoder.Event>>)
    requires Decoder.Consistent(sent)
  {
    && |messages| == |sent|
    && forall k | 0 <= k < |sent| ::
         messages[k].decoded == Some(Decoder.EventsOf(Decoder.Described(sent[..k]), sent[k].body))
  }

  lemma ConsistentPrefix(sent: seq<Decoder.Wire>, n: nat)
    requires n <= |sent| && Decoder.Consistent(sent)
    ensures Decoder.Consistent(sent[..n])
  {
    forall i | 0 <= i < n ensures sent[..n][..i] == sent[..i] {}
  }

  lemma DecodesPrefix(sent: seq<Decoder.Wire>, messages: seq<Message<Decoder.Event>>, n: nat)
    requires |sent| == n + 1 && Decoder.Consistent(sent) && Decoder.Consistent(sent[..n]) && Decodes(sent, messages)
    ensures Decodes(sent[..n], messages[..n])
  {
    forall i | 0 <= i < n ensures sent[..n][..i] == sent[..i] {}
  }

  lemma {:induction false} EventsOfPrefix(sent: seq<Decoder.Wire>, n: nat, k: nat)
    requires k <= n <= |sent| && Decoder.Consistent(sent) && Decoder.Consistent(sent[..n])
    ensures Decoder.EventsSent(sent, k) == Decoder.EventsSent(sent[..n], k)
  {
    if k == 0 {
    } else {
      EventsOfPrefix(sent, n, k - 1);
      assert sent[..n][..k - 1] == sent[..k - 1];
    }
  }

  lemma EventsOfLast(sent: seq<Decoder.Wire>, n: nat)
    requires |sent| == n + 1 && Decoder.Consistent(sent) && Decoder.Consistent(sent[..n])
    ensures
      Decoder.EventsSent(sent, n + 1) ==
      Decoder.EventsSent(sent[..n], n) + Decoder.EventsOf(Decoder.Described(sent[..n]), sent[n].body)
  {
    EventsOfPrefix(sent, n, n);
  }

  /** The events received on the connection are exactly those the server sent. */
  lemma {:induction false} EventsAreSent(sent: seq<Decoder.Wire>, log: seq<Entry<Decoder.Event>>)
    requires Decoder.Consistent(sent) && Decodes(sent, ReceivedIn(log))
    ensures EventsIn(log) == Decoder.EventsSent(sent, |sent|)
  {
    if log == [] {
    } else {
      var n := |log| - 1;
      if log[n].Receipt? {
        assert ReceivedIn(log) == ReceivedIn(log[..n]) + [log[n].message];
        ConsistentPrefix(sent, |sent| - 1);
        DecodesPrefix(sent, ReceivedIn(log), |sent| - 1);
        EventsOfLast(sent, |sent| - 1);
        assert ReceivedIn(log)[..|sent| - 1] == ReceivedIn(log[..n]);
        EventsAreSent(sent[..|sent| - 1], log[..n]);
      } else {
        assert ReceivedIn(log) == ReceivedIn(log[..n]);
        EventsAreSent(sent, log[..n]);
      }
    }
  }

  // ----- the transactions the server sends

  /** A committed transaction and its row changes. */
  datatype Transaction = Transaction(commit: Lsn, events: seq<Decoder.Event>)

  ghost predicate Ordered(txns: seq<Transaction>) {
    forall k, m | 0 <= k < m < |txns| :: txns[k].commit < txns[m].commit
  }

  /** The transactions that commit before a position; a server resuming there sends those after them. */
  function Before(txns: seq<Transaction>, p: Lsn): (n: nat)
    ensures n <= |txns|
  {
    if txns == [] then 0
    else if txns[|txns| - 1].commit < p then |txns|
    else Before(txns[..|txns| - 1], p)
  }

  lemma {:induction false} BeforeSplits(txns: seq<Transaction>, p: Lsn, k: nat)
    requires Ordered(txns) && k < |txns|
    ensures k < Before(txns, p) <==> txns[k].commit < p
  {
    var n := |txns| - 1;
    if k < n {
      BeforeSplits(txns[..n], p, k);
    }
  }

  lemma BeforeGrows(txns: seq<Transaction>, p: Lsn, q: Lsn)
    requires Ordered(txns) && p <= q
    ensures Before(txns, p) <= Before(txns, q)
  {
    var n := Before(txns, p);
    if n > 0 {
      BeforeSplits(txns, p, n - 1);
      BeforeSplits(txns, q, n - 1);
    }
  }

  /** All row changes, in commit order. */
  function AllEvents(txns: seq<Transaction>): seq<Decoder.Event> {
    if txns == [] then [] else AllEvents(txns[..|txns| - 1]) + txns[|txns| - 1].events
  }

  /** How many of them the first `k` transactions hold. */
  function Count(txns: seq<Transaction>, k: nat): nat
    requires k <= |txns|
  {
    |AllEvents(txns[..k])|
  }

  lemma CountNext(txns: seq<Transaction>, k: nat)
    requires k < |txns|
    ensures Count(txns, k + 1) == Count(txns, k) + |txns[k].events|
  {
    assert txns[..k + 1][..k] == txns[..k];
  }

  lemma {:induction false} CountGrows(txns: seq<Transaction>, k: nat, m: nat)
    requires k <= m <= |txns|
    ensures Count(txns, k) <= Count(txns, m) <= |AllEvents(txns)|
    decreases |txns| - k
  {
    if k < m {
      CountNext(txns, k);
      CountGrows(txns, k + 1, m);
    } else if m < |txns| {
      CountNext(txns, m);
      CountGrows(txns, m + 1, m + 1);
    } else {
      assert txns[..m] == txns;
    }
  }

  /** Row change `x` is one of transaction `k`. */
  lemma {:induction false} EventAt(txns: seq<Transaction>, x: nat) returns (k: nat, j: nat)
    requires x < |AllEvents(txns)|
    ensures k < |txns| && j < |txns[k].events| && Count(txns, k) + j == x < Count(txns, k + 1)
    ensures AllEvents(txns)[x] == txns[k].events[j]
  {
    var n := |txns| - 1;
    assert txns[..n + 1] == txns;
    if x < |AllEvents(txns[..n])| {
      k, j := EventAt(txns[..n], x);
      assert txns[..n][..k] == txns[..k] && txns[..n][..k + 1] == txns[..k + 1];
    } else {
      k, j := n, x - Count(txns, n);
    }
  }

  /** Everything committed from position `start` on, in commit order. */
  function EventsFrom(txns: seq<Transaction>, start: Lsn): seq<Decoder.Event> {
    CountGrows(txns, Before(txns, start), |txns|);
    AllEvents(txns)[Count(txns, Before(txns, start))..]
  }

  lemma EventFrom(txns: seq<Transaction>, start: Lsn, n: nat)
    requires n < |EventsFrom(txns, start)|
    ensures Count(txns, Before(txns, start)) + n < |AllEvents(txns)|
    ensures EventsFrom(txns, start)[n] == AllEvents(txns)[Count(txns, Before(txns, start)) + n]
  {
    CountGrows(txns, Before(txns, start), |txns|);
  }

  /**
   * What the server sends on a connection from `start`: the row changes of the transactions that commit from there on,
   * in commit order, under messages whose positions do not pass the commit of a transaction still to be sent.
   */
  ghost predicate Sends(txns: seq<Transaction>, start: Lsn, log: seq<Entry<Decoder.Event>>) {
    && EventsIn(log) <= EventsFrom(txns, start)
    && forall i: nat, k: nat |
         i < |log| && log[i].Receipt? && k < |txns| && StillToCome(txns, start, log[..i + 1], k) ::
         log[i].message.lsn <= txns[k].commit
  }

  /** Transaction `k` is to be sent from `start` on and has not been received whole. */
  ghost predicate StillToCome(txns: seq<Transaction>, start: Lsn, log: seq<Entry<Decoder.Event>>, k: nat) {
    k < |txns| && Before(txns, start) <= k && Count(txns, Before(txns, start)) + |EventsIn(log)| < Count(txns, k + 1)
  }

  lemma EventsInGrows(log: seq<Entry<Decoder.Event>>, n: nat)
    requires |log| == n + 1
    ensures EventsIn(log[..n]) <= EventsIn(log) && AcceptedIn(log[..n]) <= AcceptedIn(log)
  {
  }

  lemma ShorterSends(txns: seq<Transaction>, start: Lsn, log: seq<Entry<Decoder.Event>>, n: nat)
    requires |log| == n + 1 && Sends(txns, start, log)
    ensures Sends(txns, start, log[..n])
  {
    EventsInGrows(log, n);
    forall i: nat, k: nat |
      i < n && log[..n][i].Receipt? && k < |txns| && StillToCome(txns, start, log[..n][..i + 1], k)
      ensures log[..n][i].message.lsn <= txns[k].commit
    {
      assert log[..n][..i + 1] == log[..i + 1];
    }
  }

  lemma ShorterSafe(start: Lsn, log: seq<Entry<Decoder.Event>>, n: nat)
    requires |log| == n + 1 && AckSafe(start, log)
    ensures AckSafe(start, log[..n])
  {
    forall i | 0 <= i < n ensures log[..n][..i] == log[..i] {}
  }

  /** The position reached does not pass a transaction still to come. */
  lemma {:induction false} PositionPassesNone(
    txns: seq<Transaction>, start: Lsn, log: seq<Entry<Decoder.Event>>, k: nat)
    requires Ordered(txns) && Sends(txns, start, log) && StillToCome(txns, start, log, k)
    ensures Position(start, log) <= txns[k].commit
  {
    if log == [] {
      BeforeSplits(txns, start, k);
    } else {
      var n := |log| - 1;
      ShorterSends(txns, start, log, n);
      EventsInGrows(log, n);
      assert log[..n + 1] == log;
      PositionPassesNone(txns, start, log[..n], k);
    }
  }

  /** At an acknowledgement every transaction that commits before its position has been accepted whole. */
  lemma AckedWasAccepted(txns: seq<Transaction>, start: Lsn, log: seq<Entry<Decoder.Event>>)
    requires Ordered(txns) && Sends(txns, start, log) && AckSafe(start, log) && CaughtUp(log)
    ensures
      Count(txns, Before(txns, Position(start, log)))
      <= Count(txns, Before(txns, start)) + |AcceptedIn(log)|
  {
    var n := Before(txns, Position(start, log));
    if n > Before(txns, start) {
      BeforeSplits(txns, Position(start, log), n - 1);
      if StillToCome(txns, start, log, n - 1) {
        PositionPassesNone(txns, start, log, n - 1);
      }
    } else {
      CountGrows(txns, n, Before(txns, start));
    }
  }

  // ----- the handler of the protocol

  function ToEvents(events: seq<Decoder.Event>): (mapped: seq<Event>)
    ensures |mapped| == |events|
  {
    seq(|events|, i requires 0 <= i < |events| => ToEvent(events[i]))
  }

  /** The committed changes are the transactions. */
  ghost predicate Committed(config: Config, history: seq<Change>, txns: seq<Transaction>)
    requires WellFormed(config)
  {
    && |history| == |txns|
    && forall k | 0 <= k < |txns| :: history[k].ops == CommitOps(config, ToEvents(txns[k].events))
  }

  /** The protocol's handler has handled exactly the first `x` row changes. */
  ghost predicate HasHandled(config: Config, txns: seq<Transaction>, t: State, x: nat)
    requires WellFormed(config)
  {
    && t.running && Committed(config, t.history, txns) && t.position <= |txns|
    && match t.handling
       case None => x == Count(txns, t.position)
       case Some(rest) =>
         && t.position < |txns|
         && exists j: nat ::
              && j <= |txns[t.position].events| && x == Count(txns, t.position) + j
              && rest == CommitOps(config, ToEvents(txns[t.position].events[j..]))
  }

  lemma CommitOpsFirst(config: Config, events: seq<Decoder.Event>)
    requires WellFormed(config) && events != []
    ensures
      CommitOps(config, ToEvents(events))
      == EventOps(config, ToEvent(events[0])) + CommitOps(config, ToEvents(events[1..]))
  {
    assert ToEvents(events) == [ToEvent(events[0])] + ToEvents(events[1..]);
    CommitOpsConcat(config, [ToEvent(events[0])], ToEvents(events[1..]));
    OneEventOps(config, ToEvent(events[0]));
  }

  /** The handler may have gone on. */
  ghost predicate OnlyHandled(t: State, u: State) {
    u.running == t.running && u.history == t.history && u.acked == t.acked && t.position <= u.position
  }

  /** The handler opens the next transaction if it is between two. */
  lemma OpensNext(config: Config, txns: seq<Transaction>, t: State, x: nat) returns (more: seq<Step>, u: State)
    requires WellFormed(config) && HasHandled(config, txns, t, x) && t.position < |txns|
    ensures RunsTo(RulesOf(config), t, more, u) && HasHandled(config, txns, u, x) && u.handling.Some?
    ensures u.position == t.position && u.engine == t.engine && OnlyHandled(t, u)
  {
    if t.handling.Some? {
      RunsToNothing(RulesOf(config), t);
      more, u := [], t;
    } else {
      HandlesStart(RulesOf(config), t);
      OneStep(RulesOf(config), t, HandleStart);
      more, u := [HandleStart], Apply(RulesOf(config), t, HandleStart);
      assert txns[t.position].events[0..] == txns[t.position].events;
    }
  }

  /** The handler closes a transaction with nothing left to handle. */
  lemma ClosesNext(config: Config, txns: seq<Transaction>, t: State, x: nat) returns (more: seq<Step>, u: State)
    requires WellFormed(config) && HasHandled(config, txns, t, x) && t.position < |txns|
    requires Count(txns, t.position + 1) <= x
    ensures RunsTo(RulesOf(config), t, more, u) && HasHandled(config, txns, u, x) && u.handling.None?
    ensures u.position == t.position + 1 && u.engine == t.engine && OnlyHandled(t, u)
  {
    CountNext(txns, t.position);
    more, u := OpensNext(config, txns, t, x);
    var v := u;
    HandlesEnd(RulesOf(config), v);
    RunsToOneMore(RulesOf(config), t, more, v, HandleEnd);
    more, u := more + [HandleEnd], Apply(RulesOf(config), v, HandleEnd);
  }

  /** The handler passes transactions it has handled whole, and those without row changes. */
  lemma {:induction false} Advances(config: Config, txns: seq<Transaction>, t: State, x: nat, k: nat)
    returns (more: seq<Step>, u: State)
    requires WellFormed(config) && HasHandled(config, txns, t, x) && k <= |txns| && Count(txns, k) <= x
    ensures RunsTo(RulesOf(config), t, more, u) && HasHandled(config, txns, u, x) && k <= u.position
    ensures t.position < k ==> u.position == k && u.handling.None?
    ensures k <= t.position ==> u == t
    ensures u.engine == t.engine && OnlyHandled(t, u)
    decreases k - t.position
  {
    if k <= t.position {
      RunsToNothing(RulesOf(config), t);
      more, u := [], t;
    } else {
      CountGrows(txns, t.position + 1, k);
      var first, v := ClosesNext(config, txns, t, x);
      more, u := Advances(config, txns, v, x, k);
      RunsCompose(RulesOf(config), t, first, v, more, u);
      more := first + more;
    }
  }

  /** The handler does not stand in a transaction later than that of the next row change. */
  lemma StandsBefore(config: Config, txns: seq<Transaction>, t: State, x: nat, k: nat)
    requires WellFormed(config) && HasHandled(config, txns, t, x) && k < |txns| && x < Count(txns, k + 1)
    ensures t.position <= k
  {
    if t.position > k {
      CountGrows(txns, k + 1, t.position);
    }
  }

  /** One row change of the open transaction. */
  lemma HandlesEvent(config: Config, txns: seq<Transaction>, t: State, x: nat, j: nat)
    returns (more: seq<Step>, u: State)
    requires WellFormed(config) && HasHandled(config, txns, t, x) && t.handling.Some? && t.position < |txns|
    requires j < |txns[t.position].events| && Count(txns, t.position) + j == x
    ensures RunsTo(RulesOf(config), t, more, u) && HasHandled(config, txns, u, x + 1) && OnlyHandled(t, u)
    ensures u.engine == ApplyOps(t.engine, EventOps(config, ToEvent(txns[t.position].events[j])))
  {
    var events := txns[t.position].events;
    assert events[j..][0] == events[j] && events[j..][1..] == events[j + 1..];
    CommitOpsFirst(config, events[j..]);
    more, u := HandlesSome(
      RulesOf(config), t, EventOps(config, ToEvent(events[j])), CommitOps(config, ToEvents(events[j + 1..])));
  }

  /** The next row change, whichever transaction it is of. */
  lemma HandlesNext(config: Config, txns: seq<Transaction>, t: State, x: nat) returns (more: seq<Step>, u: State)
    requires WellFormed(config) && HasHandled(config, txns, t, x) && x < |AllEvents(txns)|
    ensures RunsTo(RulesOf(config), t, more, u) && HasHandled(config, txns, u, x + 1) && OnlyHandled(t, u)
    ensures u.engine == ApplyOps(t.engine, EventOps(config, ToEvent(AllEvents(txns)[x])))
  {
    var k, j := EventAt(txns, x);
    StandsBefore(config, txns, t, x, k);
    var a, v := Advances(config, txns, t, x, k);
    var b, w := OpensNext(config, txns, v, x);
    RunsCompose(RulesOf(config), t, a, v, b, w);
    more, u := HandlesEvent(config, txns, w, x, j);
    RunsCompose(RulesOf(config), t, a + b, w, more, u);
    more := a + b + more;
  }

  // ----- one connection

  /** The engine after handling the row changes one by one, with no worker in between. */
  function AfterEvents(config: Config, e: Core, events: seq<Decoder.Event>): Core
    requires WellFormed(config)
  {
    if events == [] then e
    else
      var n := |events| - 1;
      ApplyOps(AfterEvents(config, e, events[..n]), EventOps(config, ToEvent(events[n])))
  }

  lemma AfterEventsNext(config: Config, e: Core, events: seq<Decoder.Event>, event: Decoder.Event)
    requires WellFormed(config)
    ensures
      AfterEvents(config, e, events + [event])
      == ApplyOps(AfterEvents(config, e, events), EventOps(config, ToEvent(event)))
  {
    assert (events + [event])[..|events|] == events;
  }

  lemma {:induction false} AfterEventsConcat(
    config: Config, e: Core, a: seq<Decoder.Event>, b: seq<Decoder.Event>)
    requires WellFormed(config)
    ensures AfterEvents(config, e, a + b) == AfterEvents(config, AfterEvents(config, e, a), b)
  {
    if b == [] {
      assert a + b == a;
    } else {
      var n := |b| - 1;
      AfterEventsConcat(config, e, a, b[..n]);
      AfterEventsConcatNext(config, e, a, b[..n], b[n]);
      assert b[..n] + [b[n]] == b;
    }
  }

  lemma AfterEventsConcatNext(
    config: Config, e: Core, a: seq<Decoder.Event>, b: seq<Decoder.Event>, event: Decoder.Event)
    requires WellFormed(config)
    requires AfterEvents(config, e, a + b) == AfterEvents(config, AfterEvents(config, e, a), b)
    ensures AfterEvents(config, e, a + (b + [event])) == AfterEvents(config, AfterEvents(config, e, a), b + [event])
  {
    Associates(a, b, [event]);
    AfterEventsNext(config, e, a + b, event);
    AfterEventsNext(config, AfterEvents(config, e, a), b, event);
  }

  /** How many row changes have been handled when a log from `start` on has been worked off. */
  function HandledBy(txns: seq<Transaction>, start: Lsn, log: seq<Entry<Decoder.Event>>): nat {
    Count(txns, Before(txns, start)) + |AcceptedIn(log)|
  }

  /**
   * Where the log leaves the process, apart from the workers' own steps: the handler stands after the row changes
   * accepted, and what is acknowledged is the transactions before the position the server has confirmed.
   */
  ghost predicate Follows(
    config: Config, txns: seq<Transaction>, s: State, start: Lsn, log: seq<Entry<Decoder.Event>>, t: State)
    requires WellFormed(config)
  {
    && HasHandled(config, txns, t, HandledBy(txns, start, log)) && t.history == s.history
    && t.acked == Before(txns, Confirmed(start, log)) <= t.position
    && t.engine == AfterEvents(config, s.engine, AcceptedIn(log))
  }

  lemma ConfirmedIsReached(start: Lsn, log: seq<Entry<Decoder.Event>>)
    requires AckSafe(start, log)
    ensures Confirmed(start, log) <= Position(start, log)
  {
    ConfirmedWasHandled(start, log);
    PositionGrows(start, log, 0);
    assert log[..0] == [];
    if i :| 0 <= i < |log| && Confirmed(start, log) == Position(start, log[..i]) {
      PositionGrows(start, log, i);
    }
  }

  lemma StepAccepted(
    config: Config, txns: seq<Transaction>, s: State, start: Lsn, log: seq<Entry<Decoder.Event>>, t: State)
    returns (more: seq<Step>, u: State)
    requires WellFormed(config) && log != [] && log[|log| - 1].Accepted?
    requires Follows(config, txns, s, start, log[..|log| - 1], t) && AcceptedIn(log) <= EventsFrom(txns, start)
    ensures RunsTo(RulesOf(config), t, more, u) && Follows(config, txns, s, start, log, u)
  {
    var n := |log| - 1;
    var accepted := AcceptedIn(log[..n]);
    LastAccepted(txns, start, log, n);
    AfterEventsNext(config, s.engine, accepted, log[n].event);
    more, u := HandlesNext(config, txns, t, HandledBy(txns, start, log[..n]));
  }

  lemma LastAccepted(txns: seq<Transaction>, start: Lsn, log: seq<Entry<Decoder.Event>>, n: nat)
    requires |log| == n + 1 && log[n].Accepted? && AcceptedIn(log) <= EventsFrom(txns, start)
    ensures AcceptedIn(log) == AcceptedIn(log[..n]) + [log[n].event]
    ensures HandledBy(txns, start, log) == HandledBy(txns, start, log[..n]) + 1
    ensures HandledBy(txns, start, log[..n]) < |AllEvents(txns)|
    ensures AllEvents(txns)[HandledBy(txns, start, log[..n])] == log[n].event
    ensures Confirmed(start, log) == Confirmed(start, log[..n])
  {
    assert AcceptedIn(log)[|AcceptedIn(log[..n])|] == log[n].event;
    EventFrom(txns, start, |AcceptedIn(log[..n])|);
  }

  lemma AcksReached(config: Config, t: State, n: nat) returns (u: State)
    requires t.running && t.acked <= n <= t.position
    ensures RunsTo(RulesOf(config), t, [Ack(n)], u) && u == t.(acked := n)
  {
    OneStep(RulesOf(config), t, Ack(n));
    u := Apply(RulesOf(config), t, Ack(n));
  }

  lemma LastAcked(txns: seq<Transaction>, start: Lsn, log: seq<Entry<Decoder.Event>>, n: nat)
    requires Ordered(txns) && |log| == n + 1 && log[n].Acked? && AckSafe(start, log) && Sends(txns, start, log)
    ensures AcceptedIn(log) == AcceptedIn(log[..n]) && Confirmed(start, log) == log[n].lsn
    ensures Before(txns, Confirmed(start, log[..n])) <= Before(txns, log[n].lsn)
    ensures Count(txns, Before(txns, log[n].lsn)) <= HandledBy(txns, start, log[..n])
  {
    ShorterSends(txns, start, log, n);
    ShorterSafe(start, log, n);
    AckedWasAccepted(txns, start, log[..n]);
    ConfirmedIsReached(start, log[..n]);
    BeforeGrows(txns, Confirmed(start, log[..n]), log[n].lsn);
  }

  lemma StepAcked(
    config: Config, txns: seq<Transaction>, s: State, start: Lsn, log: seq<Entry<Decoder.Event>>, t: State)
    returns (more: seq<Step>, u: State)
    requires WellFormed(config) && Ordered(txns) && log != [] && log[|log| - 1].Acked?
    requires AckSafe(start, log) && Sends(txns, start, log)
    requires Follows(config, txns, s, start, log[..|log| - 1], t)
    ensures RunsTo(RulesOf(config), t, more, u) && Follows(config, txns, s, start, log, u)
  {
    var n := |log| - 1;
    LastAcked(txns, start, log, n);
    var upTo := Before(txns, log[n].lsn);
    var a, v := Advances(config, txns, t, HandledBy(txns, start, log[..n]), upTo);
    u := AcksReached(config, v, upTo);
    RunsCompose(RulesOf(config), t, a, v, [Ack(upTo)], u);
    more := a + [Ack(upTo)];
  }

  lemma StepEntry(
    config: Config, txns: seq<Transaction>, s: State, start: Lsn, log: seq<Entry<Decoder.Event>>, t: State)
    returns (more: seq<Step>, u: State)
    requires WellFormed(config) && Ordered(txns) && log != []
    requires AckSafe(start, log) && Sends(txns, start, log) && AcceptedIn(log) <= EventsFrom(txns, start)
    requires Follows(config, txns, s, start, log[..|log| - 1], t)
    ensures RunsTo(RulesOf(config), t, more, u) && Follows(config, txns, s, start, log, u)
  {
    var n := |log| - 1;
    match log[n] {
      case Receipt(_) =>
        assert AcceptedIn(log) == AcceptedIn(log[..n]);
        RunsToNothing(RulesOf(config), t);
        more, u := [], t;
      case Accepted(_) =>
        more, u := StepAccepted(config, txns, s, start, log, t);
      case Acked(_) =>
        more, u := StepAcked(config, txns, s, start, log, t);
    }
  }

  /**
   * What happens on a connection is a run of the protocol: each accepted row change is handled as part of its
   * transaction, and each status sent is an acknowledgement of transactions handled whole, namely of those that commit
   * before its position.
   */
  lemma {:induction false} ConnectionIsARun(
    config: Config, txns: seq<Transaction>, s: State, start: Lsn, log: seq<Entry<Decoder.Event>>)
    returns (steps: seq<Step>, t: State)
    requires WellFormed(config) && Ordered(txns) && Committed(config, s.history, txns)
    requires s.running && s.handling.None? && s.acked == s.position == Before(txns, start)
    requires AckSafe(start, log) && Sends(txns, start, log) && AcceptedIn(log) <= EventsFrom(txns, start)
    ensures RunsTo(RulesOf(config), s, steps, t) && Follows(config, txns, s, start, log, t)
  {
    if log == [] {
      RunsToNothing(RulesOf(config), s);
      steps, t := [], s;
    } else {
      var n := |log| - 1;
      EventsInGrows(log, n);
      ShorterSends(txns, start, log, n);
      ShorterSafe(start, log, n);
      var first, u := ConnectionIsARun(config, txns, s, start, log[..n]);
      var more;
      more, t := StepEntry(config, txns, s, start, log, u);
      RunsCompose(RulesOf(config), s, first, u, more, t);
      steps := first + more;
    }
  }

  // ----- connection after connection

  /** Each connection starts where the server has confirmed by then and does what its turns ask. */
  ghost predicate Connections(
    txns: seq<Transaction>, starts: seq<Lsn>, turns: seq<seq<Turn<Decoder.Event>>>,
    logs: seq<seq<Entry<Decoder.Event>>>)
  {
    && |starts| == |logs| + 1 && |turns| == |logs|
    && forall k | 0 <= k < |logs| ::
         Linked(starts[k], turns[k], logs[k], starts[k + 1]) && Sends(txns, starts[k], logs[k])
  }

  lemma FirstConnections(
    txns: seq<Transaction>, starts: seq<Lsn>, turns: seq<seq<Turn<Decoder.Event>>>,
    logs: seq<seq<Entry<Decoder.Event>>>, n: nat)
    requires Connections(txns, starts, turns, logs) && |logs| == n + 1
    ensures Connections(txns, starts[..n + 1], turns[..n], logs[..n])
    ensures AckSafe(starts[n], logs[n]) && Sends(txns, starts[n], logs[n])
    ensures AcceptedIn(logs[n]) <= EventsFrom(txns, starts[n]) && starts[n + 1] == Confirmed(starts[n], logs[n])
  {
    var some := starts[..n + 1];
    forall k | 0 <= k < n
      ensures Linked(some[k], turns[..n][k], logs[..n][k], some[k + 1]) && Sends(txns, some[k], logs[..n][k])
    {
      assert Linked(starts[k], turns[k], logs[k], starts[k + 1]);
    }
    LinkedAccepts(txns, starts[n], turns[n], logs[n], starts[n + 1]);
  }

  lemma LinkedAccepts(
    txns: seq<Transaction>, start: Lsn, turns: seq<Turn<Decoder.Event>>, log: seq<Entry<Decoder.Event>>, next: Lsn)
    requires Linked(start, turns, log, next) && Sends(txns, start, log)
    ensures AcceptedIn(log) <= EventsFrom(txns, start)
  {
    LoopAccepts(start, [], turns);
  }

  /** All row changes accepted on the connections, in order. */
  function AcceptedAcross(logs: seq<seq<Entry<Decoder.Event>>>): seq<Decoder.Event> {
    if logs == [] then [] else AcceptedAcross(logs[..|logs| - 1]) + AcceptedIn(logs[|logs| - 1])
  }

  /** A dropped connection: the handler goes back to what the server has confirmed. */
  lemma Resumes(config: Config, t: State) returns (u: State)
    requires t.running
    ensures RunsTo(RulesOf(config), t, [Reconnect], u) && u == t.(position := t.acked, handling := None)
  {
    OneStep(RulesOf(config), t, Reconnect);
    u := Apply(RulesOf(config), t, Reconnect);
  }

  /** One connection and the drop at its end. */
  lemma DroppedConnection(
    config: Config, txns: seq<Transaction>, s: State, start: Lsn, log: seq<Entry<Decoder.Event>>)
    returns (steps: seq<Step>, t: State)
    requires WellFormed(config) && Ordered(txns) && Committed(config, s.history, txns)
    requires s.running && s.handling.None? && s.acked == s.position == Before(txns, start)
    requires AckSafe(start, log) && Sends(txns, start, log) && AcceptedIn(log) <= EventsFrom(txns, start)
    ensures RunsTo(RulesOf(config), s, steps, t) && t.running && t.history == s.history
    ensures t.handling.None? && t.acked == t.position == Before(txns, Confirmed(start, log))
    ensures t.engine == AfterEvents(config, s.engine, AcceptedIn(log))
  {
    var first, u := ConnectionIsARun(config, txns, s, start, log);
    t := Resumes(config, u);
    RunsCompose(RulesOf(config), s, first, u, [Reconnect], t);
    steps := first + [Reconnect];
  }

  /**
   * Any number of connections, each dropped wherever it drops, is a run of the protocol. Before the next one the
   * handler stands at the transactions that commit before its start.
   */
  lemma {:induction false} ConnectionsAreARun(
    config: Config, txns: seq<Transaction>, s: State, starts: seq<Lsn>, turns: seq<seq<Turn<Decoder.Event>>>,
    logs: seq<seq<Entry<Decoder.Event>>>)
    returns (steps: seq<Step>, t: State)
    requires WellFormed(config) && Ordered(txns) && Committed(config, s.history, txns)
    requires Connections(txns, starts, turns, logs)
    requires s.running && s.handling.None? && s.acked == s.position == Before(txns, starts[0])
    ensures RunsTo(RulesOf(config), s, steps, t) && t.running && t.history == s.history
    ensures t.handling.None? && t.acked == t.position == Before(txns, starts[|logs|])
    ensures t.engine == AfterEvents(config, s.engine, AcceptedAcross(logs))
    decreases |logs|
  {
    if logs == [] {
      RunsToNothing(RulesOf(config), s);
      steps, t := [], s;
    } else {
      var n := |logs| - 1;
      FirstConnections(txns, starts, turns, logs, n);
      var first, u := ConnectionsAreARun(config, txns, s, starts[..n + 1], turns[..n], logs[..n]);
      var more;
      more, t := DroppedConnection(config, txns, u, starts[n], logs[n]);
      RunsCompose(RulesOf(config), s, first, u, more, t);
      AfterEventsConcat(config, s.engine, AcceptedAcross(logs[..n]), AcceptedIn(logs[n]));
      steps := first + more;
    }
  }

  /** A connection on which all that was left to send arrives and is handled ends with every transaction handled. */
  lemma LastConnection(
    config: Config, txns: seq<Transaction>, s: State, start: Lsn, log: seq<Entry<Decoder.Event>>)
    returns (steps: seq<Step>, t: State)
    requires WellFormed(config) && Ordered(txns) && Committed(config, s.history, txns)
    requires s.running && s.handling.None? && s.acked == s.position == Before(txns, start)
    requires AckSafe(start, log) && Sends(txns, start, log) && CaughtUp(log) && EventsIn(log) == EventsFrom(txns, start)
    ensures RunsTo(RulesOf(config), s, steps, t) && t.position == |txns| && t.handling.None?
    ensures t.engine == AfterEvents(config, s.engine, AcceptedIn(log)) && t.running && t.history == s.history
  {
    var first, u := ConnectionIsARun(config, txns, s, start, log);
    var more;
    CountGrows(txns, Before(txns, start), |txns|);
    assert txns[..|txns|] == txns;
    more, t := Advances(config, txns, u, HandledBy(txns, start, log), |txns|);
    RunsCompose(RulesOf(config), s, first, u, more, t);
    steps := first + more;
  }

  /**
   * Connections resumed from what the server has confirmed, the last of which brings every message left to send, and
   * handles it. The process starts between two transactions, at what it has acknowledged.
   */
  ghost predicate Delivers(
    config: Config, txns: seq<Transaction>, s: State, starts: seq<Lsn>, turns: seq<seq<Turn<Decoder.Event>>>,
    logs: seq<seq<Entry<Decoder.Event>>>, sent: seq<Decoder.Wire>)
    requires WellFormed(config)
  {
    && Ordered(txns) && Committed(config, s.history, txns)
    && Connections(txns, starts, turns, logs) && logs != []
    && s.running && s.handling.None? && s.acked == s.position == Before(txns, starts[0])
    && CaughtUp(logs[|logs| - 1])
    && Decoder.Consistent(sent) && Decodes(sent, ReceivedIn(logs[|logs| - 1]))
    && Decoder.EventsSent(sent, |sent|) == EventsFrom(txns, starts[|logs| - 1])
  }

  /**
   * Connection after connection, dropped anywhere and resumed from what the server has confirmed, until one on which
   * every message the server has left to send arrives and is handled: every transaction has then been handled, and the
   * engine is where the row changes accepted on all the connections take it.
   */
  lemma ConnectionsDeliver(
    config: Config, txns: seq<Transaction>, s: State, starts: seq<Lsn>, turns: seq<seq<Turn<Decoder.Event>>>,
    logs: seq<seq<Entry<Decoder.Event>>>, sent: seq<Decoder.Wire>)
    returns (steps: seq<Step>, t: State)
    requires WellFormed(config) && Delivers(config, txns, s, starts, turns, logs, sent)
    ensures RunsTo(RulesOf(config), s, steps, t) && t.position == |txns| && t.handling.None?
    ensures t.running && t.history == s.history
    ensures t.engine == AfterEvents(config, s.engine, AcceptedAcross(logs))
  {
    var n := |logs| - 1;
    FirstConnections(txns, starts, turns, logs, n);
    var first, u := ConnectionsAreARun(config, txns, s, starts[..n + 1], turns[..n], logs[..n]);
    EventsAreSent(sent, logs[n]);
    var more;
    more, t := LastConnection(config, txns, u, starts[n], logs[n]);
    RunsCompose(RulesOf(config), s, first, u, more, t);
    AfterEventsConcat(config, s.engine, AcceptedAcross(logs[..n]), AcceptedIn(logs[n]));
    steps := first + more;
  }
}
