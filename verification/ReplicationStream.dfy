/** The receive, handle and acknowledge loop (streamLoop, sendStandbyStatus). */
module ReplicationStream {
  import opened Wrappers

  /** Log sequence numbers. */
  type Lsn = nat

  /** One received message: its position, and its events if it decodes. */
  datatype Message<Event> = Message(lsn: Lsn, decoded: Option<seq<Event>>)

  datatype Received<Event> = Timeout | Broken | ServerError | Got(message: Message<Event>)

  /**
   * One turn of the loop: whether the context is cancelled, whether the standby deadline has passed, whether the
   * status is then sent, what is received, and the first event of it that the handler refuses.
   */
  datatype Turn<Event> =
    Turn(cancelled: bool, due: bool, sendFails: bool, received: Received<Event>, refuses: Option<nat>)

  datatype End = Cancelled | Failed | Exhausted

  /** What has happened on the connection, in order. */
  datatype Entry<Event> = Receipt(message: Message<Event>) | Accepted(event: Event) | Acked(lsn: Lsn)

  /** The larger of the start position and the greatest position received. */
  function Position<E>(start: Lsn, log: seq<Entry<E>>): Lsn {
    if log == [] then start
    else
      var before := Position(start, log[..|log| - 1]);
      match log[|log| - 1]
      case Receipt(m) => if m.lsn > before then m.lsn else before
      case _ => before
  }

  function AcceptedIn<E>(log: seq<Entry<E>>): seq<E> {
    if log == [] then []
    else AcceptedIn(log[..|log| - 1]) + match log[|log| - 1] case Accepted(e) => [e] case _ => []
  }

  /** The events of every received message, in order. */
  function EventsIn<E>(log: seq<Entry<E>>): seq<E> {
    if log == [] then []
    else
      EventsIn(log[..|log| - 1]) +
      match log[|log| - 1]
      case Receipt(m) => if m.decoded.Some? then m.decoded.value else []
      case _ => []
  }

  ghost predicate AllDecoded<E>(log: seq<Entry<E>>) {
    forall i | 0 <= i < |log| && log[i].Receipt? :: log[i].message.decoded.Some?
  }

  /** Every message received so far has been decoded and all its events accepted, in order. */
  ghost predicate CaughtUp<E>(log: seq<Entry<E>>) { AllDecoded(log) && AcceptedIn(log) == EventsIn(log) }

  /** Every acknowledgement was sent while caught up, and carries the position reached. */
  ghost predicate AckSafe<E>(start: Lsn, log: seq<Entry<E>>) {
    forall i | 0 <= i < |log| && log[i].Acked? :: CaughtUp(log[..i]) && log[i].lsn == Position(start, log[..i])
  }

  lemma {:induction false} PositionGrows<E>(start: Lsn, log: seq<Entry<E>>, i: nat)
    requires i <= |log|
    ensures start <= Position(start, log[..i]) <= Position(start, log)
  {
    if i < |log| {
      var n := |log| - 1;
      PositionGrows(start, log[..n], i);
      assert log[..n][..i] == log[..i];
    } else {
      assert log[..i] == log;
      if log != [] {
        PositionGrows(start, log[..|log| - 1], |log| - 1);
        assert log[..|log| - 1][..|log| - 1] == log[..|log| - 1];
      }
    }
  }

  /** Acknowledged positions never go back on a connection, and start no lower than the start position. */
  lemma AcksNonDecreasing<E>(start: Lsn, log: seq<Entry<E>>, i: nat, j: nat)
    requires AckSafe(start, log) && i < j < |log| && log[i].Acked? && log[j].Acked?
    ensures start <= log[i].lsn <= log[j].lsn
  {
    PositionGrows(start, log[..j], i);
    assert log[..j][..i] == log[..i];
  }

  /**
   * `commits(i)` is the commit position of the transaction entry `i` belongs to, or a keepalive's own position. No
   * message's position exceeds the commit of a transaction with this or a later message, and from `start` on only
   * transactions that commit at or after it are sent. The chunks of a streamed transaction may come before others that
   * commit earlier, and positions of messages need not be in order.
   */
  ghost predicate NeverPassesCommit<E>(start: Lsn, log: seq<Entry<E>>, commits: nat -> Lsn) {
    && (forall j: nat | j < |log| && log[j].Receipt? :: start <= commits(j))
    && (forall i: nat, j: nat | i <= j < |log| && log[i].Receipt? && log[j].Receipt? ::
          log[i].message.lsn <= commits(j))
  }

  lemma {:induction false} PositionBelowCommit<E>(start: Lsn, log: seq<Entry<E>>, commits: nat -> Lsn, i: nat, j: nat)
    requires NeverPassesCommit(start, log, commits) && i <= j < |log| && log[j].Receipt?
    ensures Position(start, log[..i]) <= commits(j)
  {
    if i == 0 {
      assert log[..0] == [];
    } else {
      PositionBelowCommit(start, log, commits, i - 1, j);
      assert log[..i][..i - 1] == log[..i - 1] && log[..i][i - 1] == log[i - 1];
      assert log[i - 1].Receipt? ==> log[i - 1].message.lsn <= commits(j);
    }
  }

  /**
   * No acknowledgement passes the commit of a transaction with a message still to come, streamed or not, so the server
   * sends that transaction again after a reconnect.
   */
  lemma AckNeverPassesUnhandled<E>(start: Lsn, log: seq<Entry<E>>, commits: nat -> Lsn, i: nat, j: nat)
    requires AckSafe(start, log) && NeverPassesCommit(start, log, commits)
    requires i < j < |log| && log[i].Acked? && log[j].Receipt?
    ensures log[i].lsn <= commits(j)
  {
    PositionBelowCommit(start, log, commits, i, j);
  }

  // ----- one entry more

  lemma Appended<E>(start: Lsn, log: seq<Entry<E>>, entry: Entry<E>)
    ensures
      var longer := log + [entry];
      && Position(start, longer) ==
         (if entry.Receipt? && entry.message.lsn > Position(start, log) then entry.message.lsn
          else Position(start, log))
      && AcceptedIn(longer) == AcceptedIn(log) + (match entry case Accepted(e) => [e] case _ => [])
      && EventsIn(longer) ==
         EventsIn(log) + (if entry.Receipt? && entry.message.decoded.Some? then entry.message.decoded.value else [])
      && (AllDecoded(longer) <==> AllDecoded(log) && (entry.Receipt? ==> entry.message.decoded.Some?))
      && (AckSafe(start, longer) <==>
          AckSafe(start, log) && (entry.Acked? ==> CaughtUp(log) && entry.lsn == Position(start, log)))
  {
    var longer := log + [entry];
    assert longer[..|log|] == log;
    AppendedSafety(start, log, entry);
    if AllDecoded(longer) {
      assert forall i | 0 <= i < |log| :: longer[i] == log[i];
      assert longer[|log|] == entry;
    }
  }

  lemma AppendedSafety<E>(start: Lsn, log: seq<Entry<E>>, entry: Entry<E>)
    ensures AckSafe(start, log + [entry]) <==>
      AckSafe(start, log) && (entry.Acked? ==> CaughtUp(log) && entry.lsn == Position(start, log))
  {
    var longer := log + [entry];
    assert longer[..|log|] == log && longer[|log|] == entry;
    forall i | 0 <= i < |log| ensures longer[..i] == log[..i] && longer[i] == log[i] {}
    if AckSafe(start, longer) {
      forall i | 0 <= i < |log| && log[i].Acked?
        ensures CaughtUp(log[..i]) && log[i].lsn == Position(start, log[..i])
      {
        assert longer[i].Acked?;
      }
      assert entry.Acked? ==> longer[|log|].Acked?;
    }
  }

  // ----- what a turn and a loop do

  function Accepts<E>(events: seq<E>): (entries: seq<Entry<E>>)
    ensures |entries| == |events|
  {
    seq(|events|, i requires 0 <= i < |events| => Accepted(events[i]))
  }

  /** The message decodes and the handler refuses none of its events. */
  predicate Whole<E>(message: Message<E>, refuses: Option<nat>) {
    message.decoded.Some? && (refuses.None? || refuses.value >= |message.decoded.value|)
  }

  /** The events the handler accepts: all of a whole message, those before the refused one, or none if undecoded. */
  function Prefix<E>(message: Message<E>, refuses: Option<nat>): seq<E> {
    if message.decoded.None? then []
    else if Whole(message, refuses) then message.decoded.value
    else message.decoded.value[..refuses.value]
  }

  function MessageLog<E>(message: Message<E>, refuses: Option<nat>): seq<Entry<E>> {
    [Receipt(message)] + Accepts(Prefix(message, refuses))
  }

  function MaxLsn(a: Lsn, b: Lsn): Lsn { if a < b then b else a }

  /** The turn gets as far as receiving. */
  predicate Receives<E>(turn: Turn<E>) { !turn.cancelled && !(turn.due && turn.sendFails) }

  /** The loop goes on after the turn. */
  predicate GoesOn<E>(turn: Turn<E>) {
    && Receives(turn)
    && match turn.received
       case Timeout => true
       case Got(message) => Whole(message, turn.refuses)
       case _ => false
  }

  function AckLog<E>(position: Lsn, turn: Turn<E>): seq<Entry<E>> {
    if Receives(turn) && turn.due then [Acked(position)] else []
  }

  function ReceiptLog<E>(turn: Turn<E>): seq<Entry<E>> {
    if Receives(turn) && turn.received.Got? then MessageLog(turn.received.message, turn.refuses) else []
  }

  function TurnLog<E>(position: Lsn, turn: Turn<E>): seq<Entry<E>> { AckLog(position, turn) + ReceiptLog(turn) }

  function TurnPosition<E>(position: Lsn, turn: Turn<E>): Lsn {
    if GoesOn(turn) && turn.received.Got? then MaxLsn(position, turn.received.message.lsn) else position
  }

  /** How many turns the loop takes: up to and including the first after which it does not go on. */
  function Taken<E>(turns: seq<Turn<E>>): nat {
    if turns == [] then 0 else if GoesOn(turns[0]) then 1 + Taken(turns[1..]) else 1
  }

  /** Where a loop leaves the connection, and why it ended. */
  datatype Outcome<Event> = Outcome(log: seq<Entry<Event>>, position: Lsn, end: End)

  /** What a loop over the turns does from there on. */
  function Loop<E>(log: seq<Entry<E>>, position: Lsn, turns: seq<Turn<E>>): Outcome<E>
    decreases |turns|
  {
    if turns == [] then Outcome(log, position, Exhausted)
    else
      var longer := log + TurnLog(position, turns[0]);
      if GoesOn(turns[0]) then Loop(longer, TurnPosition(position, turns[0]), turns[1..])
      else Outcome(longer, position, if turns[0].cancelled then Cancelled else Failed)
  }

  /** The messages received, in order. */
  function ReceivedIn<E>(log: seq<Entry<E>>): seq<Message<E>> {
    if log == [] then []
    else ReceivedIn(log[..|log| - 1]) + match log[|log| - 1] case Receipt(m) => [m] case _ => []
  }

  function AcksIn<E>(log: seq<Entry<E>>): nat {
    if log == [] then 0 else AcksIn(log[..|log| - 1]) + if log[|log| - 1].Acked? then 1 else 0
  }

  lemma {:induction false} TalliesConcat<E>(a: seq<Entry<E>>, b: seq<Entry<E>>)
    ensures ReceivedIn(a + b) == ReceivedIn(a) + ReceivedIn(b) && AcksIn(a + b) == AcksIn(a) + AcksIn(b)
  {
    if b == [] {
      assert a + b == a;
    } else {
      var n := |b| - 1;
      TalliesConcat(a, b[..n]);
      assert (a + b)[..|a + b| - 1] == a + b[..n];
    }
  }

  lemma {:induction false} AcceptsTally<E>(events: seq<E>)
    ensures ReceivedIn(Accepts(events)) == [] && AcksIn(Accepts(events)) == 0
  {
    if events == [] {
    } else {
      var n := |events| - 1;
      AcceptsTally(events[..n]);
      assert Accepts(events)[..n] == Accepts(events[..n]);
    }
  }

  /** The messages the server hands to these turns, in order. */
  function MessagesOf<E>(turns: seq<Turn<E>>): seq<Message<E>> {
    if turns == [] then []
    else
      (if Receives(turns[0]) && turns[0].received.Got? then [turns[0].received.message] else [])
      + MessagesOf(turns[1..])
  }

  /** How many of these turns find the standby deadline passed and send the status. */
  function SentBy<E>(turns: seq<Turn<E>>): nat {
    if turns == [] then 0 else (if Receives(turns[0]) && turns[0].due then 1 else 0) + SentBy(turns[1..])
  }

  lemma TurnTallies<E>(position: Lsn, turn: Turn<E>)
    ensures
      ReceivedIn(TurnLog(position, turn))
      == if Receives(turn) && turn.received.Got? then [turn.received.message] else []
    ensures AcksIn(TurnLog(position, turn)) == if Receives(turn) && turn.due then 1 else 0
  {
    TalliesConcat(AckLog(position, turn), ReceiptLog(turn));
    if Receives(turn) && turn.due {
      assert AckLog(position, turn)[..0] == [];
    }
    if Receives(turn) && turn.received.Got? {
      var m := turn.received.message;
      AcceptsTally(Prefix(m, turn.refuses));
      TalliesConcat([Receipt(m)], Accepts(Prefix(m, turn.refuses)));
      assert [Receipt(m)][..0] == [];
    }
  }

  lemma TakenNext<E>(turns: seq<Turn<E>>)
    requires turns != []
    ensures Taken(turns) <= |turns| ==> 1 <= Taken(turns)
    ensures
      var rest := if GoesOn(turns[0]) then turns[1..] else [];
      Taken(rest) <= |rest| ==> Taken(turns) <= |turns| && turns[..Taken(turns)] == [turns[0]] + rest[..Taken(rest)]
  {
  }

  lemma FirstTallies<E>(position: Lsn, turn: Turn<E>, rest: seq<Turn<E>>)
    ensures MessagesOf([turn] + rest) == ReceivedIn(TurnLog(position, turn)) + MessagesOf(rest)
    ensures SentBy([turn] + rest) == AcksIn(TurnLog(position, turn)) + SentBy(rest)
  {
    TurnTallies(position, turn);
    assert ([turn] + rest)[1..] == rest;
  }

  /** The loop drops no message and makes none up, and sends a status exactly in the turns that find it due. */
  lemma {:induction false} LoopTallies<E>(log: seq<Entry<E>>, position: Lsn, turns: seq<Turn<E>>)
    ensures Taken(turns) <= |turns|
    ensures ReceivedIn(Loop(log, position, turns).log) == ReceivedIn(log) + MessagesOf(turns[..Taken(turns)])
    ensures AcksIn(Loop(log, position, turns).log) == AcksIn(log) + SentBy(turns[..Taken(turns)])
    decreases |turns|
  {
    if turns == [] {
      assert ReceivedIn(log) + [] == ReceivedIn(log);
    } else {
      var longer := log + TurnLog(position, turns[0]);
      var rest := if GoesOn(turns[0]) then turns[1..] else [];
      LoopTallies(longer, TurnPosition(position, turns[0]), rest);
      TakenNext(turns);
      LoopNext(log, position, turns);
      OneMoreTurn(log, position, turns[0], rest[..Taken(rest)]);
    }
  }

  lemma OneMoreTurn<E>(log: seq<Entry<E>>, position: Lsn, turn: Turn<E>, rest: seq<Turn<E>>)
    ensures
      ReceivedIn(log + TurnLog(position, turn)) + MessagesOf(rest) == ReceivedIn(log) + MessagesOf([turn] + rest)
    ensures AcksIn(log + TurnLog(position, turn)) + SentBy(rest) == AcksIn(log) + SentBy([turn] + rest)
  {
    var entries := TurnLog(position, turn);
    TalliesConcat(log, entries);
    FirstTallies(position, turn, rest);
    Regroup(
      ReceivedIn(log), ReceivedIn(entries), MessagesOf(rest), ReceivedIn(log + entries), MessagesOf([turn] + rest));
  }

  lemma Regroup<T>(a: seq<T>, b: seq<T>, c: seq<T>, ab: seq<T>, bc: seq<T>)
    requires ab == a + b && bc == b + c
    ensures ab + c == a + bc
  {
  }

  lemma LoopNext<E>(log: seq<Entry<E>>, position: Lsn, turns: seq<Turn<E>>)
    requires turns != []
    ensures
      var rest := if GoesOn(turns[0]) then turns[1..] else [];
      Loop(log, position, turns).log
      == Loop(log + TurnLog(position, turns[0]), TurnPosition(position, turns[0]), rest).log
  {
  }

  /** The messages handled whole. */
  function WholeOf<E>(turns: seq<Turn<E>>): seq<Message<E>> {
    if turns == [] then []
    else
      (if Receives(turns[0]) && turns[0].received.Got? && Whole(turns[0].received.message, turns[0].refuses)
       then [turns[0].received.message] else [])
      + WholeOf(turns[1..])
  }

  /** The larger of `position` and the greatest position of the messages. */
  function Greatest<E>(position: Lsn, messages: seq<Message<E>>): Lsn
    decreases |messages|
  {
    if messages == [] then position else Greatest(MaxLsn(position, messages[0].lsn), messages[1..])
  }

  lemma FirstPosition<E>(position: Lsn, turn: Turn<E>, rest: seq<Turn<E>>)
    ensures
      Greatest(position, WholeOf([turn] + rest)) == Greatest(TurnPosition(position, turn), WholeOf(rest))
  {
    assert ([turn] + rest)[1..] == rest;
    if GoesOn(turn) && turn.received.Got? {
      assert ([turn.received.message] + WholeOf(rest))[1..] == WholeOf(rest);
    } else {
      assert [] + WholeOf(rest) == WholeOf(rest);
    }
  }

  /** The loop ends at the greatest position of a message handled whole; a failed message leaves it where it was. */
  lemma {:induction false} LoopPosition<E>(log: seq<Entry<E>>, position: Lsn, turns: seq<Turn<E>>)
    ensures Taken(turns) <= |turns|
    ensures Loop(log, position, turns).position == Greatest(position, WholeOf(turns[..Taken(turns)]))
    decreases |turns|
  {
    if turns == [] {
    } else {
      var rest := if GoesOn(turns[0]) then turns[1..] else [];
      LoopPosition(log + TurnLog(position, turns[0]), TurnPosition(position, turns[0]), rest);
      TakenNext(turns);
      FirstPosition(position, turns[0], rest[..Taken(rest)]);
    }
  }

  // ----- where the loop stops

  /**
   * The loop goes on after a turn that is not cancelled, has no failing status to send, and times out or delivers a
   * message that decodes and of which the handler refuses no event.
   */
  ghost predicate Passes<E>(turn: Turn<E>) {
    && !turn.cancelled && !(turn.due && turn.sendFails)
    && (turn.received.Timeout?
        || (&& turn.received.Got? && turn.received.message.decoded.Some?
            && (turn.refuses.None? || turn.refuses.value >= |turn.received.message.decoded.value|)))
  }

  /** Turn `n` is the first after which the loop does not go on; there is none if `n` is their number. */
  ghost predicate StopsAt<E>(turns: seq<Turn<E>>, n: nat) {
    && n <= |turns| && (forall i | 0 <= i < n :: Passes(turns[i]))
    && (n < |turns| ==> !Passes(turns[n]))
  }

  /** How many turns receive: all before the one that stops the loop, and that one unless it ends before. */
  ghost function Receiving<E>(turns: seq<Turn<E>>, n: nat): (m: nat)
    requires n <= |turns|
    ensures n <= m <= |turns|
  {
    if n < |turns| && !turns[n].cancelled && !(turns[n].due && turns[n].sendFails) then n + 1 else n
  }

  /** The messages received in these turns. */
  function GotIn<E>(turns: seq<Turn<E>>): seq<Message<E>> {
    if turns == [] then []
    else (if turns[0].received.Got? then [turns[0].received.message] else []) + GotIn(turns[1..])
  }

  /** How many of these turns have a status due. */
  function DueIn<E>(turns: seq<Turn<E>>): nat {
    if turns == [] then 0 else (if turns[0].due then 1 else 0) + DueIn(turns[1..])
  }

  /** `p` is the largest of `start` and the positions of the messages. */
  ghost predicate IsGreatest<E>(p: Lsn, start: Lsn, messages: seq<Message<E>>) {
    && start <= p && (forall m | m in messages :: m.lsn <= p)
    && (p == start || exists m :: m in messages && m.lsn == p)
  }

  /**
   * Stopping at turn `n`: cancelled, failed, or out of turns. The messages logged are those received in the turns up to
   * it, with the statuses of the due ones, and the position is the greatest of those handled before it.
   */
  ghost predicate EndsAt<E>(log: seq<Entry<E>>, position: Lsn, turns: seq<Turn<E>>, n: nat, outcome: Outcome<E>) {
    && StopsAt(turns, n)
    && outcome.end == (if n == |turns| then Exhausted else if turns[n].cancelled then Cancelled else Failed)
    && ReceivedIn(outcome.log) == ReceivedIn(log) + GotIn(turns[..Receiving(turns, n)])
    && AcksIn(outcome.log) == AcksIn(log) + DueIn(turns[..Receiving(turns, n)])
    && IsGreatest(outcome.position, position, GotIn(turns[..n]))
  }

  lemma EndsNow<E>(log: seq<Entry<E>>, position: Lsn, turns: seq<Turn<E>>)
    requires turns != [] && !Passes(turns[0])
    ensures EndsAt(log, position, turns, 0, Loop(log, position, turns))
  {
    TalliesConcat(log, TurnLog(position, turns[0]));
    TurnTallies(position, turns[0]);
    assert turns[..0] == [];
    OneTurn(turns[..1]);
  }

  lemma OneTurn<E>(turns: seq<Turn<E>>)
    requires |turns| == 1
    ensures GotIn(turns) == if turns[0].received.Got? then [turns[0].received.message] else []
    ensures DueIn(turns) == if turns[0].due then 1 else 0
  {
    assert turns[1..] == [];
  }

  lemma GreatestNext<E>(p: Lsn, start: Lsn, turn: Turn<E>, rest: seq<Message<E>>)
    requires Passes(turn) && IsGreatest(p, TurnPosition(start, turn), rest)
    ensures IsGreatest(p, start, (if turn.received.Got? then [turn.received.message] else []) + rest)
  {
    var all := (if turn.received.Got? then [turn.received.message] else []) + rest;
    assert forall m | m in rest :: m in all;
    assert turn.received.Got? ==> all[0] == turn.received.message;
  }

  lemma StopsLater<E>(turns: seq<Turn<E>>, n: nat)
    requires turns != [] && Passes(turns[0]) && StopsAt(turns[1..], n)
    ensures StopsAt(turns, n + 1) && Receiving(turns, n + 1) == Receiving(turns[1..], n) + 1
  {
    assert forall i | 1 <= i < n + 1 :: turns[i] == turns[1..][i - 1];
  }

  /** What one more turn in front adds to the tallies. */
  lemma TalliesLater<E>(log: seq<Entry<E>>, position: Lsn, turns: seq<Turn<E>>, m: nat, all: seq<Entry<E>>)
    requires m < |turns| && Passes(turns[0])
    requires ReceivedIn(all) == ReceivedIn(log + TurnLog(position, turns[0])) + GotIn(turns[1..][..m])
    requires AcksIn(all) == AcksIn(log + TurnLog(position, turns[0])) + DueIn(turns[1..][..m])
    ensures ReceivedIn(all) == ReceivedIn(log) + GotIn(turns[..m + 1])
    ensures AcksIn(all) == AcksIn(log) + DueIn(turns[..m + 1])
  {
    TalliesConcat(log, TurnLog(position, turns[0]));
    TurnTallies(position, turns[0]);
    FirstTurns(turns, m);
    Regroup(
      ReceivedIn(log), ReceivedIn(TurnLog(position, turns[0])), GotIn(turns[1..][..m]),
      ReceivedIn(log + TurnLog(position, turns[0])), GotIn(turns[..m + 1]));
  }

  lemma EndsLater<E>(log: seq<Entry<E>>, position: Lsn, turns: seq<Turn<E>>, n: nat, outcome: Outcome<E>)
    requires turns != [] && Passes(turns[0])
    requires
      EndsAt(log + TurnLog(position, turns[0]), TurnPosition(position, turns[0]), turns[1..], n, outcome)
    ensures EndsAt(log, position, turns, n + 1, outcome)
  {
    StopsLater(turns, n);
    TalliesLater(log, position, turns, Receiving(turns[1..], n), outcome.log);
    FirstTurns(turns, n);
    GreatestNext(outcome.position, position, turns[0], GotIn(turns[1..][..n]));
  }

  lemma FirstTurns<E>(turns: seq<Turn<E>>, n: nat)
    requires n < |turns|
    ensures
      GotIn(turns[..n + 1])
      == (if turns[0].received.Got? then [turns[0].received.message] else []) + GotIn(turns[1..][..n])
    ensures DueIn(turns[..n + 1]) == (if turns[0].due then 1 else 0) + DueIn(turns[1..][..n])
  {
    assert turns[..n + 1][1..] == turns[1..][..n];
  }

  /** The loop stops at the first turn that ends it, and does what the turns up to it ask. */
  lemma {:induction false} LoopEnds<E>(log: seq<Entry<E>>, position: Lsn, turns: seq<Turn<E>>) returns (n: nat)
    ensures EndsAt(log, position, turns, n, Loop(log, position, turns))
    decreases |turns|
  {
    if turns == [] {
      n := 0;
    } else if Passes(turns[0]) {
      n := LoopEnds(log + TurnLog(position, turns[0]), TurnPosition(position, turns[0]), turns[1..]);
      EndsLater(log, position, turns, n, Loop(log, position, turns));
      n := n + 1;
    } else {
      n := 0;
      EndsNow(log, position, turns);
    }
  }

  // ----- the loop

  /** `log` continues `base` by accepting exactly `events`. */
  ghost predicate Accepting<E>(start: Lsn, base: seq<Entry<E>>, log: seq<Entry<E>>, events: seq<E>) {
    && AckSafe(start, log) && AllDecoded(log)
    && Position(start, log) == Position(start, base)
    && EventsIn(log) == EventsIn(base)
    && AcceptedIn(log) == AcceptedIn(base) + events
  }

  lemma AcceptsNone<E>(start: Lsn, base: seq<Entry<E>>)
    requires AckSafe(start, base) && AllDecoded(base)
    ensures Accepting(start, base, base, [])
  {
  }

  lemma AcceptsOne<E>(start: Lsn, base: seq<Entry<E>>, log: seq<Entry<E>>, events: seq<E>, event: E)
    requires Accepting(start, base, log, events)
    ensures Accepting(start, base, log + [Accepted(event)], events + [event])
  {
    Appended(start, log, Accepted(event));
  }

  lemma AcceptsNext<E>(base: seq<Entry<E>>, events: seq<E>)
    requires events != []
    ensures
      var n := |events| - 1;
      && events == events[..n] + [events[n]]
      && base + Accepts(events) == base + Accepts(events[..n]) + [Accepted(events[n])]
  {
  }

  lemma {:induction false} AcceptsAll<E>(start: Lsn, base: seq<Entry<E>>, events: seq<E>)
    requires AckSafe(start, base) && AllDecoded(base)
    ensures Accepting(start, base, base + Accepts(events), events)
  {
    if events == [] {
      AcceptsNone(start, base);
      assert base + Accepts(events) == base;
    } else {
      var n := |events| - 1;
      AcceptsAll(start, base, events[..n]);
      AcceptsNext(base, events);
      AcceptsOne(start, base, base + Accepts(events[..n]), events[..n], events[n]);
    }
  }

  lemma MessageTallies<E>(base: seq<Entry<E>>, message: Message<E>, refuses: Option<nat>)
    ensures ReceivedIn(base + MessageLog(message, refuses)) == ReceivedIn(base) + [message]
    ensures AcksIn(base + MessageLog(message, refuses)) == AcksIn(base)
  {
    AcceptsTally(Prefix(message, refuses));
    TalliesConcat([Receipt(message)], Accepts(Prefix(message, refuses)));
    assert [Receipt(message)][..0] == [];
    TalliesConcat(base, MessageLog(message, refuses));
  }

  lemma MessageAccepted<E>(start: Lsn, base: seq<Entry<E>>, message: Message<E>, refuses: Option<nat>)
    requires CaughtUp(base) && AckSafe(start, base)
    ensures AcceptedIn(base + MessageLog(message, refuses)) == AcceptedIn(base) + Prefix(message, refuses)
  {
    Appended(start, base, Receipt(message));
    if message.decoded.Some? {
      MessageAccepting(start, base, message, refuses);
    } else {
      assert base + MessageLog(message, refuses) == base + [Receipt(message)];
    }
  }

  lemma MessageAccepting<E>(start: Lsn, base: seq<Entry<E>>, message: Message<E>, refuses: Option<nat>)
    requires CaughtUp(base) && AckSafe(start, base) && message.decoded.Some?
    ensures
      Accepting(start, base + [Receipt(message)], base + MessageLog(message, refuses), Prefix(message, refuses))
  {
    var received := base + [Receipt(message)];
    Appended(start, base, Receipt(message));
    Regroup(base, [Receipt(message)], Accepts(Prefix(message, refuses)), received, MessageLog(message, refuses));
    AcceptsAll(start, received, Prefix(message, refuses));
  }

  /** What one message adds keeps every status safe, and a message handled whole leaves the log caught up. */
  lemma MessageKeeps<E>(start: Lsn, base: seq<Entry<E>>, message: Message<E>, refuses: Option<nat>)
    requires CaughtUp(base) && AckSafe(start, base)
    ensures
      var log := base + MessageLog(message, refuses);
      && AckSafe(start, log)
      && (Whole(message, refuses) ==>
            CaughtUp(log) && Position(start, log) == MaxLsn(Position(start, base), message.lsn))
  {
    Appended(start, base, Receipt(message));
    if message.decoded.Some? {
      MessageAccepting(start, base, message, refuses);
    } else {
      assert base + MessageLog(message, refuses) == base + [Receipt(message)];
    }
  }

  /** A message adds accepted events in the order received, all of them or the first few. */
  lemma MessageAccepts<E>(start: Lsn, base: seq<Entry<E>>, message: Message<E>, refuses: Option<nat>)
    requires CaughtUp(base) && AckSafe(start, base)
    ensures
      var log := base + MessageLog(message, refuses);
      AcceptedIn(log) <= EventsIn(log)
  {
    Appended(start, base, Receipt(message));
    if message.decoded.Some? {
      MessageAccepting(start, base, message, refuses);
      assert Prefix(message, refuses) <= message.decoded.value;
    } else {
      assert base + MessageLog(message, refuses) == base + [Receipt(message)];
    }
  }

  lemma TurnAccepts<E>(start: Lsn, log: seq<Entry<E>>, turn: Turn<E>)
    requires CaughtUp(log) && AckSafe(start, log)
    ensures
      var longer := log + TurnLog(Position(start, log), turn);
      && AcceptedIn(longer) <= EventsIn(longer)
      && (GoesOn(turn) ==>
            CaughtUp(longer) && AckSafe(start, longer)
            && Position(start, longer) == TurnPosition(Position(start, log), turn))
  {
    var position := Position(start, log);
    var acked := log + AckLog(position, turn);
    Regroup(log, AckLog(position, turn), ReceiptLog(turn), acked, TurnLog(position, turn));
    if Receives(turn) && turn.due {
      Appended(start, log, Acked(position));
    } else {
      assert acked == log;
    }
    if Receives(turn) && turn.received.Got? {
      MessageKeeps(start, acked, turn.received.message, turn.refuses);
      MessageAccepts(start, acked, turn.received.message, turn.refuses);
    } else {
      assert acked + ReceiptLog(turn) == acked;
    }
  }

  /** On every connection the accepted events are the first of those received, in order. */
  lemma {:induction false} LoopAccepts<E>(start: Lsn, log: seq<Entry<E>>, turns: seq<Turn<E>>)
    requires CaughtUp(log) && AckSafe(start, log)
    ensures
      var all := Loop(log, Position(start, log), turns).log;
      AcceptedIn(all) <= EventsIn(all)
    decreases |turns|
  {
    if turns == [] {
    } else {
      TurnAccepts(start, log, turns[0]);
      if GoesOn(turns[0]) {
        LoopAccepts(start, log + TurnLog(Position(start, log), turns[0]), turns[1..]);
      }
    }
  }

  lemma LoopEndsSo<E>(log: seq<Entry<E>>, position: Lsn, turns: seq<Turn<E>>, outcome: Outcome<E>)
    requires outcome == Loop(log, position, turns)
    ensures exists n: nat :: EndsAt(log, position, turns, n, outcome)
    ensures outcome.end.Exhausted? <==> forall i | 0 <= i < |turns| :: Passes(turns[i])
  {
    var n := LoopEnds(log, position, turns);
    assert EndsAt(log, position, turns, n, outcome);
  }

  class Connection<Event> {
    const start: Lsn
    var clientLsn: Lsn
    var log: seq<Entry<Event>>

    ghost predicate Valid()
      reads this
    {
      CaughtUp(log) && AckSafe(start, log) && clientLsn == Position(start, log)
    }

    /** setupReplication stores the position it started from. */
    constructor (start: Lsn)
      ensures this.start == start && clientLsn == start && log == [] && Valid()
    {
      this.start, this.clientLsn, this.log := start, start, [];
    }

    method SendStandbyStatus()
      requires Valid()
      modifies this`log
      ensures Valid() && log == old(log) + [Acked(old(clientLsn))]
    {
      Appended(start, log, Acked(clientLsn));
      log := log + [Acked(clientLsn)];
    }

    /** Feeds the events to the handler until it refuses one. */
    method Handle(events: seq<Event>, refuses: Option<nat>) returns (ok: bool)
      modifies this`log
      ensures ok <==> refuses.None? || refuses.value >= |events|
      ensures log == old(log) + Accepts(if ok then events else events[..refuses.value])
    {
      for i := 0 to |events|
        invariant log == old(log) + Accepts(events[..i])
        invariant refuses.Some? ==> refuses.value >= i
      {
        if refuses == Some(i) {
          return false;
        }
        log := log + [Accepted(events[i])];
        assert Accepts(events[..i + 1]) == Accepts(events[..i]) + [Accepted(events[i])];
      }
      assert events[..|events|] == events;
      ok := true;
    }

    /**
     * Decodes and handles one message. On success all its events have been accepted and the position advances; on
     * failure the events before the refused one have been, and the position stays.
     */
    method HandleMessage(message: Message<Event>, refuses: Option<nat>) returns (ok: bool)
      requires Valid()
      modifies this`log, this`clientLsn
      ensures ok <==> message.decoded.Some? && (refuses.None? || refuses.value >= |message.decoded.value|)
      ensures log == old(log) + MessageLog(message, refuses)
      ensures ReceivedIn(log) == ReceivedIn(old(log)) + [message] && AcksIn(log) == AcksIn(old(log))
      ensures AcceptedIn(log) == AcceptedIn(old(log)) +
                (if message.decoded.None? then []
                 else if ok then message.decoded.value
                 else message.decoded.value[..refuses.value])
      ensures clientLsn == if ok then MaxLsn(old(clientLsn), message.lsn) else old(clientLsn)
      ensures AckSafe(start, log) && (ok ==> Valid())
    {
      MessageKeeps(start, log, message, refuses);
      MessageTallies(log, message, refuses);
      MessageAccepted(start, log, message, refuses);
      ghost var events := Prefix(message, refuses);
      log := log + [Receipt(message)];
      Regroup(old(log), [Receipt(message)], Accepts(events), log, MessageLog(message, refuses));
      if message.decoded.None? {
        assert log + Accepts(events) == log;
        return false;
      }
      ok := Handle(message.decoded.value, refuses);
      if ok && message.lsn > clientLsn {
        clientLsn := message.lsn;
      }
    }

    method Receive(received: Received<Event>, refuses: Option<nat>) returns (ok: bool)
      requires Valid()
      modifies this`log, this`clientLsn
      ensures ok <==> received.Timeout? || (received.Got? && Whole(received.message, refuses))
      ensures log == old(log) + if received.Got? then MessageLog(received.message, refuses) else []
      ensures
        clientLsn == if ok && received.Got? then MaxLsn(old(clientLsn), received.message.lsn) else old(clientLsn)
      ensures AckSafe(start, log) && (ok ==> Valid())
    {
      match received {
        case Timeout => ok := true;
        case Broken => ok := false;
        case ServerError => ok := false;
        case Got(message) =>
          ok := HandleMessage(message, refuses);
      }
    }

    /** Sends the status if the turn finds it due. */
    method Acknowledge(turn: Turn<Event>) returns (ok: bool)
      requires Valid() && !turn.cancelled
      modifies this`log
      ensures Valid() && (ok <==> Receives(turn))
      ensures log == old(log) + AckLog(old(clientLsn), turn)
    {
      if turn.due {
        if turn.sendFails {
          return false;
        }
        SendStandbyStatus();
      }
      ok := true;
    }

    /** One turn of the loop. */
    method TakeTurn(turn: Turn<Event>) returns (end: Option<End>)
      requires Valid()
      modifies this`log, this`clientLsn
      ensures log == old(log) + TurnLog(old(clientLsn), turn)
      ensures clientLsn == TurnPosition(old(clientLsn), turn)
      ensures end.None? <==> GoesOn(turn)
      ensures end.Some? ==> end.value == if turn.cancelled then Cancelled else Failed
      ensures AckSafe(start, log) && (end.None? ==> Valid())
    {
      if turn.cancelled {
        return Some(Cancelled);
      }
      var ok := Acknowledge(turn);
      if !ok {
        return Some(Failed);
      }
      ghost var sent := log;
      ok := Receive(turn.received, turn.refuses);
      Regroup(old(log), AckLog(old(clientLsn), turn), ReceiptLog(turn), sent, TurnLog(old(clientLsn), turn));
      end := if ok then None else Some(Failed);
    }

    /**
     * The loop over the given turns: it does exactly what each turn asks for, in order, until the first that is
     * cancelled, fails to send a due status, or brings anything but a timeout or a message handled whole. Every status
     * it sends is safe.
     */
    method StreamLoop(turns: seq<Turn<Event>>) returns (end: End)
      requires Valid()
      modifies this`log, this`clientLsn
      ensures Outcome(log, clientLsn, end) == Loop(old(log), old(clientLsn), turns)
      ensures exists n: nat :: EndsAt(old(log), old(clientLsn), turns, n, Outcome(log, clientLsn, end))
      ensures end.Exhausted? <==> forall i | 0 <= i < |turns| :: Passes(turns[i])
      ensures AckSafe(start, log) && (end.Exhausted? ==> Valid())
    {
      for i := 0 to |turns|
        invariant Valid() && Loop(log, clientLsn, turns[i..]) == Loop(old(log), old(clientLsn), turns)
      {
        assert turns[i..][0] == turns[i] && turns[i..][1..] == turns[i + 1..];
        var stop := TakeTurn(turns[i]);
        if stop.Some? {
          LoopEndsSo(old(log), old(clientLsn), turns, Outcome(log, clientLsn, stop.value));
          return stop.value;
        }
      }
      end := Exhausted;
      LoopEndsSo(old(log), old(clientLsn), turns, Outcome(log, clientLsn, end));
    }
  }

  // ----- across connections

  /** The position the server has confirmed after a connection that started at `start`. */
  function Confirmed<E>(start: Lsn, log: seq<Entry<E>>): Lsn {
    if log == [] then start
    else
      match log[|log| - 1]
      case Acked(lsn) => lsn
      case _ => Confirmed(start, log[..|log| - 1])
  }

  /** What the server has confirmed is a position at which every message received until then had been handled. */
  lemma {:induction false} ConfirmedWasHandled<E>(start: Lsn, log: seq<Entry<E>>)
    requires AckSafe(start, log)
    ensures start <= Confirmed(start, log)
    ensures
      Confirmed(start, log) == start
      || exists i :: 0 <= i < |log| && CaughtUp(log[..i]) && Confirmed(start, log) == Position(start, log[..i])
  {
    if log == [] {
    } else {
      var n := |log| - 1;
      if log[n].Acked? {
        PositionGrows(start, log[..n], n);
        assert log[..n][..n] == log[..n];
      } else {
        assert forall i | 0 <= i < n :: log[..n][..i] == log[..i];
        ConfirmedWasHandled(start, log[..n]);
      }
    }
  }

  /** The log of one connection: what the loop over its turns does from `start` on, every status safe. */
  ghost predicate Session<E>(start: Lsn, turns: seq<Turn<E>>, log: seq<Entry<E>>) {
    log == Loop([], start, turns).log && AckSafe(start, log)
  }

  /** One connection and the position the next one resumes from. */
  ghost predicate Linked<E>(start: Lsn, turns: seq<Turn<E>>, log: seq<Entry<E>>, next: Lsn) {
    Session(start, turns, log) && next == Confirmed(start, log) && start <= next
  }

  method Connect<Event>(start: Lsn, turns: seq<Turn<Event>>) returns (log: seq<Entry<Event>>, next: Lsn)
    ensures Linked(start, turns, log, next)
  {
    var connection := new Connection<Event>(start);
    var _ := connection.StreamLoop(turns);
    log := connection.log;
    ConfirmedWasHandled(start, log);
    next := Confirmed(start, log);
  }

  lemma {:induction false} NeverGoesBack(starts: seq<Lsn>, i: nat, j: nat)
    requires forall k | 0 <= k < |starts| - 1 :: starts[k] <= starts[k + 1]
    requires i <= j < |starts|
    ensures starts[i] <= starts[j]
  {
    if i == j {
    } else {
      NeverGoesBack(starts, i, j - 1);
      assert starts[j - 1] <= starts[j - 1 + 1];
    }
  }

  /**
   * Connection after connection, each with its own log and resuming from what the server has confirmed on the one
   * before: the start never goes back.
   */
  method Reconnects<Event>(confirmed: Lsn, connections: seq<seq<Turn<Event>>>)
    returns (starts: seq<Lsn>, logs: seq<seq<Entry<Event>>>)
    ensures |starts| == |connections| + 1 && |logs| == |connections| && starts[0] == confirmed
    ensures forall k | 0 <= k < |logs| :: Linked(starts[k], connections[k], logs[k], starts[k + 1])
    ensures forall i, j | 0 <= i <= j < |starts| :: starts[i] <= starts[j]
  {
    starts, logs := [confirmed], [];
    for k := 0 to |connections|
      invariant |starts| == k + 1 && |logs| == k && starts[0] == confirmed
      invariant forall i | 0 <= i < k :: Linked(starts[i], connections[i], logs[i], starts[i + 1])
    {
      ghost var starts', logs' := starts, logs;
      var log, next := Connect(starts[k], connections[k]);
      starts, logs := starts + [next], logs + [log];
      forall i | 0 <= i <= k ensures Linked(starts[i], connections[i], logs[i], starts[i + 1]) {
        if i < k {
          assert starts[i] == starts'[i] && starts[i + 1] == starts'[i + 1] && logs[i] == logs'[i];
        }
      }
    }
    forall i, j | 0 <= i <= j < |starts| ensures starts[i] <= starts[j] {
      assert forall k | 0 <= k < |logs| :: Linked(starts[k], connections[k], logs[k], starts[k + 1]);
      NeverGoesBack(starts, i, j);
    }
  }
}
