/** The waits between reconnect attempts (reader.start). */
module Backoff {
  /** How one cycle of the reader loop ends. */
  datatype Cycle = ConnectFails | SetupFails | StreamFails | StreamEnds

  function Min(a: int, b: int): int { if a < b then a else b }

  function Pow2(k: nat): nat { if k == 0 then 1 else 2 * Pow2(k - 1) }

  /** The failed cycles since streaming last began, not counting cycle `i`; a stream failure is the first one. */
  function FailuresBefore(cycles: seq<Cycle>, i: nat): nat
    requires i < |cycles|
  {
    if i == 0 || cycles[i].StreamFails? then 0 else FailuresBefore(cycles, i - 1) + 1
  }

  /** The wait after the k-th consecutive failure, counted from 0. */
  function Wait(initial: nat, max: nat, k: nat): int {
    if k == 0 then initial else Min(initial * Pow2(k), max)
  }

  lemma DoubledWait(initial: nat, max: nat, k: nat)
    ensures Wait(initial, max, 0) == initial && Wait(initial, max, k + 1) == Min(Wait(initial, max, k) * 2, max)
  {
    assert initial * Pow2(k + 1) == initial * Pow2(k) * 2;
  }

  /** Cycle `i` fails, `k` cycles after the last one on which streaming began, or after the first cycle of all. */
  ghost predicate FailsSince(cycles: seq<Cycle>, i: nat, k: nat) {
    && k <= i < |cycles|
    && (k == i || cycles[i - k].StreamFails?)
    && forall j | i - k < j <= i :: !cycles[j].StreamFails?
  }

  lemma {:induction false} FailuresSince(cycles: seq<Cycle>, i: nat)
    requires i < |cycles|
    ensures FailsSince(cycles, i, FailuresBefore(cycles, i))
  {
    if i > 0 && !cycles[i].StreamFails? {
      FailuresSince(cycles, i - 1);
    }
  }

  /** There is only one such number, so the wait depends on nothing else. */
  lemma OneFailsSince(cycles: seq<Cycle>, i: nat, k: nat, m: nat)
    requires FailsSince(cycles, i, k) && FailsSince(cycles, i, m)
    ensures k == m
  {
  }

  /** The wait is the one after `k` failures since streaming last began. */
  ghost predicate WaitsAfter(cycles: seq<Cycle>, i: nat, initial: nat, max: nat, wait: int) {
    exists k: nat :: FailsSince(cycles, i, k) && wait == Wait(initial, max, k)
  }

  lemma AllWaitAfter(cycles: seq<Cycle>, initial: nat, max: nat, waits: seq<int>)
    requires |waits| <= |cycles|
    requires forall i | 0 <= i < |waits| :: waits[i] == Wait(initial, max, FailuresBefore(cycles, i))
    ensures forall i | 0 <= i < |waits| :: WaitsAfter(cycles, i, initial, max, waits[i])
  {
    forall i | 0 <= i < |waits| ensures WaitsAfter(cycles, i, initial, max, waits[i]) {
      FailuresSince(cycles, i);
    }
  }

  /** Runs the loop over the given cycles and returns the wait after each failed one. */
  method Start(cycles: seq<Cycle>, initial: nat, max: nat) returns (waits: seq<int>)
    ensures |waits| <= |cycles|
    ensures |waits| < |cycles| ==> cycles[|waits|].StreamEnds?
    ensures forall i | 0 <= i < |waits| ::
        !cycles[i].StreamEnds? && waits[i] == Wait(initial, max, FailuresBefore(cycles, i))
    ensures forall i | 0 <= i < |waits| :: WaitsAfter(cycles, i, initial, max, waits[i])
  {
    var backoff: int := initial;
    waits := [];
    for i := 0 to |cycles|
      invariant |waits| == i
      invariant forall k | 0 <= k < i ::
          !cycles[k].StreamEnds? && waits[k] == Wait(initial, max, FailuresBefore(cycles, k))
      invariant backoff == if i == 0 then initial else Wait(initial, max, FailuresBefore(cycles, i - 1) + 1)
    {
      if cycles[i].StreamFails? || cycles[i].StreamEnds? {
        backoff := initial;
      }
      if cycles[i].StreamEnds? {
        AllWaitAfter(cycles, initial, max, waits);
        return;
      }
      waits := waits + [backoff];
      DoubledWait(initial, max, FailuresBefore(cycles, i));
      backoff := Min(backoff * 2, max);
    }
    AllWaitAfter(cycles, initial, max, waits);
  }

  /** The wait is min(initial * 2^k, max) for every k exactly if the initial wait is within the cap. */
  lemma ClosedForm(initial: nat, max: nat)
    ensures (forall k: nat :: Wait(initial, max, k) == Min(initial * Pow2(k), max)) <==> initial <= max
  {
    assert Pow2(0) == 1;
    if initial > max {
      assert Wait(initial, max, 0) != Min(initial * Pow2(0), max);
    }
  }
}
