/** The cap on reverse-index results (Executor.RunKeys). */
module Executor {
  import opened Wrappers
  import opened Spec
  import opened Values
  import opened Units

  /** A row the cursor delivers, or one whose values cannot be scanned. */
  datatype Fetched = Row(values: seq<Value>) | Unscannable

  /** What the database does with the query; `broken` says the cursor ends with an error. */
  datatype Reply = QueryFails | Cursor(fetched: seq<Fetched>, broken: bool)

  ghost predicate AllRows(fetched: seq<Fetched>) { forall i | 0 <= i < |fetched| :: fetched[i].Row? }

  ghost function RowsOf(fetched: seq<Fetched>): (rows: seq<seq<Value>>)
    requires AllRows(fetched)
    ensures |rows| == |fetched|
  {
    seq(|fetched|, i requires 0 <= i < |fetched| => fetched[i].values)
  }

  /** How many rows a cap lets through: none if it is negative. */
  function Through(maxKeys: int): nat { if maxKeys < 0 then 0 else maxKeys }

  /** All the rows within the cap, or an error: a truncated set is never returned, and the errors are exact. */
  method RunKeys(reply: Reply, maxKeys: int) returns (answer: KeysAnswer)
    ensures answer.Rows? <==>
      reply.Cursor? && |reply.fetched| <= Through(maxKeys) && AllRows(reply.fetched) && !reply.broken
    ensures answer.Rows? ==> AllRows(reply.fetched) && answer.rows == RowsOf(reply.fetched)
    ensures answer.TooManyKeys? <==>
      reply.Cursor? && |reply.fetched| > Through(maxKeys) && AllRows(reply.fetched[..Through(maxKeys)])
  {
    if reply.QueryFails? {
      return KeysError;
    }
    var results: seq<seq<Value>> := [];
    for i := 0 to |reply.fetched|
      invariant i == |results| <= Through(maxKeys)
      invariant forall k | 0 <= k < i :: reply.fetched[k] == Row(results[k])
    {
      if |results| >= maxKeys {
        return TooManyKeys;
      }
      if reply.fetched[i].Unscannable? {
        assert |reply.fetched| > maxKeys ==> reply.fetched[..maxKeys][i] == reply.fetched[i];
        return KeysError;
      }
      results := results + [reply.fetched[i].values];
    }
    if reply.broken {
      return KeysError;
    }
    assert results == RowsOf(reply.fetched);
    answer := Rows(results);
  }

  /** The run of a watch's reverse index: what the cursor holds, capped at the watch's own cap or 100 without one. */
  method KeysFor(watch: Watch, reply: Reply) returns (answer: KeysAnswer)
    ensures answer.Rows? ==>
      reply.Cursor? && |reply.fetched| <= Through(if watch.maxKeys != 0 then watch.maxKeys else 100)
      && AllRows(reply.fetched) && answer.rows == RowsOf(reply.fetched)
    ensures reply.Cursor? && AllRows(reply.fetched) && !reply.broken ==> answer == Capped(watch, RowsOf(reply.fetched))
  {
    var maxKeys := watch.maxKeys;
    if maxKeys == 0 {
      maxKeys := DEFAULT_MAX_KEYS;
    }
    answer := RunKeys(reply, maxKeys);
  }
}
