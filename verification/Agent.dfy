/** The agent keeps the publication in line with the tables its definitions watch (runReader). */
module Agent {
  import opened Wrappers
  import opened Lists
  import opened Spec
  import opened Definitions
  import opened Publication

  ghost predicate IsWatched(definitions: seq<Query>, table: string) {
    QualifiedTable(table) in ConfigOf(definitions).watches
  }

  /** The watched tables that exist, or every table if nothing is watched. */
  ghost function WatchedShape(definitions: seq<Query>, existing: set<string>): Shape {
    if ConfigOf(definitions).watches.Keys == {} then AllTables
    else Scoped(set t | t in existing && IsWatched(definitions, t))
  }

  lemma WatchedIsDesired(definitions: seq<Query>, tables: seq<string>, existing: set<string>)
    requires ValidDefinitions(definitions)
    requires forall t :: t in tables <==> IsWatched(definitions, t)
    ensures Desired(tables, existing) == WatchedShape(definitions, existing)
  {
    ValidDefinitionsAreWellFormed(definitions);
    var watches := ConfigOf(definitions).watches;
    if watches.Keys != {} {
      var key :| key in watches.Keys;
      assert RefFits(ConfigOf(definitions).queries, key, watches[key][0]);
      assert watches[key][0].watch.table in tables;
    }
    if tables != [] {
      assert IsWatched(definitions, tables[0]);
    }
    assert ToSet(tables) * existing == set t | t in existing && IsWatched(definitions, t);
  }

  /** Nothing goes wrong on the attempt, and if anything is watched then some watched table exists. */
  ghost predicate CanSucceed(definitions: seq<Query>, attempt: Attempt) {
    attempt.faults == NO_FAULTS && WatchedShape(definitions, attempt.existing) != Scoped({})
  }

  /**
   * The reader's attempts for the watched tables, with auto-create on. A success publishes exactly the watched tables
   * that exist, one attempt on which nothing goes wrong is enough, and a publication already right is left alone.
   */
  method PublishWatched(server: Server, definitions: seq<Query>, attempts: seq<Attempt>)
    returns (succeeded: bool, made: nat)
    requires ValidDefinitions(definitions)
    modifies server
    ensures succeeded ==>
      1 <= made <= |attempts| && server.shape == WatchedShape(definitions, attempts[made - 1].existing)
    ensures (exists i :: 0 <= i < |attempts| && CanSucceed(definitions, attempts[i])) ==> succeeded
    ensures (forall i | 0 <= i < |attempts| :: old(server.shape) == WatchedShape(definitions, attempts[i].existing)) ==>
      server.shape == old(server.shape) && server.log == old(server.log)
  {
    ValidDefinitionsAreWellFormed(definitions);
    var tables := WatchedTables(ConfigOf(definitions));
    forall i | 0 <= i < |attempts|
      ensures Desired(tables, attempts[i].existing) == WatchedShape(definitions, attempts[i].existing)
      ensures CanSucceed(definitions, attempts[i]) ==> Faultless(tables, attempts[i])
    {
      WatchedIsDesired(definitions, tables, attempts[i].existing);
    }
    ghost var shape := server.shape;
    assert forall i | 0 <= i < |attempts| && CanSucceed(definitions, attempts[i]) ::
        Bound(shape, tables, true, attempts[i]);
    succeeded, made := Reconcile(server, tables, true, attempts);
  }
}
