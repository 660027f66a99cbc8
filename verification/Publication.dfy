/** Bringing the replication publication in line with the watched tables (ensurePublication). */
module Publication {
  import opened Wrappers
  import opened Lists
  import opened Spec

  datatype Shape = Absent | AllTables | Scoped(tables: set<string>)

  datatype Ddl = CreateForAll | CreateFor(tables: seq<string>) | Drop | SetTables(tables: seq<string>)

  /** A statement is carried out, is refused, or is carried out but its reply is lost. */
  datatype Outcome = Done | Refused | ReplyLost

  /** What goes wrong during one attempt: the three queries fail or not, and the outcomes of up to two statements. */
  datatype Faults = Faults(tablesQuery: bool, stateQuery: bool, listQuery: bool, first: Outcome, second: Outcome)

  const NO_FAULTS := Faults(false, false, false, Done, Done)

  datatype Error =
    | UnsafeTable
    | NoTableExists
    | QueryFailed
    | DdlFailed
    | AutoCreateDisabled

  function Effect(shape: Shape, statement: Ddl): Shape {
    match statement
    case CreateForAll => AllTables
    case CreateFor(tables) => Scoped(ToSet(tables))
    case Drop => Absent
    case SetTables(tables) => Scoped(ToSet(tables))
  }

  /** The shape one attempt is after: the configured tables that exist, or every table if none is configured. */
  function Desired(tables: seq<string>, existing: set<string>): Shape {
    if tables == [] then AllTables else Scoped(ToSet(tables) * existing)
  }

  ghost predicate Creates(desired: Shape, statement: Ddl) {
    match desired
    case AllTables => statement.CreateForAll?
    case Scoped(tables) => statement.CreateFor? && ToSet(statement.tables) == tables
    case Absent => false
  }

  /**
   * The statements of an attempt, or the first of them: none for a shape already right, a create where there is no
   * publication, a new table list where both are scoped, and otherwise a drop and a create.
   */
  ghost predicate Planned(shape: Shape, desired: Shape, issued: seq<Ddl>) {
    if shape == desired then issued == []
    else if shape.Absent? then |issued| <= 1 && (|issued| == 1 ==> Creates(desired, issued[0]))
    else if shape.Scoped? && desired.Scoped? then
      |issued| <= 1 && (|issued| == 1 ==> issued[0].SetTables? && ToSet(issued[0].tables) == desired.tables)
    else
      && |issued| <= 2 && (|issued| >= 1 ==> issued[0].Drop?)
      && (|issued| == 2 ==> Creates(desired, issued[1]))
  }

  ghost predicate AllSafe(tables: seq<string>) { forall i | 0 <= i < |tables| :: ValidIdentifier(tables[i]) }

  /** Nothing about the configuration itself stops an attempt. */
  ghost predicate Usable(tables: seq<string>, existing: set<string>) {
    AllSafe(tables) && (tables == [] || ToSet(tables) * existing != {})
  }

  // ----- comparing table lists

  method EqualStringSets(a: seq<string>, b: seq<string>) returns (equal: bool)
    ensures equal == (|a| == |b| && ToSet(b) <= ToSet(a))
  {
    if |a| != |b| {
      return false;
    }
    var names: set<string> := {};
    for i := 0 to |a|
      invariant names == set n | n in a[..i]
    {
      assert a[..i + 1] == a[..i] + [a[i]];
      names := names + {a[i]};
    }
    assert a[..|a|] == a;
    for i := 0 to |b|
      invariant forall k | 0 <= k < i :: b[k] in names
    {
      if b[i] !in names {
        assert b[i] in ToSet(b);
        return false;
      }
    }
    equal := true;
  }

  /** The comparison is set equality on these two lists. */
  ghost predicate ComparesSets(a: seq<string>, b: seq<string>) {
    (|a| == |b| && ToSet(b) <= ToSet(a)) <==> ToSet(a) == ToSet(b)
  }

  /**
   * Against every duplicate-free list the comparison is set equality exactly if the other list is free of
   * duplicates too: with ["a", "b"] against ["a", "a"] it answers equal.
   */
  lemma EqualStringSetsExact(b: seq<string>)
    ensures (forall a | NoDuplicates(a) :: ComparesSets(a, b)) <==> NoDuplicates(b)
    ensures |["a", "b"]| == |["a", "a"]| && ToSet(["a", "a"]) <= ToSet(["a", "b"])
    ensures "b" in ToSet(["a", "b"]) && "b" !in ToSet(["a", "a"])
  {
    if NoDuplicates(b) {
      forall a | NoDuplicates(a) ensures ComparesSets(a, b) {
        DuplicateFreeListsCompare(a, b);
      }
    } else {
      var a := Distinct(b);
      DistinctLists(b);
      ListSize(a);
      ListSize(b);
      assert !ComparesSets(a, b);
    }
    assert ["a", "a"][0] == "a" && ["a", "a"][1] == "a";
    assert ["a", "b"][0] == "a" && ["a", "b"][1] == "b";
  }

  lemma DuplicateFreeListsCompare(a: seq<string>, b: seq<string>)
    requires NoDuplicates(a) && NoDuplicates(b)
    ensures ComparesSets(a, b)
  {
    ListSize(a);
    ListSize(b);
    if |a| == |b| && ToSet(b) <= ToSet(a) {
      assert |ToSet(a) - ToSet(b)| == 0;
    }
  }

  // ----- the server

  class Server {
    var shape: Shape
    var log: seq<Ddl>

    constructor (shape: Shape)
      ensures this.shape == shape && log == []
    {
      this.shape, log := shape, [];
    }

    /** A create is refused while the publication exists, an alter while it does not. */
    method Exec(statement: Ddl, outcome: Outcome) returns (ok: bool)
      modifies this
      ensures
        var legal := match statement
                     case Drop => true
                     case SetTables(_) => old(shape).Scoped?
                     case _ => old(shape).Absent?;
        && ok == (legal && outcome.Done?)
        && shape == (if legal && !outcome.Refused? then Effect(old(shape), statement) else old(shape))
      ensures log == old(log) + [statement]
    {
      log := log + [statement];
      var legal := match statement
                   case Drop => true
                   case SetTables(_) => shape.Scoped?
                   case _ => shape.Absent?;
      if !legal || outcome.Refused? {
        return false;
      }
      shape := Effect(shape, statement);
      ok := outcome.Done?;
    }

    /** The listed tables of a scoped publication, each once, in some order. */
    method CurrentTables() returns (listing: seq<string>)
      requires shape.Scoped?
      ensures NoDuplicates(listing) && ToSet(listing) == shape.tables
    {
      listing := [];
      var rest := shape.tables;
      while rest != {}
        invariant ToSet(listing) + rest == shape.tables && ToSet(listing) !! rest && NoDuplicates(listing)
        decreases rest
      {
        var n :| n in rest;
        assert n !in ToSet(listing);
        assert ToSet(listing + [n]) == ToSet(listing) + {n};
        listing, rest := listing + [n], rest - {n};
      }
    }
  }

  // ----- one attempt

  method IsSafeIdentifier(s: string) returns (safe: bool)
    ensures safe == ValidIdentifier(s)
  {
    if s == "" {
      return false;
    }
    for i := 0 to |s|
      invariant forall k | 0 <= k < i :: IsWordChar(s[k])
      invariant i > 0 ==> !IsDigit(s[0])
    {
      var c := s[i];
      if !(c == '_' || 'a' <= c <= 'z' || 'A' <= c <= 'Z' || (i > 0 && '0' <= c <= '9')) {
        return false;
      }
    }
    safe := true;
  }

  method ResolveDesiredTables(tables: seq<string>, existing: set<string>, fails: bool)
    returns (resolved: Result<seq<string>, Error>)
    requires NoDuplicates(tables)
    ensures resolved.Ok? ==>
      NoDuplicates(resolved.value) && ToSet(resolved.value) == ToSet(tables) * existing
    ensures resolved.Ok? <==> tables == [] || (!fails && ToSet(tables) * existing != {})
  {
    if |tables| == 0 {
      return Ok([]);
    }
    if fails {
      return Err(QueryFailed);
    }
    var found: seq<string> := [];
    for i := 0 to |tables|
      invariant NoDuplicates(found) && ToSet(found) == ToSet(tables[..i]) * existing
      invariant forall n | n in found :: n in tables[..i]
    {
      assert tables[..i + 1] == tables[..i] + [tables[i]];
      assert ToSet(tables[..i + 1]) == ToSet(tables[..i]) + {tables[i]};
      if tables[i] in existing {
        assert tables[i] !in found;
        assert ToSet(found + [tables[i]]) == ToSet(found) + {tables[i]};
        found := found + [tables[i]];
      }
    }
    assert tables[..|tables|] == tables;
    if |found| == 0 {
      assert ToSet(found) == {};
      return Err(NoTableExists);
    }
    assert found[0] in ToSet(found);
    resolved := Ok(found);
  }

  method SyncPublicationTables(server: Server, desired: seq<string>, autoCreate: bool, faults: Faults)
    returns (error: Option<Error>)
    requires server.shape.Scoped? && NoDuplicates(desired)
    modifies server
    ensures error.None? ==> server.shape == Scoped(ToSet(desired))
    ensures server.shape == old(server.shape) || server.shape == Scoped(ToSet(desired))
    ensures old(server.shape) == Scoped(ToSet(desired)) ==> server.log == old(server.log)
    ensures server.log == old(server.log) || server.log == old(server.log) + [SetTables(desired)]
    ensures !autoCreate ==> server.shape == old(server.shape) && server.log == old(server.log)
    ensures !faults.listQuery && (old(server.shape) == Scoped(ToSet(desired)) || (autoCreate && faults.first.Done?))
      ==> error.None?
  {
    if faults.listQuery {
      return Some(QueryFailed);
    }
    var current := server.CurrentTables();
    DuplicateFreeListsCompare(current, desired);
    var equal := EqualStringSets(current, desired);
    if equal {
      return None;
    }
    if !autoCreate {
      return Some(AutoCreateDisabled);
    }
    var ok := server.Exec(SetTables(desired), faults.first);
    error := if ok then None else Some(DdlFailed);
  }

  method Recreate(server: Server, statement: Ddl, faults: Faults) returns (error: Option<Error>)
    requires statement.CreateForAll? || statement.CreateFor?
    modifies server
    ensures error.None? ==> server.shape == Effect(Absent, statement)
    ensures server.shape in {old(server.shape), Absent, Effect(Absent, statement)}
    ensures server.log == old(server.log) + [Drop] || server.log == old(server.log) + [Drop, statement]
    ensures faults.first.Done? && faults.second.Done? ==> error.None?
  {
    var dropped := server.Exec(Drop, faults.first);
    if !dropped {
      return Some(DdlFailed);
    }
    var created := server.Exec(statement, faults.second);
    error := if created then None else Some(DdlFailed);
  }

  /**
   * One attempt. Success means exactly the desired shape. A failed attempt leaves the old shape, no publication or
   * the desired one. A shape that is already right draws no statement, and without auto-create none is ever issued.
   */
  method EnsurePublication(
    server: Server, tables: seq<string>, existing: set<string>, autoCreate: bool, faults: Faults)
    returns (error: Option<Error>)
    requires NoDuplicates(tables)
    modifies server
    ensures error.None? ==> server.shape == Desired(tables, existing)
    ensures server.shape in {old(server.shape), Absent, Desired(tables, existing)}
    ensures old(server.shape) == Desired(tables, existing) ==>
      server.log == old(server.log) && server.shape == old(server.shape)
    ensures old(server.log) <= server.log
    ensures Planned(old(server.shape), Desired(tables, existing), server.log[|old(server.log)|..])
    ensures !autoCreate ==> server.log == old(server.log) && server.shape == old(server.shape)
    ensures faults == NO_FAULTS && Usable(tables, existing) ==>
      (error.None? <==> autoCreate || old(server.shape) == Desired(tables, existing))
  {
    for i := 0 to |tables|
      invariant unchanged(server)
      invariant forall k | 0 <= k < i :: ValidIdentifier(tables[k])
    {
      var safe := IsSafeIdentifier(tables[i]);
      if !safe {
        return Some(UnsafeTable);
      }
    }
    var resolved := ResolveDesiredTables(tables, existing, faults.tablesQuery);
    if resolved.Err? {
      return Some(resolved.error);
    }
    var desired := resolved.value;
    var desiredAll := |tables| == 0;
    if faults.stateQuery {
      return Some(QueryFailed);
    }
    var present, currentAll := !server.shape.Absent?, server.shape.AllTables?;
    var create := if desiredAll then CreateForAll else CreateFor(desired);
    if !present {
      if !autoCreate {
        return Some(AutoCreateDisabled);
      }
      var created := server.Exec(create, faults.first);
      return if created then None else Some(DdlFailed);
    }
    if desiredAll && currentAll {
      return None;
    }
    if desiredAll != currentAll {
      if !autoCreate {
        return Some(AutoCreateDisabled);
      }
      error := Recreate(server, create, faults);
      return;
    }
    error := SyncPublicationTables(server, desired, autoCreate, faults);
  }

  /** An attempt with what goes wrong and the tables that exist then. */
  datatype Attempt = Attempt(faults: Faults, existing: set<string>)

  /** An attempt on which nothing goes wrong, with some configured table in existence. */
  ghost predicate Faultless(tables: seq<string>, attempt: Attempt) {
    attempt.faults == NO_FAULTS && Usable(tables, attempt.existing)
  }

  ghost predicate AlreadyRight(shape: Shape, tables: seq<string>, attempts: seq<Attempt>) {
    forall i | 0 <= i < |attempts| :: shape == Desired(tables, attempts[i].existing)
  }

  /** An attempt that is bound to succeed: faultless, and free to change the shape or with no need to. */
  ghost predicate Bound(shape: Shape, tables: seq<string>, autoCreate: bool, attempt: Attempt) {
    Faultless(tables, attempt) && (autoCreate || shape == Desired(tables, attempt.existing))
  }

  /**
   * Attempts one after the other, as the reconnect loop makes them, until one succeeds. Whatever failed midway and
   * whatever tables came and went, a success leaves exactly the shape desired then. One faultless attempt is enough
   * when auto-create is on or the shape is already the one it is after.
   */
  method Reconcile(server: Server, tables: seq<string>, autoCreate: bool, attempts: seq<Attempt>)
    returns (succeeded: bool, made: nat)
    requires NoDuplicates(tables)
    modifies server
    ensures succeeded ==>
      1 <= made <= |attempts| && server.shape == Desired(tables, attempts[made - 1].existing)
    ensures !autoCreate || AlreadyRight(old(server.shape), tables, attempts) ==>
      server.shape == old(server.shape) && server.log == old(server.log)
    ensures (exists i :: 0 <= i < |attempts| && Bound(old(server.shape), tables, autoCreate, attempts[i])) ==> succeeded
  {
    succeeded, made := false, 0;
    for i := 0 to |attempts|
      invariant made == i && !succeeded
      invariant !autoCreate || AlreadyRight(old(server.shape), tables, attempts) ==>
          server.shape == old(server.shape) && server.log == old(server.log)
      invariant forall k | 0 <= k < i :: !Bound(old(server.shape), tables, autoCreate, attempts[k])
    {
      made := i + 1;
      var error := EnsurePublication(server, tables, attempts[i].existing, autoCreate, attempts[i].faults);
      if error.None? {
        succeeded := true;
        return;
      }
    }
  }
}
