/** Lists of names: duplicates, elements and order. */
module Lists {
  // ----- duplicates and elements

  ghost predicate NoDuplicates(names: seq<string>) {
    forall i, j | 0 <= i < j < |names| :: names[i] != names[j]
  }

  function ToSet(names: seq<string>): set<string> { set n | n in names }

  lemma NoDuplicatesNext(names: seq<string>, name: string)
    ensures NoDuplicates(names + [name]) <==> NoDuplicates(names) && name !in names
  {
    var longer := names + [name];
    if NoDuplicates(longer) {
      forall i | 0 <= i < |names| ensures names[i] != name {
        assert longer[i] != longer[|names|];
      }
      forall i, j | 0 <= i < j < |names| ensures names[i] != names[j] {
        assert longer[i] != longer[j];
      }
    } else {
      var i, j :| 0 <= i < j < |longer| && longer[i] == longer[j];
      assert longer[i] == names[i];
      assert j < |names| ==> longer[j] == names[j];
    }
  }

  lemma {:induction false} ListSize(names: seq<string>)
    ensures |ToSet(names)| <= |names|
    ensures NoDuplicates(names) <==> |ToSet(names)| == |names|
  {
    if names == [] {
    } else {
      var n := |names| - 1;
      ListSize(names[..n]);
      NoDuplicatesNext(names[..n], names[n]);
      assert names == names[..n] + [names[n]];
      assert ToSet(names) == ToSet(names[..n]) + {names[n]};
      assert names[n] in names[..n] <==> names[n] in ToSet(names[..n]);
    }
  }

  lemma SameElements(a: seq<string>, b: seq<string>)
    requires multiset(a) == multiset(b)
    ensures ToSet(a) == ToSet(b) && (NoDuplicates(a) <==> NoDuplicates(b))
  {
    assert forall n :: n in a <==> n in multiset(a);
    assert forall n :: n in b <==> n in multiset(b);
    assert |a| == |multiset(a)| && |b| == |multiset(b)|;
    ListSize(a);
    ListSize(b);
  }

  /** Each name once, where it first occurs. */
  function Distinct(names: seq<string>): seq<string> {
    if names == [] then []
    else
      var n := |names| - 1;
      Distinct(names[..n]) + if names[n] in names[..n] then [] else [names[n]]
  }

  lemma {:induction false} DistinctLists(names: seq<string>)
    ensures NoDuplicates(Distinct(names)) && ToSet(Distinct(names)) == ToSet(names)
  {
    if names == [] {
    } else {
      var n := |names| - 1;
      DistinctLists(names[..n]);
      assert names == names[..n] + [names[n]];
      assert forall m :: m in Distinct(names[..n]) <==> m in ToSet(names[..n]);
      NoDuplicatesNext(Distinct(names[..n]), names[n]);
    }
  }

  // ----- sorting strings

  /** Lexicographic order by code point, which is the order of the UTF-8 bytes. */
  predicate Less(a: string, b: string) {
    b != "" && (a == "" || a[0] < b[0] || (a[0] == b[0] && Less(a[1..], b[1..])))
  }

  /** The strings agree up to `k`, where the first has ended or has the smaller character. */
  ghost predicate LessAt(a: string, b: string, k: nat) {
    && k <= |a| && k < |b| && a[..k] == b[..k]
    && (k == |a| || a[k] < b[k])
  }

  lemma {:induction false} LessExactly(a: string, b: string)
    ensures Less(a, b) <==> exists k: nat :: LessAt(a, b, k)
  {
    if a != "" && b != "" && a[0] == b[0] {
      LessExactly(a[1..], b[1..]);
      if k: nat :| LessAt(a, b, k) {
        LessAtNext(a, b, k - 1);
        assert LessAt(a[1..], b[1..], k - 1);
      }
      if k: nat :| LessAt(a[1..], b[1..], k) {
        LessAtNext(a, b, k);
        assert LessAt(a, b, k + 1);
      }
    } else if b != "" {
      assert (a == "" || a[0] < b[0]) ==> LessAt(a, b, 0);
      forall k: nat ensures LessAt(a, b, k) && k > 0 ==> a != "" && a[0] == b[0] {
        FirstAgrees(a, b, k);
      }
    }
  }

  lemma FirstAgrees(a: string, b: string, k: nat)
    ensures LessAt(a, b, k) && k > 0 ==> a != "" && b != "" && a[0] == b[0]
  {
    if LessAt(a, b, k) && k > 0 {
      assert a[0] == a[..k][0] && b[0] == b[..k][0];
    }
  }

  lemma LessAtNext(a: string, b: string, k: nat)
    requires a != "" && b != "" && a[0] == b[0]
    ensures LessAt(a, b, k + 1) <==> LessAt(a[1..], b[1..], k)
  {
    if k < |a| && k + 1 <= |b| {
      assert a[..k + 1] == [a[0]] + a[1..][..k] && b[..k + 1] == [b[0]] + b[1..][..k];
      assert a[..k + 1][1..] == a[1..][..k] && b[..k + 1][1..] == b[1..][..k];
    }
  }

  ghost predicate Sorted(names: seq<string>) { forall i, j | 0 <= i < j < |names| :: !Less(names[j], names[i]) }

  lemma {:induction false} LessIsAsymmetric(a: string, b: string)
    requires Less(a, b)
    ensures !Less(b, a)
  {
    if a == "" || a[0] < b[0] {
    } else {
      LessIsAsymmetric(a[1..], b[1..]);
    }
  }

  lemma {:induction false} LessIsTransitive(a: string, b: string, c: string)
    requires Less(a, b) && Less(b, c)
    ensures Less(a, c)
  {
    if a == "" || a[0] < b[0] || b[0] < c[0] {
    } else {
      LessIsTransitive(a[1..], b[1..], c[1..]);
    }
  }

  /** A sorted list stays sorted with `name` put before the first greater element. */
  lemma InsertSorted(names: seq<string>, k: nat, name: string)
    requires Sorted(names) && k <= |names| && (forall i | 0 <= i < k :: !Less(name, names[i]))
    requires k < |names| ==> Less(name, names[k])
    ensures Sorted(names[..k] + [name] + names[k..])
    ensures multiset(names[..k] + [name] + names[k..]) == multiset(names) + multiset{name}
  {
    assert names == names[..k] + names[k..];
    forall j | k <= j < |names| ensures !Less(names[j], name) {
      if Less(names[j], name) {
        LessIsTransitive(names[j], name, names[k]);
        if j == k {
          LessIsAsymmetric(name, names[k]);
        }
      }
    }
  }

  method Sort(names: seq<string>) returns (sorted: seq<string>)
    ensures Sorted(sorted) && multiset(sorted) == multiset(names)
  {
    sorted := [];
    for i := 0 to |names|
      invariant Sorted(sorted) && multiset(sorted) == multiset(names[..i])
    {
      var k := 0;
      while k < |sorted| && !Less(names[i], sorted[k])
        invariant k <= |sorted| && forall j | 0 <= j < k :: !Less(names[i], sorted[j])
      {
        k := k + 1;
      }
      InsertSorted(sorted, k, names[i]);
      assert names[..i + 1] == names[..i] + [names[i]];
      sorted := sorted[..k] + [names[i]] + sorted[k..];
    }
    assert names[..|names|] == names;
  }
}
