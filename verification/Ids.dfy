/**
 Identifiers (logical ids, execution ids, run, attempt and project ids) are strings ordered
 the way Go compares strings.
 */
module Ids {
  type Id = string

  // a is at most b in the lexicographic order.
  predicate Le(a: Id, b: Id) {
    if a == [] then true
    else if b == [] then false
    else if a[0] != b[0] then a[0] < b[0]
    else Le(a[1..], b[1..])
  }

  predicate Lt(a: Id, b: Id) {
    a != b && Le(a, b)
  }

  lemma {:induction false} LeTotal(a: Id, b: Id)
    ensures Le(a, b) || Le(b, a)
  {
    if a != [] && b != [] && a[0] == b[0] {
      LeTotal(a[1..], b[1..]);
    }
  }

  lemma {:induction false} LeAntisymmetric(a: Id, b: Id)
    requires Le(a, b) && Le(b, a)
    ensures a == b
  {
    if a != [] && b != [] {
      LeAntisymmetric(a[1..], b[1..]);
      assert a == [a[0]] + a[1..] && b == [b[0]] + b[1..];
    }
  }

  lemma {:induction false} LeTransitive(a: Id, b: Id, c: Id)
    requires Le(a, b) && Le(b, c)
    ensures Le(a, c)
  {
    if a != [] && b != [] && c != [] && a[0] == b[0] == c[0] {
      LeTransitive(a[1..], b[1..], c[1..]);
    }
  }

  lemma LtTransitive(a: Id, b: Id, c: Id)
    requires (Le(a, b) && Lt(b, c)) || (Lt(a, b) && Le(b, c))
    ensures Lt(a, c)
  {
    LeTransitive(a, b, c);
    if a == c {
      LeAntisymmetric(a, b);
    }
  }

  // ---------------------------------------------------------------- sorted lists of ids

  ghost predicate Ascending(s: seq<Id>) {
    forall i, j :: 0 <= i < j < |s| ==> Lt(s[i], s[j])
  }

  ghost function Elements(s: seq<Id>): set<Id> {
    set x | x in s
  }

  ghost predicate NoDuplicates<T(!new)>(s: seq<T>) {
    forall i, j :: 0 <= i < j < |s| ==> s[i] != s[j]
  }

  // Puts x at its place: what appending and sorting again does to a sorted list.
  function Insert(s: seq<Id>, x: Id): seq<Id> {
    if s == [] then [x]
    else if Le(x, s[0]) then [x] + s
    else [s[0]] + Insert(s[1..], x)
  }

  lemma {:induction false} InsertKeeps(s: seq<Id>, x: Id)
    ensures Elements(Insert(s, x)) == Elements(s) + {x}
    ensures |Insert(s, x)| == |s| + 1
  {
    if s != [] && !Le(x, s[0]) {
      InsertKeeps(s[1..], x);
      assert s == [s[0]] + s[1..];
      assert Elements(s) == {s[0]} + Elements(s[1..]);
      assert Elements([s[0]] + Insert(s[1..], x)) == {s[0]} + Elements(Insert(s[1..], x));
    }
  }

  lemma {:induction false} InsertAscending(s: seq<Id>, x: Id)
    requires Ascending(s) && x !in s
    ensures Ascending(Insert(s, x))
  {
    if s == [] {
    } else if Le(x, s[0]) {
      forall j | 0 <= j < |s| ensures Lt(x, s[j]) {
        if j > 0 { LtTransitive(x, s[0], s[j]); }
      }
    } else {
      InsertAscending(s[1..], x);
      InsertKeeps(s[1..], x);
      LeTotal(x, s[0]);
      var rest := Insert(s[1..], x);
      forall j | 0 <= j < |rest| ensures Lt(s[0], rest[j]) {
        assert rest[j] in Elements(rest);
      }
    }
  }

  // The ids of a map in ascending order, however the map is iterated.
  method SortIds(ids: set<Id>) returns (s: seq<Id>)
    ensures Ascending(s) && Elements(s) == ids && |s| == |ids|
  {
    s := [];
    var rest := ids;
    while rest != {}
      invariant rest <= ids && Ascending(s) && Elements(s) == ids - rest && |s| == |ids| - |rest|
      decreases |rest|
    {
      var x :| x in rest;
      assert x !in Elements(s);
      InsertKeeps(s, x);
      InsertAscending(s, x);
      s := Insert(s, x);
      rest := rest - {x};
    }
  }

  // A set has only one ascending listing.
  lemma {:induction false} AscendingUnique(s: seq<Id>, t: seq<Id>)
    requires Ascending(s) && Ascending(t) && Elements(s) == Elements(t)
    ensures s == t
  {
    if s == [] {
      assert forall i :: 0 <= i < |t| ==> t[i] in Elements(s);
    } else {
      assert s[0] in Elements(s);
      if t == [] { return; }
      assert t[0] in Elements(t);
      var i :| 0 <= i < |t| && t[i] == s[0];
      var j :| 0 <= j < |s| && s[j] == t[0];
      if i > 0 && j > 0 { LeAntisymmetric(s[0], t[0]); }
      assert Elements(s[1..]) == Elements(s) - {s[0]} by { TailElements(s); }
      assert Elements(t[1..]) == Elements(t) - {t[0]} by { TailElements(t); }
      AscendingUnique(s[1..], t[1..]);
      assert s == [s[0]] + s[1..] && t == [t[0]] + t[1..];
    }
  }

  // The ids of a set in ascending order.
  ghost function Listing(ids: set<Id>): (s: seq<Id>)
    ensures Ascending(s) && Elements(s) == ids
  {
    ListingExists(ids);
    var s :| Ascending(s) && Elements(s) == ids;
    s
  }

  lemma {:induction false} ListingExists(ids: set<Id>)
    ensures exists s :: Ascending(s) && Elements(s) == ids
  {
    if ids == {} {
      assert Ascending([]) && Elements([]) == ids;
    } else {
      var x :| x in ids;
      ListingExists(ids - {x});
      var s :| Ascending(s) && Elements(s) == ids - {x};
      assert x !in Elements(s);
      InsertKeeps(s, x);
      InsertAscending(s, x);
      assert Elements(Insert(s, x)) == ids;
    }
  }

  lemma TailElements(s: seq<Id>)
    requires Ascending(s) && s != []
    ensures Elements(s[1..]) == Elements(s) - {s[0]}
  {
    forall x | x in Elements(s) - {s[0]} ensures x in s[1..] {
      var i :| 0 <= i < |s| && s[i] == x;
      assert s[1..][i - 1] == x;
    }
  }

  // A list without duplicates drawn from a finite set is no longer than the set.
  lemma {:induction false} Pigeonhole<T>(s: seq<T>, pool: set<T>)
    requires forall i :: 0 <= i < |s| ==> s[i] in pool
    requires forall i, j :: 0 <= i < j < |s| ==> s[i] != s[j]
    ensures |s| <= |pool|
    ensures |s| == |pool| ==> forall x :: x in pool ==> x in s
  {
    if s == [] {
    } else {
      var rest := s[..|s| - 1];
      var last := s[|s| - 1];
      Pigeonhole(rest, pool - {last});
      assert s == rest + [last];
    }
  }
}
