/** What the source asks of `sort.Slice` and `sort.Strings`: the elements it was given, in
    order. Under a strict total order only one listing has that property, so nothing that is
    sorted this way depends on the order a Go map was walked in. */
module Sorting {
  import opened Text

  /** `less` orders any two different members of `s`, one way only. */
  ghost predicate Orders<T(!new)>(less: (T, T) -> bool, s: set<T>) {
    && (forall x :: x in s ==> !less(x, x))
    && (forall x, y :: x in s && y in s && x != y ==> less(x, y) || less(y, x))
    && (forall x, y, z :: x in s && y in s && z in s && less(x, y) && less(y, z) ==> less(x, z))
  }

  ghost predicate Ascending<T(!new)>(less: (T, T) -> bool, s: seq<T>) {
    forall i, j :: 0 <= i < j < |s| ==> less(s[i], s[j])
  }

  function Members<T>(s: seq<T>): set<T> {
    set x | x in s
  }

  /** `s` lists every member of `of` exactly once, in order. */
  ghost predicate Ranks<T(!new)>(less: (T, T) -> bool, of: set<T>, s: seq<T>) {
    Ascending(less, s) && Members(s) == of
  }

  function Insert<T>(less: (T, T) -> bool, x: T, s: seq<T>): (r: seq<T>)
    ensures multiset(r) == multiset(s) + multiset{x}
  {
    if s == [] then [x]
    else if less(s[0], x) then
      assert s == [s[0]] + s[1..];
      [s[0]] + Insert(less, x, s[1..])
    else [x] + s
  }

  function Sort<T>(less: (T, T) -> bool, s: seq<T>): (r: seq<T>)
    ensures multiset(r) == multiset(s)
  {
    if s == [] then []
    else
      assert s == [s[0]] + s[1..];
      Insert(less, s[0], Sort(less, s[1..]))
  }

  lemma MembersOf<T>(a: seq<T>, b: seq<T>)
    requires multiset(a) == multiset(b)
    ensures Members(a) == Members(b)
  {
    forall x ensures x in a <==> x in b {
      assert x in a <==> x in multiset(a);
      assert x in b <==> x in multiset(b);
    }
  }

  lemma {:induction false} InsertAscends<T(!new)>(less: (T, T) -> bool, x: T, s: seq<T>)
    requires Orders(less, Members(s) + {x}) && x !in s && Ascending(less, s)
    ensures Ascending(less, Insert(less, x, s))
  {
    if s != [] {
      if less(s[0], x) {
        var rest := Insert(less, x, s[1..]);
        assert forall y :: y in s[1..] ==> y in s;
        InsertAscends(less, x, s[1..]);
        forall j | 0 <= j < |rest| ensures less(s[0], rest[j]) {
          assert rest[j] in multiset(rest);
          assert rest[j] == x || rest[j] in multiset(s[1..]);
        }
      } else {
        assert s[0] in Members(s);
        assert less(x, s[0]);
        forall j | 0 <= j < |s| ensures less(x, s[j]) {
          assert s[j] in Members(s);
        }
      }
    }
  }

  ghost predicate Distinct<T(!new)>(s: seq<T>) {
    forall i, j :: 0 <= i < j < |s| ==> s[i] != s[j]
  }

  lemma OrdersWithin<T(!new)>(less: (T, T) -> bool, of: set<T>, part: set<T>)
    requires Orders(less, of) && part <= of
    ensures Orders(less, part)
  {
  }

  /** Sorting a duplicate-free list ranks its members. */
  lemma {:induction false} SortRanks<T(!new)>(less: (T, T) -> bool, s: seq<T>)
    requires Orders(less, Members(s)) && Distinct(s)
    ensures Ranks(less, Members(s), Sort(less, s))
  {
    hide Orders, Insert;
    MembersOf(s, Sort(less, s));
    if s != [] {
      var tail, rest := s[1..], Sort(less, s[1..]);
      MembersOf(tail, rest);
      assert Members(s) == Members(tail) + {s[0]} by {
        assert s == [s[0]] + tail;
      }
      OrdersWithin(less, Members(s), Members(tail));
      SortRanks(less, tail);
      assert s[0] !in Members(tail);
      InsertAscends(less, s[0], rest);
    }
  }

  /** There is only one ranking: the result of a sort does not depend on the input order. */
  lemma {:induction false} RankingUnique<T(!new)>(less: (T, T) -> bool, of: set<T>, a: seq<T>, b: seq<T>)
    requires Orders(less, of) && Ranks(less, of, a) && Ranks(less, of, b)
    ensures a == b
  {
    if a == [] {
      if b != [] { MembersOfSome(b); }
    } else {
      assert a[0] in Members(a);
      assert b != [];
      assert b[0] in Members(b);
      RankingHead(less, of, a, b);
      forall s: seq<T> | s == a || s == b ensures Members(s[1..]) == of - {a[0]} {
        assert s == [s[0]] + s[1..];
        assert forall i :: 1 <= i < |s| ==> less(s[0], s[i]);
        assert forall x :: x in s[1..] ==> x in Members(s);
      }
      RankingUnique(less, of - {a[0]}, a[1..], b[1..]);
      assert a == [a[0]] + a[1..] && b == [b[0]] + b[1..];
    }
  }

  lemma MembersOfSome<T>(s: seq<T>)
    requires s != []
    ensures s[0] in Members(s)
  {
  }

  lemma RankingHead<T(!new)>(less: (T, T) -> bool, of: set<T>, a: seq<T>, b: seq<T>)
    requires Orders(less, of) && Ranks(less, of, a) && Ranks(less, of, b) && a != [] && b != []
    ensures a[0] == b[0]
  {
    assert a[0] in Members(b) && b[0] in Members(a);
    var i :| 0 <= i < |b| && b[i] == a[0];
    var j :| 0 <= j < |a| && a[j] == b[0];
  }

  /** `records[:limit]`, where a limit of zero or less means no limit. */
  function Limited<T>(s: seq<T>, limit: int): seq<T> {
    if 0 < limit < |s| then s[..limit] else s
  }

  // ---------------------------------------------------------------- identifiers

  lemma LessOrders(ids: set<string>)
    ensures Orders(Less, ids)
  {
    forall x | x in ids ensures !Less(x, x) { LessIrreflexive(x); }
    forall x, y | x in ids && y in ids && x != y ensures Less(x, y) || Less(y, x) { LessTotal(x, y); }
    forall x, y, z | x in ids && y in ids && z in ids && Less(x, y) && Less(y, z) ensures Less(x, z) {
      LessTransitive(x, y, z);
    }
  }

  predicate IsLeast(ids: set<string>, x: string) {
    x in ids && forall y :: y in ids ==> y == x || Less(x, y)
  }

  lemma LeastExists(ids: set<string>)
    requires ids != {}
    ensures exists x :: IsLeast(ids, x)
  {
    hide Less;
    var x :| x in ids;
    var rest := ids - {x};
    if rest == {} {
      assert forall y :: y in ids ==> y == x || y in rest;
      assert IsLeast(ids, x);
    } else {
      LeastExists(rest);
      var m :| IsLeast(rest, m);
      LessTotal(m, x);
      if Less(m, x) { assert IsLeast(ids, m); } else { LeastBelow(ids, rest, m, x); }
    }
  }

  lemma LeastBelow(ids: set<string>, rest: set<string>, m: string, x: string)
    requires IsLeast(rest, m) && ids == rest + {x} && Less(x, m)
    ensures IsLeast(ids, x)
  {
    hide Less;
    forall y | y in ids ensures y == x || Less(x, y) {
      if y != x && y != m { LessTransitive(x, m, y); }
    }
  }

  lemma LeastUnique(ids: set<string>)
    ensures forall x, y :: IsLeast(ids, x) && IsLeast(ids, y) ==> x == y
  {
    hide Less;
    forall x, y | IsLeast(ids, x) && IsLeast(ids, y) ensures x == y {
      LessIrreflexive(x);
      if x != y { LessTransitive(x, y, x); }
    }
  }

  function Least(ids: set<string>): (x: string)
    requires ids != {}
    ensures x in ids && forall y :: y in ids ==> y == x || Less(x, y)
  {
    hide Less;
    LeastExists(ids);
    LeastUnique(ids);
    var x :| IsLeast(ids, x);
    x
  }

  /** The keys of a Go map after `sort.Strings`. */
  function SortedIDs(ids: set<string>): (s: seq<string>)
    ensures Members(s) == ids
    ensures |s| == |ids|
  {
    hide Less;
    if ids == {} then []
    else
      var x := Least(ids);
      var rest := SortedIDs(ids - {x});
      assert Members([x] + rest) == {x} + Members(rest);
      [x] + rest
  }

  lemma {:induction false} SortedIDsRank(ids: set<string>)
    ensures Ranks(Less, ids, SortedIDs(ids))
  {
    hide Less;
    if ids != {} {
      var x := Least(ids);
      SortedIDsRank(ids - {x});
      var s, rest := SortedIDs(ids), SortedIDs(ids - {x});
      assert s == [x] + rest;
      forall j | 0 <= j < |rest| ensures Less(x, rest[j]) {
        assert rest[j] in Members(rest);
      }
    }
  }

  lemma AscendingDistinct<T(!new)>(less: (T, T) -> bool, s: seq<T>)
    requires Ascending(less, s) && Orders(less, Members(s))
    ensures Distinct(s)
  {
    forall i, j | 0 <= i < j < |s| ensures s[i] != s[j] {
      assert s[i] in Members(s);
    }
  }

  // ---------------------------------------------------------------- orders with ties

  /** `less` may tie different values, but ties are consistent. */
  ghost predicate Weak<T(!new)>(less: (T, T) -> bool) {
    && (forall x, y :: less(x, y) ==> !less(y, x))
    && (forall x, y, z :: !less(x, y) && !less(y, z) ==> !less(x, z))
  }

  ghost predicate Ordered<T(!new)>(less: (T, T) -> bool, s: seq<T>) {
    forall i, j :: 0 <= i < j < |s| ==> !less(s[j], s[i])
  }

  lemma {:induction false} InsertKeepsOrder<T(!new)>(less: (T, T) -> bool, x: T, s: seq<T>)
    requires Weak(less) && Ordered(less, s)
    ensures Ordered(less, Insert(less, x, s))
  {
    if s != [] && less(s[0], x) {
      var rest := Insert(less, x, s[1..]);
      InsertKeepsOrder(less, x, s[1..]);
      forall j | 0 <= j < |rest| ensures !less(rest[j], s[0]) {
        assert rest[j] in multiset(rest);
        assert rest[j] == x || rest[j] in multiset(s[1..]);
      }
    }
  }

  lemma {:induction false} SortOrders<T(!new)>(less: (T, T) -> bool, s: seq<T>)
    requires Weak(less)
    ensures Ordered(less, Sort(less, s))
  {
    if s != [] {
      SortOrders(less, s[1..]);
      InsertKeepsOrder(less, s[0], Sort(less, s[1..]));
    }
  }

  /** Two ordered listings of the same strings, under an order that ties no two different
      ones, are equal. */
  lemma {:induction false} OrderedUnique(less: (string, string) -> bool, a: seq<string>, b: seq<string>)
    requires Weak(less) && Ordered(less, a) && Ordered(less, b) && multiset(a) == multiset(b)
    requires forall x, y :: x in a && y in a && !less(x, y) && !less(y, x) ==> x == y
    ensures a == b
  {
    assert |a| == |multiset(a)| && |b| == |multiset(b)|;
    if a != [] {
      assert a[0] in multiset(b) && b[0] in multiset(a);
      assert !less(a[0], b[0]) && !less(b[0], a[0]);
      assert a == [a[0]] + a[1..] && b == [b[0]] + b[1..];
      TailsPermute(a, b);
      forall x, y | x in a[1..] && y in a[1..] && !less(x, y) && !less(y, x) ensures x == y {
        assert x in a && y in a;
      }
      OrderedUnique(less, a[1..], b[1..]);
    }
  }

  lemma TailsPermute(a: seq<string>, b: seq<string>)
    requires a != [] && b != [] && a[0] == b[0] && multiset(a) == multiset(b)
    ensures multiset(a[1..]) == multiset(b[1..])
  {
    assert a == [a[0]] + a[1..] && b == [b[0]] + b[1..];
    assert multiset(a[1..]) == multiset(a) - multiset{a[0]};
    assert multiset(b[1..]) == multiset(b) - multiset{b[0]};
  }
}
