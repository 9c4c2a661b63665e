/** Ascending lists of distinct numbers: the days of a time series, the indices of a list. */
module AscendingLists {

  ghost predicate Ascending(points: seq<int>) {
    forall i, j :: 0 <= i < j < |points| ==> points[i] < points[j]
  }

  /** Inserts a date into an ascending list unless it is there. */
  function Insert(points: seq<int>, d: int): seq<int> {
    if points == [] then [d]
    else
      var last := points[|points| - 1];
      if last < d then points + [d]
      else if last == d then points
      else Insert(points[..|points| - 1], d) + [last]
  }

  lemma {:induction false} InsertMembers(points: seq<int>, d: int, x: int)
    ensures x in Insert(points, d) <==> x in points || x == d
  {
    if points != [] {
      var front, last := points[..|points| - 1], points[|points| - 1];
      InsertMembers(front, d, x);
      assert points == front + [last];
    }
  }

  lemma {:induction false} InsertAscends(points: seq<int>, d: int)
    requires Ascending(points)
    ensures Ascending(Insert(points, d))
  {
    if points != [] && points[|points| - 1] > d {
      var front, last := points[..|points| - 1], points[|points| - 1];
      InsertAscends(front, d);
      var inserted := Insert(front, d);
      forall i | 0 <= i < |inserted| ensures inserted[i] < last {
        InsertMembers(front, d, inserted[i]);
      }
    }
  }

  lemma DropLast(a: seq<int>, z: int)
    requires Ascending(a) && a != []
    ensures z in a[..|a| - 1] <==> z in a && z != a[|a| - 1]
  {
    assert a == a[..|a| - 1] + [a[|a| - 1]];
  }

  lemma {:induction false} AscendingUnique(a: seq<int>, b: seq<int>)
    requires Ascending(a) && Ascending(b) && forall x :: x in a <==> x in b
    ensures a == b
  {
    assert a != [] ==> a[0] in a;
    assert b != [] ==> b[0] in b;
    if a != [] && b != [] {
      var x, y, a', b' := a[|a| - 1], b[|b| - 1], a[..|a| - 1], b[..|b| - 1];
      assert x in a && y in b;
      assert x == y;
      forall z: int ensures z in a' <==> z in b' {
        DropLast(a, z);
        DropLast(b, z);
      }
      AscendingUnique(a', b');
      assert a == a' + [x] && b == b' + [y];
    }
  }
}
