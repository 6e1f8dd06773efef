/** A set's ids, listed in id order; and the sizes of small sets. */
module Listings {
  predicate Ascending(t: seq<int>) {
    forall i, j | 0 <= i < j < |t| :: t[i] < t[j]
  }

  lemma AscendsFurther(t: seq<int>, x: int)
    requires Ascending(t) && forall y | y in t :: y < x
    ensures Ascending(t + [x])
  {
    forall i, j | 0 <= i < j < |t + [x]| ensures (t + [x])[i] < (t + [x])[j] {
      assert t[i] in t;
    }
  }

  /** `t` lists exactly the ids of `s`, in id order. */
  ghost predicate InOrder(t: seq<int>, s: set<int>) {
    && |t| == |s|
    && (forall x :: x in t <==> x in s)
    && Ascending(t)
  }

  /** The ids of a set, in order, as a query ordered by id returns them. */
  function SortedIds(s: set<int>): (t: seq<int>)
    ensures |t| == |s| && InOrder(t, s)
  {
    if |s| == 0 then []
    else
      LeastExists(s);
      var x := Least(s);
      LeastFirst(x, SortedIds(s - {x}), s);
      [x] + SortedIds(s - {x})
  }

  function Least(s: set<int>): (x: int)
    requires |s| > 0
    ensures x in s && forall y | y in s :: x <= y
  {
    LeastExists(s);
    var x :| x in s && forall y | y in s :: x <= y;
    x
  }

  lemma LeastFirst(x: int, rest: seq<int>, s: set<int>)
    requires x in s && (forall y | y in s :: x <= y) && InOrder(rest, s - {x})
    ensures InOrder([x] + rest, s)
  {
    var t := [x] + rest;
    forall i, j | 0 <= i < j < |t| ensures t[i] < t[j] {
      assert t[j] == rest[j - 1] && rest[j - 1] in rest;
    }
  }

  lemma {:induction false} LeastExists(s: set<int>)
    requires |s| > 0
    ensures exists x :: x in s && forall y | y in s :: x <= y
  {
    HasElement(s);
    var x :| x in s;
    if |s - {x}| > 0 {
      LeastExists(s - {x});
      var z :| z in s - {x} && forall y | y in s - {x} :: z <= y;
      var least := if x <= z then x else z;
      forall y | y in s ensures least <= y {
        assert y == x || y in s - {x};
      }
      assert least in s;
    } else {
      forall y | y in s ensures x <= y {
        assert y == x || y in s - {x};
      }
    }
  }

  /** There is one list of a set's ids in order. */
  lemma {:induction false} InOrderIsUnique(t: seq<int>, u: seq<int>, s: set<int>)
    requires InOrder(t, s) && InOrder(u, s)
    ensures t == u
  {
    if t != [] {
      var x := t[0];
      assert u[0] in s && x in s && u[0] in t && x in u;
      assert u[0] == x;
      DropFirst(t, s);
      DropFirst(u, s);
      InOrderIsUnique(t[1..], u[1..], s - {x});
      assert t == [x] + t[1..] && u == [x] + u[1..];
    }
  }

  lemma DropFirst(t: seq<int>, s: set<int>)
    requires InOrder(t, s) && t != []
    ensures InOrder(t[1..], s - {t[0]})
  {
    forall x ensures x in t[1..] <==> x in s - {t[0]} {
      if x in t[1..] {
        var i :| 0 <= i < |t[1..]| && t[1..][i] == x;
        assert t[i + 1] == x && t[i + 1] in t;
      }
      if x in s - {t[0]} {
        var i :| 0 <= i < |t| && t[i] == x;
        assert t[1..][i - 1] == x;
      }
    }
  }

  /** A list of a set's ids in order is as long as the set is large. */
  lemma {:induction false} AscendingIsInOrder(t: seq<int>, s: set<int>)
    requires Ascending(t) && forall x :: x in t <==> x in s
    ensures InOrder(t, s)
  {
    if t == [] {
      assert forall x :: x !in s;
      assert s == {};
    } else {
      var last := t[|t| - 1];
      var rest := t[..|t| - 1];
      assert t == rest + [last];
      forall x ensures x in rest <==> x in s - {last} {
        if x in rest {
          var i :| 0 <= i < |rest| && rest[i] == x;
          assert t[i] == x && x in t;
        }
      }
      AscendingIsInOrder(rest, s - {last});
      assert last in t;
    }
  }

  /** The only element of a one-element set. */
  function TheOnly(s: set<int>): (x: int)
    requires |s| == 1
    ensures s == {x}
  {
    OneElement(s);
    var x :| x in s;
    assert {x} == s by { assert |s - {x}| == 0; }
    x
  }

  lemma HasElement(s: set<int>)
    requires |s| > 0
    ensures exists x :: x in s
  {
    assert (forall x :: x !in s) ==> s == {};
  }

  lemma OneElement(s: set<int>)
    requires |s| == 1
    ensures exists x :: x in s
    ensures forall x, y | x in s && y in s :: x == y
  {
    HasElement(s);
    var x :| x in s;
    forall y | y in s ensures y == x {
      if y != x {
        assert {x, y} <= s;
        CardinalityMonotone({x, y}, s);
      }
    }
  }

  lemma CardinalityMonotone(a: set<int>, s: set<int>)
    requires a <= s
    ensures |a| <= |s|
  {
    assert s == a + (s - a);
  }

  lemma SizeOfSet(s: set<int>)
    ensures |s| == 0 <==> !exists x :: x in s
    ensures |s| > 1 <==> exists x, y :: x in s && y in s && x != y
  {
    if |s| == 1 {
      OneElement(s);
    }
    if x, y :| x in s && y in s && x != y {
      assert {x, y} <= s;
      CardinalityMonotone({x, y}, s);
    }
    if |s| > 1 {
      HasElement(s);
      var x :| x in s;
      var rest := s - {x};
      HasElement(rest);
      var y :| y in rest;
      assert y in s && x != y;
    }
  }

  lemma TwoElements(s: set<int>, x: int, y: int)
    requires x in s && y in s && x != y
    ensures |s| > 1
  {
    SizeOfSet(s);
  }
}
