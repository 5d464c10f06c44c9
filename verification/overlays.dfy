/** What the radius-overlay bookkeeping of an annotation view does to the
    map's overlay list (Regions/RegionAnnotationView.swift), stated as
    functions on the list and the facts proved about them. */
module Overlays {
  import opened Kit

  /** `o` is a radius circle centred exactly on `c` (latitude and longitude both equal). */
  predicate IsCircleAt(o: Overlay, c: Coordinate) {
    o.Circle? && o.center.latitude == c.latitude && o.center.longitude == c.longitude
  }

  /** The overlay list once every circle centred on `c` has been removed. */
  function WithoutCirclesAt(os: seq<Overlay>, c: Coordinate): (r: seq<Overlay>)
    ensures |r| <= |os|
  {
    if os == [] then []
    else if IsCircleAt(os[0], c) then WithoutCirclesAt(os[1..], c)
    else [os[0]] + WithoutCirclesAt(os[1..], c)
  }

  /** An overlay survives the removal exactly when it was on the map and is
      not a circle centred on `c`. */
  lemma {:induction false} WithoutCirclesAtMembers(os: seq<Overlay>, c: Coordinate)
    ensures forall o :: o in WithoutCirclesAt(os, c) <==> o in os && !IsCircleAt(o, c)
  {
    if os != [] {
      WithoutCirclesAtMembers(os[1..], c);
      assert os == [os[0]] + os[1..];
    }
  }

  /** How many circles centred on `c` the list holds. */
  function CirclesAt(os: seq<Overlay>, c: Coordinate): (n: nat)
    ensures n <= |os|
    ensures n == 0 <==> forall o :: o in os ==> !IsCircleAt(o, c)
  {
    if os == [] then 0
    else (if IsCircleAt(os[0], c) then 1 else 0) + CirclesAt(os[1..], c)
  }

  /** The overlay list after the circles at `c` are replaced by one circle of radius `r`. */
  function RadiusUpdated(os: seq<Overlay>, c: Coordinate, r: real): seq<Overlay> {
    WithoutCirclesAt(os, c) + [Circle(c, r)]
  }

  lemma {:induction false} CirclesAtAppend(a: seq<Overlay>, b: seq<Overlay>, c: Coordinate)
    ensures CirclesAt(a + b, c) == CirclesAt(a, c) + CirclesAt(b, c)
  {
    if a == [] {
      assert a + b == b;
    } else {
      assert (a + b)[1..] == a[1..] + b;
      CirclesAtAppend(a[1..], b, c);
    }
  }

  /** The removal works element by element: it distributes over concatenation,
      so it keeps every other overlay in its original order. */
  lemma {:induction false} WithoutCirclesAtAppend(a: seq<Overlay>, b: seq<Overlay>, c: Coordinate)
    ensures WithoutCirclesAt(a + b, c) == WithoutCirclesAt(a, c) + WithoutCirclesAt(b, c)
  {
    if a == [] {
      assert a + b == b;
    } else {
      assert (a + b)[1..] == a[1..] + b;
      WithoutCirclesAtAppend(a[1..], b, c);
    }
  }

  /** Removal drops exactly the circles at `c`: none is left, every other
      overlay keeps its multiplicity (non-circle overlays at `c` included),
      and the length shrinks by the number of circles removed. */
  lemma {:induction false} WithoutCirclesAtKeepsOthers(os: seq<Overlay>, c: Coordinate)
    ensures CirclesAt(WithoutCirclesAt(os, c), c) == 0
    ensures |WithoutCirclesAt(os, c)| + CirclesAt(os, c) == |os|
    ensures forall o :: !IsCircleAt(o, c) ==> multiset(WithoutCirclesAt(os, c))[o] == multiset(os)[o]
  {
    if os != [] {
      WithoutCirclesAtKeepsOthers(os[1..], c);
      assert os == [os[0]] + os[1..];
      if !IsCircleAt(os[0], c) {
        CirclesAtAppend([os[0]], WithoutCirclesAt(os[1..], c), c);
      }
    }
  }

  /** With no circle at `c` on the map, removal leaves the list as it is. */
  lemma {:induction false} WithoutCirclesAtNoMatch(os: seq<Overlay>, c: Coordinate)
    requires CirclesAt(os, c) == 0
    ensures WithoutCirclesAt(os, c) == os
  {
    if os != [] {
      WithoutCirclesAtNoMatch(os[1..], c);
    }
  }

  /** A second removal in a row changes nothing. */
  lemma {:induction false} WithoutCirclesAtIdempotent(os: seq<Overlay>, c: Coordinate)
    ensures WithoutCirclesAt(WithoutCirclesAt(os, c), c) == WithoutCirclesAt(os, c)
  {
    WithoutCirclesAtKeepsOthers(os, c);
    WithoutCirclesAtNoMatch(WithoutCirclesAt(os, c), c);
  }

  /** Removal at `c` leaves the circles centred elsewhere untouched. */
  lemma {:induction false} WithoutCirclesAtOtherCenters(os: seq<Overlay>, c: Coordinate, d: Coordinate)
    requires d != c
    ensures CirclesAt(WithoutCirclesAt(os, c), d) == CirclesAt(os, d)
  {
    if os != [] {
      WithoutCirclesAtOtherCenters(os[1..], c, d);
      if !IsCircleAt(os[0], c) {
        CirclesAtAppend([os[0]], WithoutCirclesAt(os[1..], c), d);
      }
    }
  }

  /** After a radius update exactly one circle is centred on `c`: the last
      overlay, of radius `r`; every other overlay is kept in order and circles
      centred elsewhere keep their count. */
  lemma RadiusUpdatedSingleCircle(os: seq<Overlay>, c: Coordinate, r: real)
    ensures var u := RadiusUpdated(os, c, r);
      && CirclesAt(u, c) == 1
      && u[|u| - 1] == Circle(c, r)
      && u[..|u| - 1] == WithoutCirclesAt(os, c)
      && (forall o :: o in u && IsCircleAt(o, c) ==> o == Circle(c, r))
      && (forall d :: d != c ==> CirclesAt(u, d) == CirclesAt(os, d))
  {
    var u := RadiusUpdated(os, c, r);
    WithoutCirclesAtKeepsOthers(os, c);
    CirclesAtAppend(WithoutCirclesAt(os, c), [Circle(c, r)], c);
    forall d | d != c
      ensures CirclesAt(u, d) == CirclesAt(os, d)
    {
      CirclesAtAppend(WithoutCirclesAt(os, c), [Circle(c, r)], d);
      WithoutCirclesAtOtherCenters(os, c, d);
    }
  }

  /** Updating the radius overlay twice in a row leaves the same list as updating it once. */
  lemma RadiusUpdatedIdempotent(os: seq<Overlay>, c: Coordinate, r: real)
    ensures RadiusUpdated(RadiusUpdated(os, c, r), c, r) == RadiusUpdated(os, c, r)
  {
    WithoutCirclesAtAppend(WithoutCirclesAt(os, c), [Circle(c, r)], c);
    WithoutCirclesAtIdempotent(os, c);
  }
}
