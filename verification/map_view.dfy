/** The map surface the app draws on: its overlays, its annotations and the
    coordinate at the centre of the visible area. Overlays are values here, so
    removing an overlay removes the first overlay equal to it. */
module Maps {
  import opened Kit
  import opened Annotations

  /** `os` with the first occurrence of `o` taken out, if there is one. */
  function RemoveFirst(os: seq<Overlay>, o: Overlay): (r: seq<Overlay>)
    ensures multiset(r) == multiset(os) - multiset{o}
    ensures o !in os ==> r == os
    ensures o in os ==> |r| == |os| - 1
  {
    if os == [] then []
    else
      assert os == [os[0]] + os[1..];
      if os[0] == o then os[1..]
      else [os[0]] + RemoveFirst(os[1..], o)
  }

  /** Removing `o` from a list whose prefix `p` does not hold it removes the
      element just after `p`. */
  lemma {:induction false} RemoveFirstAfterPrefix(p: seq<Overlay>, o: Overlay, rest: seq<Overlay>)
    requires o !in p
    ensures RemoveFirst(p + [o] + rest, o) == p + rest
  {
    var q := p + [o] + rest;
    if p == [] {
      assert q == [o] + rest;
    } else {
      assert q[0] == p[0] != o;
      assert q[1..] == p[1..] + [o] + rest;
      calc {
        RemoveFirst(q, o);
        [p[0]] + RemoveFirst(p[1..] + [o] + rest, o);
        { RemoveFirstAfterPrefix(p[1..], o, rest); }
        [p[0]] + (p[1..] + rest);
        p + rest;
      }
    }
  }

  /** `s` without any occurrence of `x`, the rest in order. */
  function RemoveAll<T(==)>(s: seq<T>, x: T): (r: seq<T>)
    ensures |r| <= |s|
    ensures x !in r
    ensures forall i :: 0 <= i < |r| ==> r[i] in s
    ensures forall i :: 0 <= i < |s| && s[i] != x ==> s[i] in r
  {
    if s == [] then []
    else if s[0] == x then RemoveAll(s[1..], x)
    else [s[0]] + RemoveAll(s[1..], x)
  }

  /** The map `m` as a set of at most one object, for naming its fields in a frame. */
  function Surface(m: MapView?): set<MapView> {
    if m != null then {m} else {}
  }

  class MapView {
    var overlays: seq<Overlay>
    var annotations: seq<RegionAnnotation>
    var centerCoordinate: Coordinate

    constructor (center: Coordinate)
      ensures overlays == [] && annotations == [] && centerCoordinate == center
    {
      overlays := [];
      annotations := [];
      centerCoordinate := center;
    }

    method AddOverlay(o: Overlay)
      modifies this`overlays
      ensures overlays == old(overlays) + [o]
    {
      overlays := overlays + [o];
    }

    method RemoveOverlay(o: Overlay)
      modifies this`overlays
      ensures overlays == RemoveFirst(old(overlays), o)
    {
      overlays := RemoveFirst(overlays, o);
    }

    method AddAnnotation(a: RegionAnnotation)
      modifies this`annotations
      ensures annotations == old(annotations) + [a]
    {
      annotations := annotations + [a];
    }

    method RemoveAnnotation(a: RegionAnnotation)
      modifies this`annotations
      ensures annotations == RemoveAll(old(annotations), a)
    {
      annotations := RemoveAll(annotations, a);
    }
  }
}
