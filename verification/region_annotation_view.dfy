/** The pin view of a region annotation, which keeps the map's radius circle
    for its annotation in step with the annotation
    (Regions/RegionAnnotationView.swift). */
module AnnotationViews {
  import opened Kit
  import opened Annotations
  import opened Maps
  import opened Overlays

  /** One step of the removal loop: with the overlays before `i` already
      filtered, removing (or keeping) the overlay at `i` filters one more. */
  lemma RemovalStep(snapshot: seq<Overlay>, i: nat, c: Coordinate)
    requires i < |snapshot|
    ensures var done := WithoutCirclesAt(snapshot[..i], c) + snapshot[i..];
            var next := WithoutCirclesAt(snapshot[..i + 1], c) + snapshot[i + 1..];
            && (IsCircleAt(snapshot[i], c) ==> RemoveFirst(done, snapshot[i]) == next)
            && (!IsCircleAt(snapshot[i], c) ==> done == next)
  {
    var o := snapshot[i];
    var prefix := WithoutCirclesAt(snapshot[..i], c);
    WithoutCirclesAtAppend(snapshot[..i], [o], c);
    assert snapshot[..i + 1] == snapshot[..i] + [o];
    assert snapshot[i..] == [o] + snapshot[i + 1..];
    if IsCircleAt(o, c) {
      WithoutCirclesAtMembers(snapshot[..i], c);
      assert o !in prefix;
      RemoveFirstAfterPrefix(prefix, o, snapshot[i + 1..]);
      assert prefix + [o] + snapshot[i + 1..] == prefix + snapshot[i..];
    } else {
      assert prefix + snapshot[i..] == prefix + [o] + snapshot[i + 1..];
    }
  }

  class RegionAnnotationView {
    var isRadiusUpdated: bool
    var mapView: MapView?
    var theAnnotation: RegionAnnotation
    /** The annotation the framework view is bound to. */
    var annotation: RegionAnnotation
    var canShowCallout: bool
    var draggable: bool
    var multipleTouchEnabled: bool
    var animatesDrop: bool
    const reuseIdentifier: string
    /** The circle built at initialisation; it is never put on a map. */
    var radiusOverlay: Option<Overlay>

    /** The invariant every operation keeps: the update flag is down between
        calls, and both annotation references name the same annotation. */
    ghost predicate Valid()
      reads this
    {
      !isRadiusUpdated && annotation == theAnnotation
    }

    /** A draggable pin with a callout for `a`, not yet attached to a map, so
        the circle it builds is not added anywhere. */
    constructor (a: RegionAnnotation)
      requires a.title.Some?
      ensures Valid()
      ensures theAnnotation == a && annotation == a && mapView == null
      ensures canShowCallout && draggable && !multipleTouchEnabled && animatesDrop
      ensures reuseIdentifier == a.title.value
      ensures radiusOverlay == Some(Circle(a.coordinate, a.radius))
    {
      annotation := a;
      reuseIdentifier := a.title.value;
      isRadiusUpdated := false;
      canShowCallout := true;
      multipleTouchEnabled := false;
      draggable := true;
      animatesDrop := true;
      mapView := null;
      theAnnotation := a;
      radiusOverlay := Some(Circle(a.coordinate, a.radius));
    }

    /** Removes from the map every circle centred on the annotation's
        coordinate, keeps all other overlays in order, and lowers the flag.
        Without a map it only lowers the flag. */
    method RemoveRadiusOverlay()
      modifies this`isRadiusUpdated, Surface(mapView)`overlays
      ensures !isRadiusUpdated
      ensures mapView != null ==> mapView.overlays == WithoutCirclesAt(old(mapView.overlays), theAnnotation.coordinate)
    {
      var m := mapView;
      if m != null {
        var c := theAnnotation.coordinate;
        var snapshot := m.overlays;
        var i := 0;
        while i < |snapshot|
          invariant 0 <= i <= |snapshot|
          invariant m.overlays == WithoutCirclesAt(snapshot[..i], c) + snapshot[i..]
        {
          var overlay := snapshot[i];
          ghost var next := WithoutCirclesAt(snapshot[..i + 1], c) + snapshot[i + 1..];
          RemovalStep(snapshot, i, c);
          if overlay.Circle? && overlay.center.latitude == c.latitude && overlay.center.longitude == c.longitude {
            m.RemoveOverlay(overlay);
          }
          assert m.overlays == next;
          i := i + 1;
        }
        assert snapshot[..i] == snapshot;
      }
      isRadiusUpdated := false;
    }

    /** Replaces the circles at the annotation's coordinate by one circle of
        the annotation's radius, appended last, and leaves the callout enabled.
        With the flag up on entry it does nothing; with the flag down (as
        `Valid` guarantees) it always runs, and the flag is down again on return,
        because the removal it calls lowers it. */
    method UpdateRadiusOverlay()
      modifies this`isRadiusUpdated, this`canShowCallout, Surface(mapView)`overlays
      ensures old(isRadiusUpdated) ==> isRadiusUpdated && canShowCallout == old(canShowCallout)
      ensures old(isRadiusUpdated) && mapView != null ==> mapView.overlays == old(mapView.overlays)
      ensures !old(isRadiusUpdated) ==> !isRadiusUpdated && canShowCallout
      ensures !old(isRadiusUpdated) && mapView != null ==>
        mapView.overlays == RadiusUpdated(old(mapView.overlays), theAnnotation.coordinate, theAnnotation.radius)
    {
      if !isRadiusUpdated {
        isRadiusUpdated := true;
        RemoveRadiusOverlay();
        canShowCallout := false;
        if mapView != null {
          mapView.AddOverlay(Circle(theAnnotation.coordinate, theAnnotation.radius));
        }
        canShowCallout := true;
      }
    }
  }
}
