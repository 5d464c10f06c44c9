/** The controller that owns the map and the location manager: it adds
    regions, moves and removes them as the user drags or taps their pins,
    draws their circles, and logs the monitoring events it receives
    (Regions/RegionsViewController.swift). */
module Controller {
  import opened Kit
  import opened Annotations
  import opened Maps
  import opened Overlays
  import opened AnnotationViews

  /** The radius of every region the app creates, in metres. */
  const DefaultRadius: real := 1000.0

  /** A point in time, as the system clock reports it when an event arrives. */
  type Date = real

  /** A line of the event log, kept as the arguments of its format string. */
  datatype Event =
    | Entered(identifier: string, at: Date)
    | Exited(identifier: string, at: Date)
    | MonitoringFailed(identifier: string, error: string)

  /** An annotation handed to the controller by the map: one of the app's
      region annotations, or another kind (the user-location pin, say). */
  datatype Pin = RegionPin(annotation: RegionAnnotation) | OtherPin

  /** An annotation view handed to the controller by the map. */
  datatype PinView = RegionView(view: RegionAnnotationView) | OtherView

  /** The call issued on the location manager at launch: request always-on
      authorisation unless it is already granted, in which case start updates. */
  function LaunchCall(status: AuthorizationStatus): (call: ManagerCall)
    ensures call == ManagerCall.RequestAlwaysAuthorization <==> status != AuthorizedAlways
    ensures call == ManagerCall.StartUpdatingLocation <==> status == AuthorizedAlways
  {
    if status != AuthorizedAlways then ManagerCall.RequestAlwaysAuthorization
    else ManagerCall.StartUpdatingLocation
  }

  /** The calls issued when the authorisation status changes: location
      updates start only on always-on authorisation. */
  function AuthorizationChangeCalls(status: AuthorizationStatus): (calls: seq<ManagerCall>)
    ensures status == AuthorizedAlways ==> calls == [ManagerCall.StartUpdatingLocation]
    ensures status != AuthorizedAlways ==> calls == []
  {
    if status == AuthorizedAlways then [ManagerCall.StartUpdatingLocation] else []
  }

  /** The circular regions among `rs`, in order. */
  function CircularRegions(rs: seq<Region>): (r: seq<CircularRegion>)
    ensures |r| <= |rs|
    ensures forall c :: c in r <==> Circular(c) in rs
  {
    if rs == [] then []
    else (if rs[0].Circular? then [rs[0].circle] else []) + CircularRegions(rs[1..])
  }

  lemma {:induction false} CircularRegionsAppend(a: seq<Region>, b: seq<Region>)
    ensures CircularRegions(a + b) == CircularRegions(a) + CircularRegions(b)
  {
    if a == [] {
      assert a + b == b;
    } else {
      assert (a + b)[1..] == a[1..] + b;
      CircularRegionsAppend(a[1..], b);
    }
  }

  /** `a` is the annotation of region `r`. */
  ghost predicate Represents(a: RegionAnnotation, r: CircularRegion)
    reads a
  {
    && a.region == Some(Circular(r))
    && a.coordinate == r.center
    && a.radius == r.radius
    && a.title == Some(MonitoredRegionTitle)
  }

  /** The region view a pin view stands for, if it is one. */
  function ViewOf(p: PinView): RegionAnnotationView? {
    if p.RegionView? then p.view else null
  }

  /** The view `v` as a set of at most one object, for naming its fields in a frame. */
  function ViewSet(v: RegionAnnotationView?): set<RegionAnnotationView> {
    if v != null then {v} else {}
  }

  /** The annotation view `v` is bound to, as a set, for naming its fields in a frame. */
  function AnnotationOf(v: RegionAnnotationView?): set<RegionAnnotation>
    reads ViewSet(v)
  {
    if v != null then {v.annotation} else {}
  }

  /** The map view `v` is attached to, if any. */
  function MapOf(v: RegionAnnotationView?): MapView?
    reads ViewSet(v)
  {
    if v != null then v.mapView else null
  }

  class RegionsViewController {
    const regionsMapView: MapView
    const locationManager: LocationManager
    /** The "%f, %f" formatting of a centre into a region identifier, left
        uninterpreted (two centres may well format alike). */
    const formatCenter: Coordinate -> string
    var updateEvents: seq<Event>
    /** The application's icon badge number. */
    var badgeNumber: int

    /** Loading the view: an empty event log, a fresh location manager, and
        the launch call the authorisation status calls for. */
    constructor ViewDidLoad(mapView: MapView, monitored: seq<Region>, status: AuthorizationStatus,
                            format: Coordinate -> string, badge: int)
      ensures regionsMapView == mapView && formatCenter == format
      ensures fresh(locationManager) && locationManager.monitoredRegions == monitored
      ensures locationManager.calls == [LaunchCall(status)]
      ensures updateEvents == [] && badgeNumber == badge
    {
      regionsMapView := mapView;
      formatCenter := format;
      updateEvents := [];
      badgeNumber := badge;
      locationManager := new LocationManager(monitored);
      new;
      if status != AuthorizedAlways {
        locationManager.RequestAlwaysAuthorization();
      } else {
        locationManager.StartUpdatingLocation();
      }
    }

    /** Showing the view: one new annotation per circular region the system
        already monitors, in order, carrying that region's centre and radius;
        other kinds of region are skipped. */
    method ViewDidAppear()
      modifies regionsMapView`annotations
      ensures var old_ := old(regionsMapView.annotations);
              var circles := CircularRegions(locationManager.monitoredRegions);
              && |regionsMapView.annotations| == |old_| + |circles|
              && regionsMapView.annotations[..|old_|] == old_
              && forall k :: 0 <= k < |circles| ==>
                   && fresh(regionsMapView.annotations[|old_| + k])
                   && Represents(regionsMapView.annotations[|old_| + k], circles[k])
                   && regionsMapView.annotations[|old_| + k].notices == []
    {
      var regions := locationManager.monitoredRegions;
      ghost var old_ := regionsMapView.annotations;
      ghost var added: seq<RegionAnnotation> := [];
      for i := 0 to |regions|
        invariant regionsMapView.annotations == old_ + added
        invariant |added| == |CircularRegions(regions[..i])|
        invariant forall k :: 0 <= k < |added| ==>
                    && fresh(added[k])
                    && Represents(added[k], CircularRegions(regions[..i])[k])
                    && added[k].notices == []
      {
        CircularRegionsAppend(regions[..i], [regions[i]]);
        assert regions[..i + 1] == regions[..i] + [regions[i]];
        assert [regions[i]][1..] == [];
        if regions[i].Circular? {
          var annotation := new RegionAnnotation.FromRegion(regions[i].circle);
          regionsMapView.AddAnnotation(annotation);
          added := added + [annotation];
        }
      }
      assert regions[..|regions|] == regions;
    }

    /** The map asks for the view of an annotation: none for other kinds of
        annotation; for a region annotation, the view `dequeued` that the map
        offers for reuse, rebound to it, or else a fresh draggable view attached
        to this map; either way its radius circle is then brought up to date. */
    method ViewForAnnotation(pin: Pin, dequeued: RegionAnnotationView?) returns (view: RegionAnnotationView?)
      requires pin.RegionPin? ==> pin.annotation.title.Some?
      requires pin.RegionPin? && dequeued != null ==> !dequeued.isRadiusUpdated
      modifies regionsMapView`overlays, Surface(MapOf(dequeued))`overlays
      modifies ViewSet(dequeued)`annotation, ViewSet(dequeued)`theAnnotation
      modifies ViewSet(dequeued)`isRadiusUpdated, ViewSet(dequeued)`canShowCallout
      ensures pin.OtherPin? ==> view == null && regionsMapView.overlays == old(regionsMapView.overlays)
      ensures pin.OtherPin? && dequeued != null ==> unchanged(dequeued)
      ensures pin.OtherPin? && dequeued != null && dequeued.mapView != null ==>
        dequeued.mapView.overlays == old(dequeued.mapView.overlays)
      ensures regionsMapView.annotations == old(regionsMapView.annotations)
      ensures pin.RegionPin? ==>
        && view != null && view.Valid() && view.canShowCallout
        && view.annotation == pin.annotation && view.theAnnotation == pin.annotation
      ensures pin.RegionPin? && dequeued == null ==>
        && fresh(view) && view.mapView == regionsMapView
        && view.draggable && view.animatesDrop && !view.multipleTouchEnabled
        && view.reuseIdentifier == pin.annotation.title.value
        && regionsMapView.overlays ==
             RadiusUpdated(old(regionsMapView.overlays), pin.annotation.coordinate, pin.annotation.radius)
      ensures pin.RegionPin? && dequeued != null ==>
        && view == dequeued && view.mapView == old(dequeued.mapView)
        && (view.mapView != null ==>
              view.mapView.overlays ==
                RadiusUpdated(old(view.mapView.overlays), pin.annotation.coordinate, pin.annotation.radius))
        && (view.mapView != regionsMapView ==> regionsMapView.overlays == old(regionsMapView.overlays))
    {
      match pin
      case OtherPin =>
        return null;
      case RegionPin(currentAnnotation) =>
        var regionView := dequeued;
        if regionView == null {
          regionView := new RegionAnnotationView(currentAnnotation);
          regionView.mapView := regionsMapView;
        } else {
          regionView.annotation := currentAnnotation;
          regionView.theAnnotation := currentAnnotation;
        }
        regionView.UpdateRadiusOverlay();
        return regionView;
    }

    /** A drag-state change of a pin view. Starting a drag removes the circles
        at the pin and stops monitoring its region; finishing a drag (dragging,
        then ending) redraws the circle at the pin's new coordinate and replaces
        the region by one centred there with the default radius, whose monitoring
        starts. Every other change, and every other kind of view, does nothing;
        in particular an abandoned drag leaves the region stopped. */
    method DidChangeDragState(pinView: PinView, newState: DragState, oldState: DragState)
      requires pinView.RegionView? ==> pinView.view.Valid()
      requires pinView.RegionView? && newState == Starting ==> pinView.view.annotation.region.Some?
      modifies locationManager`calls, ViewSet(ViewOf(pinView))`isRadiusUpdated, ViewSet(ViewOf(pinView))`canShowCallout
      modifies AnnotationOf(ViewOf(pinView))`region, Surface(MapOf(ViewOf(pinView)))`overlays
      ensures pinView.OtherView? ==> locationManager.calls == old(locationManager.calls)
      ensures pinView.RegionView? ==> pinView.view.Valid()
      ensures pinView.RegionView? && newState == Starting ==>
        var v := pinView.view;
        && (v.mapView != null ==>
              v.mapView.overlays == WithoutCirclesAt(old(v.mapView.overlays), v.annotation.coordinate))
        && v.canShowCallout == old(v.canShowCallout)
        && v.annotation.region == old(v.annotation.region)
        && locationManager.calls == old(locationManager.calls) + [StopMonitoring(old(v.annotation.region).value)]
      ensures pinView.RegionView? && oldState == Dragging && newState == Ending ==>
        var v := pinView.view;
        var c := v.annotation.coordinate;
        var newRegion := Circular(CircularRegion(c, DefaultRadius, formatCenter(c)));
        && (v.mapView != null ==>
              v.mapView.overlays == RadiusUpdated(old(v.mapView.overlays), c, v.annotation.radius))
        && v.canShowCallout
        && v.annotation.region == Some(newRegion)
        && locationManager.calls == old(locationManager.calls) + [StartMonitoring(newRegion)]
      ensures pinView.RegionView? && newState != Starting && !(oldState == Dragging && newState == Ending) ==>
        var v := pinView.view;
        && unchanged(v, v.annotation)
        && (v.mapView != null ==> v.mapView.overlays == old(v.mapView.overlays))
        && locationManager.calls == old(locationManager.calls)
    {
      match pinView
      case OtherView =>
        return;
      case RegionView(regionView) =>
        var regionAnnotation := regionView.annotation;
        if newState == Starting {
          regionView.RemoveRadiusOverlay();
          locationManager.StopMonitoring(regionAnnotation.region.value);
        }
        if oldState == Dragging && newState == Ending {
          regionView.UpdateRadiusOverlay();
          var c := regionAnnotation.coordinate;
          var newRegion := CircularRegion(c, DefaultRadius, formatCenter(c));
          regionAnnotation.region := Some(Circular(newRegion));
          locationManager.StartMonitoring(regionAnnotation.region.value);
        }
    }

    /** Tapping the remove button of a pin's callout: stop monitoring its
        region, remove its circles, then remove the pin from the map. */
    method CalloutAccessoryControlTapped(regionView: RegionAnnotationView)
      requires regionView.annotation.region.Some?
      modifies locationManager`calls, regionView`isRadiusUpdated, Surface(regionView.mapView)`overlays
      modifies regionsMapView`annotations
      ensures locationManager.calls ==
        old(locationManager.calls) + [StopMonitoring(old(regionView.annotation.region).value)]
      ensures !regionView.isRadiusUpdated
      ensures regionView.mapView != null ==>
        regionView.mapView.overlays == WithoutCirclesAt(old(regionView.mapView.overlays), regionView.theAnnotation.coordinate)
      ensures regionView.mapView != null && regionView.mapView != regionsMapView ==>
        regionView.mapView.annotations == old(regionView.mapView.annotations)
      ensures regionsMapView.annotations == RemoveAll(old(regionsMapView.annotations), regionView.annotation)
      ensures regionView.annotation !in regionsMapView.annotations
    {
      var regionAnnotation := regionView.annotation;
      locationManager.StopMonitoring(regionAnnotation.region.value);
      regionView.RemoveRadiusOverlay();
      regionsMapView.RemoveAnnotation(regionAnnotation);
    }

    method DidEnterRegion(region: Region, now: Date)
      modifies this`updateEvents, this`badgeNumber
      ensures updateEvents == [Entered(region.Identifier(), now)] + old(updateEvents)
      ensures badgeNumber == old(badgeNumber) + 1
    {
      UpdateWithEvent(Entered(region.Identifier(), now));
    }

    method DidExitRegion(region: Region, now: Date)
      modifies this`updateEvents, this`badgeNumber
      ensures updateEvents == [Exited(region.Identifier(), now)] + old(updateEvents)
      ensures badgeNumber == old(badgeNumber) + 1
    {
      UpdateWithEvent(Exited(region.Identifier(), now));
    }

    /** A monitoring failure; the region is unwrapped unconditionally, so it must be present. */
    method MonitoringDidFailForRegion(region: Option<Region>, error: string)
      requires region.Some?
      modifies this`updateEvents, this`badgeNumber
      ensures updateEvents == [MonitoringFailed(region.value.Identifier(), error)] + old(updateEvents)
      ensures badgeNumber == old(badgeNumber) + 1
    {
      UpdateWithEvent(MonitoringFailed(region.value.Identifier(), error));
    }

    /** A change of authorisation status: location updates start only on always-on authorisation. */
    method DidChangeAuthorizationStatus(status: AuthorizationStatus)
      modifies locationManager`calls
      ensures locationManager.calls == old(locationManager.calls) + AuthorizationChangeCalls(status)
    {
      if status == AuthorizedAlways {
        locationManager.StartUpdatingLocation();
      }
    }

    /** Adding a region at the centre of the map: nothing at all when region
        monitoring is unavailable; otherwise one new annotation with the default
        radius, whose radius store is announced, and one start of monitoring
        for the region it represents. */
    method AddRegion(monitoringAvailable: bool)
      modifies regionsMapView`annotations, locationManager`calls
      ensures !monitoringAvailable ==>
        && regionsMapView.annotations == old(regionsMapView.annotations)
        && locationManager.calls == old(locationManager.calls)
      ensures monitoringAvailable ==>
        var n := |old(regionsMapView.annotations)|;
        var center := regionsMapView.centerCoordinate;
        var newRegion := CircularRegion(center, DefaultRadius, formatCenter(center));
        && |regionsMapView.annotations| == n + 1
        && regionsMapView.annotations[..n] == old(regionsMapView.annotations)
        && fresh(regionsMapView.annotations[n])
        && Represents(regionsMapView.annotations[n], newRegion)
        && regionsMapView.annotations[n].notices ==
             [WillChange(SubtitleKey, SubtitleOf(center, DefaultRadius)),
              DidChange(SubtitleKey, SubtitleOf(center, DefaultRadius))]
        && locationManager.calls == old(locationManager.calls) + [StartMonitoring(Circular(newRegion))]
    {
      if !monitoringAvailable {
        return;
      }
      var coord := Coordinate(regionsMapView.centerCoordinate.latitude, regionsMapView.centerCoordinate.longitude);
      var newRegion := CircularRegion(coord, DefaultRadius, formatCenter(regionsMapView.centerCoordinate));
      var myRegionAnnotation := new RegionAnnotation.FromRegion(newRegion);
      myRegionAnnotation.coordinate := newRegion.center;
      myRegionAnnotation.SetRadius(newRegion.radius);
      regionsMapView.AddAnnotation(myRegionAnnotation);
      locationManager.StartMonitoring(Circular(newRegion));
    }

    /** Logging an event: it goes first, every earlier entry moves down one
        place unchanged, and the badge number goes up by one. */
    method UpdateWithEvent(event: Event)
      modifies this`updateEvents, this`badgeNumber
      ensures updateEvents == [event] + old(updateEvents)
      ensures |updateEvents| == |old(updateEvents)| + 1
      ensures forall k :: 0 <= k < |old(updateEvents)| ==> updateEvents[k + 1] == old(updateEvents)[k]
      ensures badgeNumber == old(badgeNumber) + 1
    {
      updateEvents := [event] + updateEvents;
      badgeNumber := badgeNumber + 1;
    }

    /** The application entering the background resets the badge number. */
    method ResetBadge()
      modifies this`badgeNumber
      ensures badgeNumber == 0
    {
      badgeNumber := 0;
    }
  }
}
