/** Clients of the controller that string its operations together the way the
    map and the location service drive them; each states what a caller can
    conclude from the contracts alone. */
module Scenarios {
  import opened Kit
  import opened Annotations
  import opened Maps
  import opened Controller

  /** Showing a new region's pin draws its circle; showing it again with the
      same view reuses the view and leaves one circle. */
  method ShowPinTwice(format: Coordinate -> string, here: Coordinate)
  {
    var surface := new MapView(here);
    var controller := new RegionsViewController.ViewDidLoad(surface, [], AuthorizedAlways, format, 0);
    controller.AddRegion(true);
    var pin := surface.annotations[0];
    var view := controller.ViewForAnnotation(RegionPin(pin), null);
    assert surface.overlays == [Circle(here, DefaultRadius)];
    var again := controller.ViewForAnnotation(RegionPin(pin), view);
    assert again == view && surface.overlays == [Circle(here, DefaultRadius)];
  }

  /** Adding a region, showing its pin, then dragging it from `here` to
      `there`: the manager sees a start for the old region, a stop for it and a
      start for the new one, in that order, and one circle is left, at `there`. */
  method RelocateRegion(format: Coordinate -> string, here: Coordinate, there: Coordinate)
  {
    var surface := new MapView(here);
    var controller := new RegionsViewController.ViewDidLoad(surface, [], AuthorizedAlways, format, 0);
    controller.AddRegion(true);
    var pin := surface.annotations[0];
    var view := controller.ViewForAnnotation(RegionPin(pin), null);
    controller.DidChangeDragState(RegionView(view), Starting, NoDrag);
    assert surface.overlays == [];
    pin.coordinate := there;
    controller.DidChangeDragState(RegionView(view), Dragging, Starting);
    controller.DidChangeDragState(RegionView(view), Ending, Dragging);

    var oldRegion := Circular(CircularRegion(here, DefaultRadius, format(here)));
    var newRegion := Circular(CircularRegion(there, DefaultRadius, format(there)));
    assert controller.locationManager.calls ==
      [ManagerCall.StartUpdatingLocation, StartMonitoring(oldRegion), StopMonitoring(oldRegion), StartMonitoring(newRegion)];
    assert surface.overlays == [Circle(there, DefaultRadius)];
    assert pin.region == Some(newRegion);
  }

  /** A drag that starts and is then cancelled leaves the region stopped and
      its circle gone; tapping the remove button afterwards stops it again and
      takes the pin off the map. */
  method AbandonDragThenRemove(format: Coordinate -> string, here: Coordinate)
  {
    var surface := new MapView(here);
    var controller := new RegionsViewController.ViewDidLoad(surface, [], NotDetermined, format, 0);
    controller.AddRegion(true);
    var pin := surface.annotations[0];
    var view := controller.ViewForAnnotation(RegionPin(pin), null);
    controller.DidChangeDragState(RegionView(view), Starting, NoDrag);
    controller.DidChangeDragState(RegionView(view), Canceling, Starting);
    controller.DidChangeDragState(RegionView(view), NoDrag, Canceling);

    var region := Circular(CircularRegion(here, DefaultRadius, format(here)));
    assert controller.locationManager.calls ==
      [ManagerCall.RequestAlwaysAuthorization, StartMonitoring(region), StopMonitoring(region)];
    assert surface.overlays == [];

    controller.CalloutAccessoryControlTapped(view);
    assert controller.locationManager.calls[3] == StopMonitoring(region);
    assert surface.annotations == [];
  }

  /** A finished drag keeps the pin's title and the view's settings, so the map
      can ask for the pin's view again and gets the same view back. */
  method DragThenRedraw(format: Coordinate -> string, here: Coordinate, there: Coordinate)
  {
    var surface := new MapView(here);
    var controller := new RegionsViewController.ViewDidLoad(surface, [], AuthorizedAlways, format, 0);
    var pin := new RegionAnnotation.FromRegion(CircularRegion(here, DefaultRadius, format(here)));
    var view := controller.ViewForAnnotation(RegionPin(pin), null);
    controller.DidChangeDragState(RegionView(view), Starting, NoDrag);
    pin.coordinate := there;
    controller.DidChangeDragState(RegionView(view), Ending, Dragging);
    assert pin.title == Some(MonitoredRegionTitle);
    assert view.draggable && view.animatesDrop && !view.multipleTouchEnabled;
    var again := controller.ViewForAnnotation(RegionPin(pin), view);
    assert again == view && surface.overlays == [Circle(there, DefaultRadius)];
  }

  /** Showing and removing a pin never moves the map's centre, so the next
      region is added where the first one was. */
  method RemoveThenAddAgain(format: Coordinate -> string, here: Coordinate)
  {
    var surface := new MapView(here);
    var controller := new RegionsViewController.ViewDidLoad(surface, [], AuthorizedAlways, format, 0);
    controller.AddRegion(true);
    var view := controller.ViewForAnnotation(RegionPin(surface.annotations[0]), null);
    controller.CalloutAccessoryControlTapped(view);
    assert surface.centerCoordinate == here && surface.annotations == [];
    controller.AddRegion(true);
    assert surface.annotations[0].coordinate == here;
  }

  /** Two regions added without moving the map sit at the same coordinate, so
      drawing the second pin's circle removes the first pin's: two pins, one
      circle. */
  method TwoPinsShareACircle(format: Coordinate -> string, here: Coordinate)
  {
    var surface := new MapView(here);
    var controller := new RegionsViewController.ViewDidLoad(surface, [], AuthorizedAlways, format, 0);
    controller.AddRegion(true);
    controller.AddRegion(true);
    var first := controller.ViewForAnnotation(RegionPin(surface.annotations[0]), null);
    var second := controller.ViewForAnnotation(RegionPin(surface.annotations[1]), null);
    assert |surface.annotations| == 2 && surface.overlays == [Circle(here, DefaultRadius)];
  }

  /** Two events are logged newest first and count twice on the badge; leaving
      for the background clears the badge and keeps the log. */
  method LogTwoEvents(format: Coordinate -> string, here: Coordinate, r: Region, t1: Date, t2: Date)
  {
    var surface := new MapView(here);
    var controller := new RegionsViewController.ViewDidLoad(surface, [], AuthorizedAlways, format, 0);
    controller.DidEnterRegion(r, t1);
    controller.DidExitRegion(r, t2);
    assert controller.updateEvents == [Exited(r.Identifier(), t2), Entered(r.Identifier(), t1)];
    assert controller.badgeNumber == 2;
    controller.ResetBadge();
    assert controller.badgeNumber == 0 && |controller.updateEvents| == 2;
  }

  /** With monitoring unavailable, adding a region changes nothing. */
  method AddWithoutMonitoring(format: Coordinate -> string, here: Coordinate)
  {
    var surface := new MapView(here);
    var controller := new RegionsViewController.ViewDidLoad(surface, [], AuthorizedAlways, format, 0);
    controller.AddRegion(false);
    assert surface.annotations == [] && surface.overlays == [];
    assert controller.locationManager.calls == [ManagerCall.StartUpdatingLocation];
  }
}
