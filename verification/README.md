# Regions: region and overlay bookkeeping

Regions is an iOS sample app that lets the user drop circular geofences on a
map. Each region is shown as a pin (a `RegionAnnotation`) with a radius circle
drawn around it, and the app keeps a newest-first log of the enter, exit and
failure events the location service reports. This project models the
bookkeeping at the centre of the app, and proves properties of it:

- how a pin view leaves exactly one radius circle at its pin's coordinate after
  each update. Removal is a filter over the map's overlay list that matches on
  the coordinate alone, and an update is a removal followed by one append. So
  pins at the same coordinate share one circle, and a drag removes the circle
  until the drag ends.
- how the view controller pairs each region it adds, moves or removes with
  start and stop calls on the location manager.
- how the controller rebuilds pins for regions the system already monitors.
- how the event log and the badge number grow.

`Annotations`, `AnnotationViews` and `Controller` follow the app's three
source files. `Kit` and `Maps` stand in for the framework, `Overlays` holds the
list functions the pin view is proved against, and `Scenarios` holds client
code:

- `Kit` (kit.dfy): framework values. These are coordinates, regions, overlays,
  drag and authorisation states, and the location manager. The manager is
  reduced to the append-only trace of calls the app issues on it.
- `Annotations` (region_annotation.dfy): `RegionAnnotation`. Its radius setter
  records the will/did-change notices it emits.
- `Maps` (map_view.dfy): the map surface. It holds an overlay list, an
  annotation list and a centre coordinate.
- `Overlays` (overlays.dfy): what the pin view does to the overlay list, as
  functions on lists, with the lemmas about them.
- `AnnotationViews` (region_annotation_view.dfy): `RegionAnnotationView`. It is
  a class whose removal loop is proved against `Overlays.WithoutCirclesAt`.
- `Controller` (regions_view_controller.dfy): `RegionsViewController`.
- `Scenarios` (scenarios.dfy): verified client code. It drives the controller
  through an add, a relocation, an abandoned drag, a redraw after a drag, a
  removal followed by a new add, two pins sharing one circle, and two events. It asserts the resulting
  manager trace, overlays, map centre and log.

Framework behaviour and environment inputs become parameters:

- whether region monitoring is available;
- the authorisation status;
- the regions the system already monitors;
- the clock reading of an event;
- the view the map offers for reuse;
- the map's centre coordinate, which the user and the location updates move
  and which `AddRegion` reads;
- the "%f, %f" formatting of a centre into a region identifier. This is the
  controller's uninterpreted `formatCenter`, so two centres may format alike,
  as they can in the app.

The subtitle and the event strings are kept as the arguments of their format
strings.

What the code does and does not do:

- There is no region store, no duplicate-region or not-found error, and no
  resume after an abandoned drag.
- Location updates start only on always-on authorisation, not on when-in-use
  authorisation.
- The badge is reset when the app enters the background, not when the log
  view appears.
- The `isRadiusUpdated` flag never blocks an update in sequential use.
  `updateRadiusOverlay` raises it, then calls `removeRadiusOverlay`, which
  lowers it again, so the flag is down on every return. "Exactly one circle"
  comes from remove-then-append, not from the flag.

## Model

| member | source | states |
|---|---|---|
| `Annotations.RegionAnnotation.constructor` | Regions/RegionAnnotation.swift:31-35 | no region, origin coordinate, radius 0, title "Monitored Region", nothing announced |
| `Annotations.RegionAnnotation.FromRegion` | Regions/RegionAnnotation.swift:39-47 | region, coordinate and radius copied from the circular region, title "Monitored Region"; stores made during initialisation announce nothing |
| `Annotations.RegionAnnotation.SetRadius` | Regions/RegionAnnotation.swift:24-59 | each radius store emits exactly one will-change("subtitle") seeing the old subtitle, then one did-change("subtitle") seeing the new one; region, coordinate and title are untouched |
| `Annotations.SubtitleDependsOnCoordinateAndRadius` | Regions/RegionAnnotation.swift:62-64 | annotations with equal coordinate and radius show equal subtitles |
| `Maps.RemoveFirst` | Regions/RegionAnnotationView.swift:103 | removing an overlay takes out one occurrence when present (multiset difference) and leaves the list alone when absent |
| `Maps.RemoveAll` | Regions/RegionsViewController.swift:243 | removing an annotation leaves no occurrence of it and keeps every other annotation |
| `Overlays.WithoutCirclesAtMembers` | Regions/RegionAnnotationView.swift:98-106 | an overlay survives the removal exactly when it was on the map and is not a circle centred on the coordinate |
| `Overlays.WithoutCirclesAtAppend` | Regions/RegionAnnotationView.swift:98-106 | removal distributes over concatenation, so surviving overlays keep their original order |
| `Overlays.WithoutCirclesAtKeepsOthers` | Regions/RegionAnnotationView.swift:98-106 | no circle at the coordinate is left; every other overlay, non-circles at the same coordinate included, keeps its multiplicity; the length drops by the number of matching circles |
| `Overlays.WithoutCirclesAtNoMatch` | Regions/RegionAnnotationView.swift:98-106 | with no matching circle the overlay list is unchanged |
| `Overlays.WithoutCirclesAtIdempotent` | Regions/RegionAnnotationView.swift:96-109 | a second removal in a row changes nothing |
| `Overlays.WithoutCirclesAtOtherCenters` | Regions/RegionAnnotationView.swift:102 | circles centred elsewhere keep their count |
| `Overlays.RadiusUpdatedSingleCircle` | Regions/RegionAnnotationView.swift:112-124 | after an update exactly one circle is centred on the coordinate; it is the last overlay and has the annotation's radius; the other overlays are kept in order; circle counts elsewhere are unchanged |
| `Overlays.RadiusUpdatedIdempotent` | Regions/RegionAnnotationView.swift:113-120 | two updates in a row leave the same overlay list as one |
| `AnnotationViews.RegionAnnotationView.constructor` | Regions/RegionAnnotationView.swift:67-85 | draggable pin with callout bound to the annotation, reuse identifier = title, no map, so no overlay is added; flag down |
| `AnnotationViews.RegionAnnotationView.RemoveRadiusOverlay` | Regions/RegionAnnotationView.swift:96-109 | the map's overlays become `WithoutCirclesAt` of the old list (unchanged without a map); flag down; nothing but the overlay list and the flag may change |
| `AnnotationViews.RegionAnnotationView.UpdateRadiusOverlay` | Regions/RegionAnnotationView.swift:112-124 | with the flag down on entry, the overlays become the old ones without circles at the coordinate plus one circle of the annotation's radius, the callout is enabled and the flag is down again; with the flag up, nothing changes |
| `Controller.LaunchCall` | Regions/RegionsViewController.swift:94-104 | at launch, authorisation is requested exactly when the status is not always-on, and updates start exactly when it is |
| `Controller.RegionsViewController.ViewDidLoad` | Regions/RegionsViewController.swift:82-105 | empty event log, fresh location manager whose trace is the single launch call |
| `Controller.AuthorizationChangeCalls` | Regions/RegionsViewController.swift:290-299 | a status change starts updates on always-on authorisation and issues no call otherwise |
| `Controller.RegionsViewController.DidChangeAuthorizationStatus` | Regions/RegionsViewController.swift:290-299 | appends exactly the calls `AuthorizationChangeCalls` names to the manager trace |
| `Controller.CircularRegions` | Regions/RegionsViewController.swift:113 | exactly the circular regions of the monitored set pass the filter |
| `Controller.RegionsViewController.ViewDidAppear` | Regions/RegionsViewController.swift:108-117 | one fresh annotation per circular monitored region, in order, with its region, centre and radius; other regions skipped; existing annotations kept |
| `Controller.RegionsViewController.ViewForAnnotation` | Regions/RegionsViewController.swift:167-194 | nil for other annotations, with nothing changed; otherwise a view (fresh, draggable, dropping animated and attached to this map, or the reused one rebound) whose `annotation` and `theAnnotation` are the annotation, with the overlay list radius-updated and the callout enabled; only the overlay lists and the reused view's annotation links, flag and callout setting may change, so annotations, titles and the map centre stay |
| `Controller.RegionsViewController.DidChangeDragState` | Regions/RegionsViewController.swift:211-233 | Starting removes the circles at the pin and issues one stop for the old region; Dragging→Ending radius-updates the overlays, replaces the region by one centred on the pin with radius 1000 and issues one start for it; anything else, or a view of another kind, changes nothing; only the manager trace, the view's flag and callout setting, the pin's region and the overlay list may change, so the pin's title, coordinate and radius, the view's other settings and the map centre stay |
| `Controller.RegionsViewController.CalloutAccessoryControlTapped` | Regions/RegionsViewController.swift:236-244 | one stop for the pin's region, circles at the pin removed, the pin absent from the map afterwards; only the manager trace, the view's flag, the overlay list and the annotation list may change, so the map centre stays |
| `Controller.RegionsViewController.DidEnterRegion` | Regions/RegionsViewController.swift:268-272 | prepends one enter event with the region's identifier; badge +1 |
| `Controller.RegionsViewController.DidExitRegion` | Regions/RegionsViewController.swift:275-279 | prepends one exit event with the region's identifier; badge +1 |
| `Controller.RegionsViewController.MonitoringDidFailForRegion` | Regions/RegionsViewController.swift:282-287 | requires a region (force unwrap); prepends one failure event; badge +1 |
| `Controller.RegionsViewController.AddRegion` | Regions/RegionsViewController.swift:328-350 | without monitoring, no annotation and no manager call; otherwise one fresh annotation at the map centre with radius 1000 (its radius store announced) and one start for that region |
| `Controller.RegionsViewController.UpdateWithEvent` | Regions/RegionsViewController.swift:356-366 | the log becomes `[event] + old`; earlier entries move down one place unchanged; badge +1 |
| `Controller.RegionsViewController.ResetBadge` | Regions/RegionsAppDelegate.swift:44 | the badge number becomes 0 |

## Left out

- Table view data source and cells, row height, the circle renderer's colours and its `fatalError` path, orientation, `switchViews`, and every `reloadData` call: user-interface rendering with no bookkeeping.
- `didFailWithError` and `didUpdateLocations`: diagnostics, and the zoom and re-centring of the map at Regions/RegionsViewController.swift:263. The map's centre is an input of the model instead.
- `NSLog` diagnostics, `distanceFilter` and `desiredAccuracy`, the pin colour, the callout button's image and frame, and `deinit`: no effect on the modelled state.
- The pre-iOS 8 branches of `viewDidLoad`, which starts updates without asking for authorisation, and of `didChangeAuthorizationStatus` (Regions/RegionsViewController.swift:291), which does nothing.
- What the location service does with start and stop calls. The manager's monitored-region set is fixed input; the calls are recorded, not carried out.
- View dequeueing inside the map. The view the map offers for reuse is a parameter of `ViewForAnnotation`.
- The statement at Regions/RegionAnnotationView.swift:83. It adds the circle to `map`, which line 74 has just set to nil, so it never runs. The constructor's contract says no overlay is added.
- Floating point: coordinates and radii are exact reals compared for equality. The NaN case of the coordinate comparison is not modelled.
- The rounding done by the "%f, %f", "%.4F"/"%.1f" and event format strings. The subtitle and the events keep the formatting arguments, so the model tells apart strings the app would render alike.
- Concurrency: every callback runs on the main thread, one at a time.
- `Maps.RemoveFirst`: overlays are values, not objects, so removing an overlay removes the first equal overlay. In the removal loop this has the same effect, since every equal circle at the coordinate is removed.
- `Controller.RegionsViewController.CalloutAccessoryControlTapped`: the contract gives the final manager trace and the final map. It does not record the order between the stop call and the two map edits, which live in separate objects; the method body issues them in the source's order.
- `Controller.RegionsViewController.DidChangeDragState`: requires the view's invariant (`Valid`: flag down, `annotation` and `theAnnotation` the same). Every view the controller creates keeps it; the source does not check it.
- `Controller.RegionsViewController.ViewForAnnotation`: requires a reused view's flag to be down, as `Valid` keeps it; the source does not check it.
- `Controller.RegionsViewController.UpdateWithEvent`: the badge number is an unbounded integer, so Swift's overflow trap on `++` is not modelled.
