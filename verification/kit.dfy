/** Values of the location and map frameworks that the Regions app works with:
    coordinates, regions, radius overlays, drag states, authorisation states,
    and the location manager, which the model reduces to the trace of calls the
    app issues on it. */
module Kit {

  datatype Option<+T> = None | Some(value: T)

  /** A latitude/longitude pair. The app only copies coordinates and compares
      them for equality, so exact reals stand in for the 64-bit doubles. */
  datatype Coordinate = Coordinate(latitude: real, longitude: real)

  /** A circular region: centre, radius in metres and identifier string. */
  datatype CircularRegion = CircularRegion(center: Coordinate, radius: real, identifier: string)

  /** A monitored region: circular, or of some other kind (a beacon region, say). */
  datatype Region = Circular(circle: CircularRegion) | NonCircular(id: string)
  {
    function Identifier(): string {
      match this
      case Circular(c) => c.identifier
      case NonCircular(id) => id
    }
  }

  /** An overlay on the map: a radius circle, or an overlay of another shape
      anchored at a coordinate. */
  datatype Overlay = Circle(center: Coordinate, radius: real) | Other(coordinate: Coordinate)

  /** Drag states an annotation view passes through (`NoDrag` is the framework's `.None`). */
  datatype DragState = NoDrag | Starting | Dragging | Canceling | Ending

  /** Authorisation states of the location service. */
  datatype AuthorizationStatus = NotDetermined | Restricted | Denied | AuthorizedAlways | AuthorizedWhenInUse

  /** One call the app issues on the location manager. */
  datatype ManagerCall =
    | RequestAlwaysAuthorization
    | StartUpdatingLocation
    | StartMonitoring(region: Region)
    | StopMonitoring(region: Region)

  /** The location manager, seen from the app: the regions the system already
      monitors for it, and the append-only trace of calls the app has issued. */
  class LocationManager {
    const monitoredRegions: seq<Region>
    var calls: seq<ManagerCall>

    constructor (monitored: seq<Region>)
      ensures monitoredRegions == monitored && calls == []
    {
      monitoredRegions := monitored;
      calls := [];
    }

    method RequestAlwaysAuthorization()
      modifies this`calls
      ensures calls == old(calls) + [ManagerCall.RequestAlwaysAuthorization]
    {
      calls := calls + [ManagerCall.RequestAlwaysAuthorization];
    }

    method StartUpdatingLocation()
      modifies this`calls
      ensures calls == old(calls) + [ManagerCall.StartUpdatingLocation]
    {
      calls := calls + [ManagerCall.StartUpdatingLocation];
    }

    method StartMonitoring(region: Region)
      modifies this`calls
      ensures calls == old(calls) + [ManagerCall.StartMonitoring(region)]
    {
      calls := calls + [ManagerCall.StartMonitoring(region)];
    }

    method StopMonitoring(region: Region)
      modifies this`calls
      ensures calls == old(calls) + [ManagerCall.StopMonitoring(region)]
    {
      calls := calls + [ManagerCall.StopMonitoring(region)];
    }
  }
}
