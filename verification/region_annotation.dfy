/** The annotation that represents a monitored region on the map
    (Regions/RegionAnnotation.swift). */
module Annotations {
  import opened Kit

  /** The title every annotation carries; the map also uses it as the reuse
      identifier of annotation views. */
  const MonitoredRegionTitle: string := "Monitored Region"

  /** The key-value key that the radius setter announces. */
  const SubtitleKey: string := "subtitle"

  /** A subtitle, kept as the three arguments of its format string
      "Lat: %.4F, Lon: %.4F, Rad: %.1fm"; the rounding is not modelled. */
  datatype Subtitle = Subtitle(latitude: real, longitude: real, radius: real)

  /** A key-value change notification, with the subtitle an observer reading
      it at that moment would see. */
  datatype Notice = WillChange(key: string, seen: Subtitle) | DidChange(key: string, seen: Subtitle)

  /** The subtitle shown for an annotation at `c` with radius `r`. */
  function SubtitleOf(c: Coordinate, r: real): Subtitle {
    Subtitle(c.latitude, c.longitude, r)
  }

  class RegionAnnotation {
    var region: Option<Region>
    var coordinate: Coordinate
    var radius: real
    var title: Option<string>
    /** The change notifications emitted so far, oldest first. */
    var notices: seq<Notice>

    /** The annotation with no region: origin coordinate, radius 0. */
    constructor ()
      ensures region == None && coordinate == Coordinate(0.0, 0.0) && radius == 0.0
      ensures title == Some(MonitoredRegionTitle) && notices == []
    {
      region := None;
      coordinate := Coordinate(0.0, 0.0);
      radius := 0.0;
      title := Some(MonitoredRegionTitle);
      notices := [];
    }

    /** The annotation of a monitored circular region. Stores made while
        initialising do not run the radius observers, so nothing is announced. */
    constructor FromRegion(newRegion: CircularRegion)
      ensures region == Some(Circular(newRegion))
      ensures coordinate == newRegion.center && radius == newRegion.radius
      ensures title == Some(MonitoredRegionTitle) && notices == []
    {
      region := Some(Circular(newRegion));
      coordinate := newRegion.center;
      radius := newRegion.radius;
      title := Some(MonitoredRegionTitle);
      notices := [];
    }

    /** The subtitle currently shown. */
    function CurrentSubtitle(): Subtitle
      reads this
    {
      SubtitleOf(coordinate, radius)
    }

    /** Assigning `radius`: one will-change notice before the store, one
        did-change notice after it, and no other field touched. */
    method SetRadius(newRadius: real)
      modifies this`radius, this`notices
      ensures radius == newRadius
      ensures notices == old(notices) + [WillChange(SubtitleKey, old(CurrentSubtitle())),
                                         DidChange(SubtitleKey, SubtitleOf(coordinate, newRadius))]
    {
      notices := notices + [WillChange(SubtitleKey, CurrentSubtitle())];
      radius := newRadius;
      notices := notices + [DidChange(SubtitleKey, CurrentSubtitle())];
    }
  }

  /** Two annotations that agree on coordinate and radius show the same subtitle. */
  lemma SubtitleDependsOnCoordinateAndRadius(a: RegionAnnotation, b: RegionAnnotation)
    requires a.coordinate == b.coordinate && a.radius == b.radius
    ensures a.CurrentSubtitle() == b.CurrentSubtitle()
  {
  }
}
