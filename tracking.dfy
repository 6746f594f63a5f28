/**
  * The tracking screen of DistanciaUsuarioActivity.kt: the device's own location,
  * the tracked user's location read from the database, one map marker for each,
  * the distance label and the map's centre and zoom.
  */
module Tracking {
  import opened Wrappers

  /** A map position; Kotlin's `Double` coordinates are `real` (no rounding, no NaN). */
  datatype GeoPoint = GeoPoint(latitude: real, longitude: real)

  datatype MarkerIcon = BlueMarker | RedMarker

  /** What `tvDistancia` shows; the two-decimal rendering of a distance is not modelled. */
  datatype DistanceText =
    | LayoutDefault            // the text from the layout, before any update
    | Calculating              // "Calculando distancia..."
    | Meters(distance: real)   // "Distancia: %.2f metros"
    | Message(text: string)    // an error message

  /** One coordinate of the tracked user's `location` record as `getValue(Double)` sees it. */
  datatype Coordinate =
    | Missing                  // absent or null: `getValue` returns null
    | Number(value: real)
    | Unreadable               // a value that does not convert to a Double: `getValue` throws

  /** The tracked user's `name` as `getValue(String)` sees it. */
  datatype NameField =
    | NameMissing              // absent or null: `getValue` returns null
    | NameText(text: string)
    | NameUnreadable           // a value that does not convert to a String: `getValue` throws

  /** The toast shown when a marker is tapped. */
  datatype MarkerToast = MarkerToast(meters: int, text: string)

  const DefaultZoomLevel := 15.0
  const NotShared := "El usuario no ha compartido su ubicación"
  const ReadError := "Error al leer ubicación"
  const ConnectionError := "Error de conexión con Firebase"

  /** An OSMDroid marker: an object whose position and title are changed in place. */
  class Marker {
    var position: GeoPoint
    /** `None` until something assigns it: the marker factory does not set the title. */
    var title: Option<string>
    const icon: MarkerIcon

    /** `addMarkerToMap` without the map: position and icon are set, the title argument is not used. */
    constructor (position: GeoPoint, icon: MarkerIcon)
      ensures this.position == position && this.icon == icon && title.None?
    {
      this.position := position;
      this.icon := icon;
      title := None;
    }
  }

  ghost predicate DistinctMarkers(s: seq<Marker>) {
    forall i, j :: 0 <= i < j < |s| ==> s[i] != s[j]
  }

  /** `MutableList.remove`: the first occurrence of `m` taken out (markers compare by identity). */
  function Without(s: seq<Marker>, m: Marker): (r: seq<Marker>)
    ensures forall x :: x in r ==> x in s
    ensures forall x :: x in s && x != m ==> x in r
    ensures m in s ==> |r| == |s| - 1
    ensures m !in s ==> r == s
    ensures DistinctMarkers(s) ==> DistinctMarkers(r) && m !in r
  {
    if s == [] then []
    else if s[0] == m then s[1..]
    else
      var r := [s[0]] + Without(s[1..], m);
      assert DistinctMarkers(s) ==> DistinctMarkers(s[1..]) && s[0] !in s[1..];
      r
  }

  /** The first position of `m` in `s`. */
  ghost function FirstIndex(s: seq<Marker>, m: Marker): (i: nat)
    requires m in s
    ensures i < |s| && s[i] == m && m !in s[..i]
  {
    if s[0] == m then 0
    else
      var j := FirstIndex(s[1..], m);
      assert s[..j + 1] == [s[0]] + s[1..][..j];
      j + 1
  }

  /** Removing position `i + 1` of `x :: t` is putting `x` in front of `t` with position `i` removed. */
  lemma ConsSplice(x: Marker, t: seq<Marker>, i: nat)
    requires i < |t|
    ensures [x] + (t[..i] + t[i + 1..]) == ([x] + t)[..i + 1] + ([x] + t)[i + 2..]
  {
    var s := [x] + t;
    assert s[..i + 1] == [x] + t[..i];
    assert s[i + 2..] == t[i + 1..];
  }

  /** `remove` takes out the FIRST occurrence of the marker and keeps the order of the rest. */
  lemma {:induction false} WithoutRemovesFirst(s: seq<Marker>, m: Marker)
    requires m in s
    ensures Without(s, m) == s[..FirstIndex(s, m)] + s[FirstIndex(s, m) + 1..]
  {
    if s[0] != m {
      var t := s[1..];
      WithoutRemovesFirst(t, m);
      var i := FirstIndex(t, m);
      assert FirstIndex(s, m) == i + 1;
      assert s == [s[0]] + t;
      ConsSplice(s[0], t, i);
      }
  }

  /** The zoom level chosen for a distance in metres. */
  function ZoomFor(distance: real): (z: real)
    ensures z == 12.0 || z == 14.0 || z == 16.0
  {
    if distance > 5000.0 then 12.0
    else if distance > 1000.0 then 14.0
    else 16.0
  }

  /** Which distances get which level. */
  lemma ZoomBands(distance: real)
    ensures ZoomFor(distance) == 12.0 <==> distance > 5000.0
    ensures ZoomFor(distance) == 14.0 <==> 1000.0 < distance <= 5000.0
    ensures ZoomFor(distance) == 16.0 <==> distance <= 1000.0
  {
  }

  /** The farther apart the two points, the wider the view: the zoom never increases with distance. */
  lemma ZoomMonotone(d1: real, d2: real)
    requires d1 <= d2
    ensures ZoomFor(d2) <= ZoomFor(d1)
  {
  }

  /** The point halfway between two positions (exact; the source averages Doubles). */
  function Midpoint(a: GeoPoint, b: GeoPoint): (m: GeoPoint)
    ensures m.latitude - a.latitude == b.latitude - m.latitude
    ensures m.longitude - a.longitude == b.longitude - m.longitude
  {
    GeoPoint((a.latitude + b.latitude) / 2.0, (a.longitude + b.longitude) / 2.0)
  }

  function DigitChar(d: nat): char
    requires d < 10
  {
    ('0' as int + d) as char
  }

  predicate AllDigits(s: string) {
    forall k :: 0 <= k < |s| ==> '0' <= s[k] <= '9'
  }

  /** The number a run of decimal digits denotes, most significant digit first. */
  function DecimalValue(s: string): nat
    requires AllDigits(s)
    decreases |s|
  {
    if s == [] then 0 else DecimalValue(s[..|s| - 1]) * 10 + (s[|s| - 1] as int - '0' as int)
  }

  /** Kotlin's decimal rendering of a non-negative Int: digits only, no leading zero. */
  function NatToString(n: nat): (s: string)
    ensures |s| >= 1 && AllDigits(s)
    ensures n > 0 ==> s[0] != '0'
  {
    if n < 10 then [DigitChar(n)] else NatToString(n / 10) + [DigitChar(n % 10)]
  }

  /** The rendering denotes the number: reading the digits back gives `n`. */
  lemma {:induction false} NatToStringValue(n: nat)
    ensures DecimalValue(NatToString(n)) == n
    decreases n
  {
    if n >= 10 {
      NatToStringValue(n / 10);
      var s := NatToString(n);
      assert s[..|s| - 1] == NatToString(n / 10);
    }
  }

  class TrackingScreen {
    /** `Location.distanceBetween`, the platform's geodesic distance in metres. */
    const distanceBetween: (GeoPoint, GeoPoint) -> real

    var currentLocation: Option<GeoPoint>
    var trackedUserLocation: Option<GeoPoint>
    var currentUserMarker: Marker?
    var trackedUserMarker: Marker?
    /** The markers among the map's overlays, in insertion order (the scale bar is not modelled). */
    var overlays: seq<Marker>
    var center: Option<GeoPoint>
    var zoom: real
    var distanceText: DistanceText
    var nombreUsuarioSeguido: string
    /** What `tvNombreUsuario` shows once the tracked user's record has been read. */
    var followingText: Option<string>

    /** Each marker on the map, with its own icon, and no overlay twice. */
    ghost predicate Structure()
      reads this
    {
      && DistinctMarkers(overlays)
      && (currentUserMarker != null ==> currentUserMarker in overlays && currentUserMarker.icon == BlueMarker)
      && (trackedUserMarker != null ==> trackedUserMarker in overlays && trackedUserMarker.icon == RedMarker)
    }

    /** The own marker exists exactly when the own location is known, and stands on it. */
    ghost predicate CurrentSynced()
      reads this, currentUserMarker
    {
      && (currentUserMarker != null <==> currentLocation.Some?)
      && (currentUserMarker != null ==> currentUserMarker.position == currentLocation.value)
    }

    /** The tracked marker exists exactly when the tracked location is known, and stands on it. */
    ghost predicate TrackedSynced()
      reads this, trackedUserMarker
    {
      && (trackedUserMarker != null <==> trackedUserLocation.Some?)
      && (trackedUserMarker != null ==> trackedUserMarker.position == trackedUserLocation.value)
    }

    /** The screen's invariant between two events. */
    ghost predicate Valid()
      reads this, currentUserMarker, trackedUserMarker
    {
      Structure() && CurrentSynced() && TrackedSynced()
    }

    /** `onCreate` and `initializeMap`: no location, no marker, the default zoom. */
    constructor (distanceBetween: (GeoPoint, GeoPoint) -> real)
      ensures Valid()
      ensures this.distanceBetween == distanceBetween
      ensures currentLocation.None? && trackedUserLocation.None?
      ensures currentUserMarker == null && trackedUserMarker == null && overlays == []
      ensures center.None? && zoom == DefaultZoomLevel && distanceText == LayoutDefault
      ensures nombreUsuarioSeguido == "" && followingText.None?
    {
      this.distanceBetween := distanceBetween;
      currentLocation, trackedUserLocation := None, None;
      currentUserMarker, trackedUserMarker := null, null;
      overlays := [];
      center, zoom := None, DefaultZoomLevel;
      distanceText := LayoutDefault;
      nombreUsuarioSeguido, followingText := "", None;
    }

    /** `updateCurrentUserMarker`: create the own marker once, afterwards only move it. */
    method UpdateCurrentUserMarker()
      requires Structure()
      requires trackedUserMarker != null ==> trackedUserMarker != currentUserMarker
      modifies this, currentUserMarker
      ensures old(currentLocation).Some? ==> CurrentSynced()
      ensures Structure()
      ensures currentLocation == old(currentLocation) && trackedUserLocation == old(trackedUserLocation)
      ensures trackedUserMarker == old(trackedUserMarker)
      ensures center == old(center) && zoom == old(zoom) && distanceText == old(distanceText)
      ensures nombreUsuarioSeguido == old(nombreUsuarioSeguido) && followingText == old(followingText)
      ensures old(currentLocation).None? ==>
                currentUserMarker == old(currentUserMarker) && overlays == old(overlays)
                && (currentUserMarker != null ==> currentUserMarker.position == old(currentUserMarker.position)
                                                  && currentUserMarker.title == old(currentUserMarker.title))
      ensures old(currentLocation).Some? && old(currentUserMarker) == null ==>
                && currentUserMarker != null && fresh(currentUserMarker)
                && currentUserMarker.position == currentLocation.value
                && currentUserMarker.title.None? && currentUserMarker.icon == BlueMarker
                && overlays == old(overlays) + [currentUserMarker]
      ensures old(currentLocation).Some? && old(currentUserMarker) != null ==>
                && currentUserMarker == old(currentUserMarker)
                && currentUserMarker.position == currentLocation.value
                && currentUserMarker.title == old(currentUserMarker.title)
                && overlays == old(overlays)
    {
      match currentLocation
      case None =>
      case Some(location) =>
        if currentUserMarker == null {
          var marker := new Marker(location, BlueMarker);
          overlays := overlays + [marker];
          currentUserMarker := marker;
        } else {
          currentUserMarker.position := location;
        }
    }

    /** `updateTrackedUserMarker`: create, move and retitle, or remove the tracked user's marker. */
    method UpdateTrackedUserMarker()
      requires Structure()
      requires currentUserMarker != null ==> currentUserMarker != trackedUserMarker
      modifies this, trackedUserMarker
      ensures Structure() && TrackedSynced()
      ensures currentLocation == old(currentLocation) && trackedUserLocation == old(trackedUserLocation)
      ensures currentUserMarker == old(currentUserMarker)
      ensures currentUserMarker != null ==> currentUserMarker.position == old(currentUserMarker.position)
      ensures center == old(center) && zoom == old(zoom) && distanceText == old(distanceText)
      ensures nombreUsuarioSeguido == old(nombreUsuarioSeguido) && followingText == old(followingText)
      ensures old(trackedUserLocation).Some? && old(trackedUserMarker) == null ==>
                && trackedUserMarker != null && fresh(trackedUserMarker)
                && trackedUserMarker.position == trackedUserLocation.value
                && trackedUserMarker.title.None? && trackedUserMarker.icon == RedMarker
                && overlays == old(overlays) + [trackedUserMarker]
      ensures old(trackedUserLocation).Some? && old(trackedUserMarker) != null ==>
                && trackedUserMarker == old(trackedUserMarker)
                && trackedUserMarker.position == trackedUserLocation.value
                && trackedUserMarker.title == Some(nombreUsuarioSeguido)
                && overlays == old(overlays)
      ensures old(trackedUserLocation).None? ==>
                && trackedUserMarker == null
                && overlays == (if old(trackedUserMarker) == null then old(overlays)
                                else Without(old(overlays), old(trackedUserMarker)))
    {
      match trackedUserLocation
      case Some(location) =>
        if trackedUserMarker == null {
          var marker := new Marker(location, RedMarker);
          overlays := overlays + [marker];
          trackedUserMarker := marker;
        } else {
          trackedUserMarker.position := location;
          trackedUserMarker.title := Some(nombreUsuarioSeguido);
        }
      case None =>
        if trackedUserMarker != null {
          overlays := Without(overlays, trackedUserMarker);
          trackedUserMarker := null;
        }
    }

    /** `updateDistance`: the distance when both locations are known, "Calculando distancia..." otherwise. */
    method UpdateDistance()
      modifies this
      ensures distanceText == (if currentLocation.Some? && trackedUserLocation.Some?
                               then Meters(distanceBetween(currentLocation.value, trackedUserLocation.value))
                               else Calculating)
      ensures currentLocation == old(currentLocation) && trackedUserLocation == old(trackedUserLocation)
      ensures currentUserMarker == old(currentUserMarker) && trackedUserMarker == old(trackedUserMarker)
      ensures overlays == old(overlays) && center == old(center) && zoom == old(zoom)
      ensures nombreUsuarioSeguido == old(nombreUsuarioSeguido) && followingText == old(followingText)
    {
      if currentLocation.Some? && trackedUserLocation.Some? {
        var distance := distanceBetween(currentLocation.value, trackedUserLocation.value);
        distanceText := Meters(distance);
      } else {
        distanceText := Calculating;
      }
    }

    /** `centerMapBetweenLocations`: centre on the midpoint and zoom by distance, when both are known. */
    method CenterMapBetweenLocations()
      modifies this
      ensures currentLocation.Some? && trackedUserLocation.Some? ==>
                && center == Some(Midpoint(currentLocation.value, trackedUserLocation.value))
                && zoom == ZoomFor(distanceBetween(currentLocation.value, trackedUserLocation.value))
      ensures currentLocation.None? || trackedUserLocation.None? ==> center == old(center) && zoom == old(zoom)
      ensures currentLocation == old(currentLocation) && trackedUserLocation == old(trackedUserLocation)
      ensures currentUserMarker == old(currentUserMarker) && trackedUserMarker == old(trackedUserMarker)
      ensures overlays == old(overlays) && distanceText == old(distanceText)
      ensures nombreUsuarioSeguido == old(nombreUsuarioSeguido) && followingText == old(followingText)
    {
      match (currentLocation, trackedUserLocation)
      case (Some(current), Some(tracked)) =>
        center := Some(Midpoint(current, tracked));
        var distance := distanceBetween(current, tracked);
        zoom := ZoomFor(distance);
      case _ =>
    }

    /** `updateDistanceAndCenterMap`: the three-way branch on which locations are known. */
    method UpdateDistanceAndCenterMap()
      modifies this
      ensures currentLocation.Some? && trackedUserLocation.Some? ==>
                var d := distanceBetween(currentLocation.value, trackedUserLocation.value);
                && distanceText == Meters(d)
                && center == Some(Midpoint(currentLocation.value, trackedUserLocation.value))
                && zoom == ZoomFor(d)
      ensures currentLocation.Some? && trackedUserLocation.None? ==>
                center == currentLocation && zoom == old(zoom) && distanceText == old(distanceText)
      ensures currentLocation.None? ==>
                center == old(center) && zoom == old(zoom) && distanceText == old(distanceText)
      ensures currentLocation == old(currentLocation) && trackedUserLocation == old(trackedUserLocation)
      ensures currentUserMarker == old(currentUserMarker) && trackedUserMarker == old(trackedUserMarker)
      ensures overlays == old(overlays)
      ensures nombreUsuarioSeguido == old(nombreUsuarioSeguido) && followingText == old(followingText)
    {
      if currentLocation.Some? && trackedUserLocation.Some? {
        UpdateDistance();
        CenterMapBetweenLocations();
      } else if currentLocation.Some? {
        center := currentLocation;
      }
    }

    /** A new fix of the device (last known location or location callback); the database write is left out. */
    method OnCurrentLocation(p: GeoPoint)
      requires Valid()
      modifies this, currentUserMarker
      ensures Valid()
      ensures currentLocation == Some(p) && trackedUserLocation == old(trackedUserLocation)
      ensures old(currentUserMarker) != null ==>
                && currentUserMarker == old(currentUserMarker)
                && currentUserMarker.title == old(currentUserMarker.title)
                && overlays == old(overlays)
      ensures old(currentUserMarker) == null ==>
                && fresh(currentUserMarker) && currentUserMarker.title.None?
                && overlays == old(overlays) + [currentUserMarker]
      ensures trackedUserMarker == old(trackedUserMarker)
      ensures nombreUsuarioSeguido == old(nombreUsuarioSeguido) && followingText == old(followingText)
      ensures trackedUserLocation.Some? ==>
                var d := distanceBetween(p, trackedUserLocation.value);
                distanceText == Meters(d) && center == Some(Midpoint(p, trackedUserLocation.value)) && zoom == ZoomFor(d)
      ensures trackedUserLocation.None? ==>
                center == Some(p) && zoom == old(zoom) && distanceText == old(distanceText)
    {
      currentLocation := Some(p);
      UpdateCurrentUserMarker();
      UpdateDistanceAndCenterMap();
    }

    /** `showLocationError`: the message in the label, the tracked location forgotten and its marker removed. */
    method ShowLocationError(message: string) returns (toast: string)
      requires Valid()
      modifies this, trackedUserMarker
      ensures Valid()
      ensures toast == message && distanceText == Message(message)
      ensures trackedUserLocation.None? && trackedUserMarker == null
      ensures overlays == (if old(trackedUserMarker) == null then old(overlays)
                           else Without(old(overlays), old(trackedUserMarker)))
      ensures old(trackedUserMarker) != null ==> old(trackedUserMarker) !in overlays
      ensures currentLocation == old(currentLocation) && currentUserMarker == old(currentUserMarker)
      ensures center == old(center) && zoom == old(zoom)
      ensures nombreUsuarioSeguido == old(nombreUsuarioSeguido) && followingText == old(followingText)
    {
      toast := message;
      distanceText := Message(message);
      trackedUserLocation := None;
      UpdateTrackedUserMarker();
    }

    /**
      * `onDataChange` of `startTrackingUser`: the tracked location is replaced only when
      * both coordinates are numbers; otherwise the error path runs and returns its toast.
      */
    method OnTrackedLocation(latitude: Coordinate, longitude: Coordinate) returns (toast: Option<string>)
      requires Valid()
      modifies this, trackedUserMarker
      ensures Valid()
      ensures currentLocation == old(currentLocation) && currentUserMarker == old(currentUserMarker)
      ensures nombreUsuarioSeguido == old(nombreUsuarioSeguido) && followingText == old(followingText)
      ensures latitude.Number? && longitude.Number? ==>
                toast.None? && trackedUserLocation == Some(GeoPoint(latitude.value, longitude.value))
      ensures latitude.Number? && longitude.Number? && old(trackedUserMarker) == null ==>
                && fresh(trackedUserMarker) && trackedUserMarker.title.None?
                && overlays == old(overlays) + [trackedUserMarker]
      ensures latitude.Number? && longitude.Number? && old(trackedUserMarker) != null ==>
                && trackedUserMarker == old(trackedUserMarker)
                && trackedUserMarker.title == Some(nombreUsuarioSeguido)
                && overlays == old(overlays)
      ensures latitude.Number? && longitude.Number? && currentLocation.Some? ==>
                var d := distanceBetween(currentLocation.value, trackedUserLocation.value);
                && distanceText == Meters(d)
                && center == Some(Midpoint(currentLocation.value, trackedUserLocation.value))
                && zoom == ZoomFor(d)
      ensures latitude.Number? && longitude.Number? && currentLocation.None? ==>
                center == old(center) && zoom == old(zoom) && distanceText == old(distanceText)
      ensures latitude.Unreadable? || longitude.Unreadable? ==>
                toast == Some(ReadError) && distanceText == Message(ReadError)
      ensures !latitude.Unreadable? && !longitude.Unreadable? && (latitude.Missing? || longitude.Missing?) ==>
                toast == Some(NotShared) && distanceText == Message(NotShared)
      ensures !(latitude.Number? && longitude.Number?) ==>
                && trackedUserLocation.None? && trackedUserMarker == null
                && overlays == (if old(trackedUserMarker) == null then old(overlays)
                                else Without(old(overlays), old(trackedUserMarker)))
                && (old(trackedUserMarker) != null ==> old(trackedUserMarker) !in overlays)
                && center == old(center) && zoom == old(zoom)
    {
      if latitude.Unreadable? || longitude.Unreadable? {
        // `getValue(Double)` throws; the catch block shows the read error
        var t := ShowLocationError(ReadError);
        toast := Some(t);
        return;
      }
      if latitude.Missing? || longitude.Missing? {
        var t := ShowLocationError(NotShared);
        toast := Some(t);
        return;
      }
      toast := None;
      trackedUserLocation := Some(GeoPoint(latitude.value, longitude.value));
      UpdateTrackedUserMarker();
      UpdateDistanceAndCenterMap();
    }

    /** `onCancelled` of `startTrackingUser`. */
    method OnTrackingCancelled() returns (toast: string)
      requires Valid()
      modifies this, trackedUserMarker
      ensures Valid()
      ensures toast == ConnectionError && distanceText == Message(ConnectionError)
      ensures trackedUserLocation.None? && trackedUserMarker == null
      ensures overlays == (if old(trackedUserMarker) == null then old(overlays)
                           else Without(old(overlays), old(trackedUserMarker)))
      ensures old(trackedUserMarker) != null ==> old(trackedUserMarker) !in overlays
      ensures currentLocation == old(currentLocation) && currentUserMarker == old(currentUserMarker)
      ensures center == old(center) && zoom == old(zoom)
      ensures nombreUsuarioSeguido == old(nombreUsuarioSeguido) && followingText == old(followingText)
    {
      toast := ShowLocationError(ConnectionError);
    }

    /**
      * `loadUserInfo`: the tracked user's name ("Usuario" when missing) shown and given to
      * the marker. An unreadable name makes `getValue` throw before anything is assigned.
      */
    method OnUserInfo(name: NameField)
      requires Valid()
      modifies this, trackedUserMarker
      ensures Valid()
      ensures trackedUserMarker == old(trackedUserMarker)
      ensures name.NameUnreadable? ==>
                nombreUsuarioSeguido == old(nombreUsuarioSeguido) && followingText == old(followingText)
      ensures name.NameUnreadable? && old(trackedUserMarker) != null ==>
                trackedUserMarker.title == old(trackedUserMarker.title)
      ensures name.NameMissing? ==> nombreUsuarioSeguido == "Usuario"
      ensures name.NameText? ==> nombreUsuarioSeguido == name.text
      ensures !name.NameUnreadable? ==> followingText == Some("Siguiendo a: " + nombreUsuarioSeguido)
      ensures !name.NameUnreadable? && trackedUserMarker != null ==>
                trackedUserMarker.title == Some(nombreUsuarioSeguido)
      ensures currentLocation == old(currentLocation) && trackedUserLocation == old(trackedUserLocation)
      ensures currentUserMarker == old(currentUserMarker) && overlays == old(overlays)
      ensures center == old(center) && zoom == old(zoom) && distanceText == old(distanceText)
    {
      if name.NameUnreadable? {
        return;
      }
      nombreUsuarioSeguido := if name.NameText? then name.text else "Usuario";
      followingText := Some("Siguiendo a: " + nombreUsuarioSeguido);
      if trackedUserMarker != null {
        trackedUserMarker.title := Some(nombreUsuarioSeguido);
      }
    }

    /** `onCancelled` of `loadUserInfo`. */
    method OnUserInfoCancelled()
      requires Valid()
      modifies this
      ensures Valid()
      ensures followingText == Some("Siguiendo a: Usuario desconocido")
      ensures nombreUsuarioSeguido == old(nombreUsuarioSeguido)
      ensures currentLocation == old(currentLocation) && trackedUserLocation == old(trackedUserLocation)
      ensures currentUserMarker == old(currentUserMarker) && trackedUserMarker == old(trackedUserMarker)
      ensures overlays == old(overlays)
      ensures center == old(center) && zoom == old(zoom) && distanceText == old(distanceText)
    {
      followingText := Some("Siguiendo a: Usuario desconocido");
    }

    /**
      * `showRandomDistanceToast`: `draw` is `random.nextInt(1000)`; the distance shown is
      * one more, and the text depends on which marker was tapped.
      */
    function RandomDistanceToast(marker: Marker, draw: int): (t: MarkerToast)
      reads this
      requires 0 <= draw < 1000
      ensures 1 <= t.meters <= 1000
      ensures marker == currentUserMarker ==>
                t.text == "Estás a " + NatToString(t.meters) + " metros de este punto"
      ensures marker != currentUserMarker && marker == trackedUserMarker ==>
                t.text == nombreUsuarioSeguido + " está a " + NatToString(t.meters) + " metros de ti"
      ensures marker != currentUserMarker && marker != trackedUserMarker ==>
                t.text == "Distancia: " + NatToString(t.meters) + " metros"
    {
      var randomDistance := 1 + draw;
      var text :=
        if marker == currentUserMarker then "Estás a " + NatToString(randomDistance) + " metros de este punto"
        else if marker == trackedUserMarker then nombreUsuarioSeguido + " está a " + NatToString(randomDistance) + " metros de ti"
        else "Distancia: " + NatToString(randomDistance) + " metros";
      MarkerToast(randomDistance, text)
    }
  }
}
