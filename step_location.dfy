/**
 * The location step of the wizard: turning a reverse-geocode reply into
 * ward, landmark and street address, choosing the coordinates to look up,
 * and keeping the map's flight target in step with what was detected.
 */
module StepLocation {
  import opened Wrappers
  import opened ComplaintForm

  /** A latitude/longitude pair; coordinates are only ever compared for equality. */
  datatype Point = Point(lat: real, lng: real)

  const DefaultCenter := Point(20.5937, 78.9629)
  const DefaultZoom := 4
  const DetectZoom := 16
  /** What the map controller uses when a target leaves duration or easing unset. */
  const DefaultDuration: real := 2.4
  const DefaultEaseLinearity: real := 0.25

  const GpsDenied := "GPS access denied"
  const AddressNotFound := "Address not found"

  // ---------------------------------------------------------------------------
  // Reverse-geocode reply and address extraction
  // ---------------------------------------------------------------------------

  /**
   * The `address` object of a reverse-geocode reply. A field the reply does
   * not carry is the empty string: both are falsy to the `||` chains.
   */
  datatype AddressDetails = AddressDetails(
    neighbourhood: string,
    suburb: string,
    residential: string,
    village: string,
    amenity: string,
    shop: string,
    building: string,
    houseNumber: string,
    road: string,
    city: string,
    town: string,
    county: string)

  /** `{}`, what `data.address || {}` falls back to. */
  const NoDetails := AddressDetails("", "", "", "", "", "", "", "", "", "", "", "")

  /** The parsed reply body: the place's own `name` and its optional `address` object. */
  datatype Place = Place(name: string, address: Option<AddressDetails>)

  /**
   * How the lookup request ends: the request throws, or a response arrives
   * with its `ok` status and a body that parses to a place (`None` when
   * reading the body fails).
   */
  datatype LookupReply = Thrown | Response(ok: bool, body: Option<Place>)

  /** What a successful lookup yields for the form. */
  datatype Resolved = Resolved(ward: string, landmark: string, address: string)

  /** `a || b || ... || ""` over strings: the first non-empty candidate, or "". */
  function FirstNonEmpty(candidates: seq<string>): (r: string)
    ensures r == "" <==> forall i :: 0 <= i < |candidates| ==> candidates[i] == ""
    ensures r != "" ==> exists i :: 0 <= i < |candidates| && candidates[i] == r &&
                                    forall j :: 0 <= j < i ==> candidates[j] == ""
  {
    if candidates == [] then ""
    else if candidates[0] != "" then candidates[0]
    else
      var rest := FirstNonEmpty(candidates[1..]);
      assert forall i :: 1 <= i < |candidates| ==> candidates[i] == candidates[1..][i - 1];
      rest
  }

  /** The characters `String.prototype.trim` strips: white space and line terminators. */
  predicate IsTrimmable(c: char) {
    || c == ' ' || c == '\t' || c == '\n' || c == '\r'
    || c == '\U{000B}' || c == '\U{000C}' || c == '\U{00A0}' || c == '\U{1680}'
    || ('\U{2000}' <= c <= '\U{200A}')
    || c == '\U{2028}' || c == '\U{2029}' || c == '\U{202F}' || c == '\U{205F}'
    || c == '\U{3000}' || c == '\U{FEFF}'
  }

  /** Neither end of `s` is trimmable. */
  predicate Trimmed(s: string) {
    s == "" || (!IsTrimmable(s[0]) && !IsTrimmable(s[|s| - 1]))
  }

  /** `s` with its leading trimmable characters removed. */
  function TrimStart(s: string): (r: string)
    ensures |r| <= |s| && r == s[|s| - |r|..]
    ensures r == "" || !IsTrimmable(r[0])
    ensures forall i :: 0 <= i < |s| - |r| ==> IsTrimmable(s[i])
  {
    if s != [] && IsTrimmable(s[0]) then TrimStart(s[1..]) else s
  }

  /** `s` with its trailing trimmable characters removed. */
  function TrimEnd(s: string): (r: string)
    ensures |r| <= |s| && r == s[..|r|]
    ensures r == "" || !IsTrimmable(r[|r| - 1])
    ensures forall i :: |r| <= i < |s| ==> IsTrimmable(s[i])
  {
    if s != [] && IsTrimmable(s[|s| - 1]) then TrimEnd(s[..|s| - 1]) else s
  }

  /** `s.trim()` */
  function Trim(s: string): (r: string)
    ensures Trimmed(r)
  {
    TrimEnd(TrimStart(s))
  }

  /** `parts.filter(Boolean)`: the non-empty parts, in order. */
  function NonEmpty(parts: seq<string>): (r: seq<string>)
    ensures forall i :: 0 <= i < |r| ==> r[i] != ""
    ensures |r| <= |parts|
  {
    if parts == [] then []
    else (if parts[0] == "" then [] else [parts[0]]) + NonEmpty(parts[1..])
  }

  /** Filtering keeps every non-empty part, as often as it occurs, and drops every empty one. */
  lemma {:induction false} NonEmptyKeepsAll(parts: seq<string>)
    ensures multiset(NonEmpty(parts)) == multiset(parts)["" := 0]
  {
    if parts != [] {
      assert parts == [parts[0]] + parts[1..];
      NonEmptyKeepsAll(parts[1..]);
    }
  }

  /**
   * Filtering works piecewise, so the kept parts stay in their original
   * order: the parts kept from a prefix come before those kept from the rest.
   */
  lemma {:induction false} NonEmptyAppend(front: seq<string>, back: seq<string>)
    ensures NonEmpty(front + back) == NonEmpty(front) + NonEmpty(back)
    decreases |front|
  {
    if front == [] {
      assert front + back == back;
    } else {
      var head := if front[0] == "" then [] else [front[0]];
      assert (front + back)[0] == front[0];
      assert (front + back)[1..] == front[1..] + back;
      assert NonEmpty(front + back) == head + NonEmpty(front[1..] + back);
      NonEmptyAppend(front[1..], back);
      assert NonEmpty(front) == head + NonEmpty(front[1..]);
    }
  }

  /** `parts.join(sep)` */
  function Join(parts: seq<string>, sep: string): string {
    if parts == [] then ""
    else if |parts| == 1 then parts[0]
    else parts[0] + sep + Join(parts[1..], sep)
  }

  /**
   * The reply's fields turned into form values: the ward and landmark by
   * their priority chains, the street address as `"<house> <road>"`
   * trimmed, then the city, town or county, joined by ", " with empty parts
   * dropped.
   */
  function Extract(data: Place): Resolved {
    var addr := data.address.GetOr(NoDetails);
    Resolved(
      FirstNonEmpty([addr.neighbourhood, addr.suburb, addr.residential, addr.village]),
      FirstNonEmpty([data.name, addr.amenity, addr.shop, addr.building]),
      Join(NonEmpty([Trim(addr.houseNumber + " " + addr.road),
                     FirstNonEmpty([addr.city, addr.town, addr.county])]), ", "))
  }

  /**
   * `fetchAddressFromCoords` once the request has ended: no result when the
   * request throws, the status is not ok or the body cannot be read;
   * otherwise the extracted fields, even when all of them are empty.
   */
  function FetchAddress(reply: LookupReply): (r: Option<Resolved>)
    ensures r.None? <==> reply.Thrown? || !reply.ok || reply.body.None?
    ensures r.Some? ==> r.value == Extract(reply.body.value)
  {
    match reply
    case Thrown => None
    case Response(ok, body) =>
      if !ok then None
      else match body
        case None => None
        case Some(data) => Some(Extract(data))
  }

  /** Joining the two address parts with empty ones dropped. */
  lemma JoinTwo(a: string, b: string)
    ensures Join(NonEmpty([a, b]), ", ") ==
            if a == "" then b else if b == "" then a else a + ", " + b
  {
    assert NonEmpty([a, b]) == (if a == "" then [] else [a]) + NonEmpty([b]);
    assert NonEmpty([b]) == (if b == "" then [] else [b]) + NonEmpty([]);
  }

  /** Trimming leaves an already trimmed string alone. */
  lemma TrimOfTrimmed(s: string)
    requires Trimmed(s)
    ensures Trim(s) == s
  {
  }

  /** Leading trimmable characters do not survive `TrimStart`. */
  lemma TrimStartSkipsSpace(s: string)
    ensures TrimStart(" " + s) == TrimStart(s)
  {
  }

  /** Trailing trimmable characters do not survive `TrimEnd`. */
  lemma TrimEndSkipsSpace(s: string)
    ensures TrimEnd(s + " ") == TrimEnd(s)
  {
  }

  /**
   * For a house number and a road that carry no surrounding blanks, the
   * trimmed `"<house> <road>"` is whichever of them is present, or both with
   * one space between them.
   */
  lemma StreetLine(house: string, road: string)
    requires Trimmed(house) && Trimmed(road)
    ensures Trim(house + " " + road) ==
            if house == "" then road else if road == "" then house else house + " " + road
  {
    if house == "" {
      assert house + " " + road == " " + road;
      TrimStartSkipsSpace(road);
      TrimOfTrimmed(road);
    } else if road == "" {
      assert house + " " + road == house + " ";
      assert TrimStart(house + " ") == house + " ";
      TrimEndSkipsSpace(house);
      assert TrimEnd(house) == house;
    } else {
      var s := house + " " + road;
      assert s[0] == house[0] && s[|s| - 1] == road[|road| - 1];
      TrimOfTrimmed(s);
    }
  }

  /**
   * The extracted fields for every reply, a missing address object read as
   * `{}`: ward and landmark are the first non-empty of their chains, and the
   * address is the trimmed "<house> <road>" and the locality joined by ", ",
   * either part alone when the other is empty, or "" when both are.
   */
  lemma ExtractAnyReply(data: Place)
    ensures var a := data.address.GetOr(NoDetails);
            var r := Extract(data);
            var street := Trim(a.houseNumber + " " + a.road);
            var locality := FirstNonEmpty([a.city, a.town, a.county]);
            && r.ward == FirstNonEmpty([a.neighbourhood, a.suburb, a.residential, a.village])
            && r.landmark == FirstNonEmpty([data.name, a.amenity, a.shop, a.building])
            && r.address == (if street == "" then locality
                             else if locality == "" then street
                             else street + ", " + locality)
  {
    var a := data.address.GetOr(NoDetails);
    JoinTwo(Trim(a.houseNumber + " " + a.road), FirstNonEmpty([a.city, a.town, a.county]));
  }

  /**
   * A reply without an address object (`data.address || {}`) yields no
   * ward and no address, and the place's own name as landmark.
   */
  lemma MissingAddressObject(data: Place)
    requires data.address.None?
    ensures Extract(data) == Resolved("", data.name, "")
  {
    var a := data.address.GetOr(NoDetails);
    assert a == NoDetails;
    assert Trim(a.houseNumber + " " + a.road) == "" by {
      assert a.houseNumber + " " + a.road == " " + "";
      TrimStartSkipsSpace("");
    }
    assert FirstNonEmpty([a.city, a.town, a.county]) == "" by {
      FirstNonEmptyOfThree(a.city, a.town, a.county);
    }
    assert FirstNonEmpty([a.neighbourhood, a.suburb, a.residential, a.village]) == "" by {
      FirstNonEmptyOfFour(a.neighbourhood, a.suburb, a.residential, a.village);
    }
    assert FirstNonEmpty([data.name, a.amenity, a.shop, a.building]) == data.name by {
      FirstNonEmptyOfFour(data.name, a.amenity, a.shop, a.building);
    }
    ExtractAnyReply(data);
  }

  /**
   * The extracted address in closed form for an address object whose house
   * number and road carry no surrounding blanks: the house number and road
   * (one space between them) and the locality, joined by ", ", either part
   * alone when the other is empty, or "" when both are.
   */
  lemma ExtractFields(data: Place)
    requires data.address.Some?
    requires Trimmed(data.address.value.houseNumber) && Trimmed(data.address.value.road)
    ensures var a := data.address.value;
            var r := Extract(data);
            var street := if a.houseNumber == "" then a.road
                          else if a.road == "" then a.houseNumber
                          else a.houseNumber + " " + a.road;
            var locality := FirstNonEmpty([a.city, a.town, a.county]);
            && r.ward == FirstNonEmpty([a.neighbourhood, a.suburb, a.residential, a.village])
            && r.landmark == FirstNonEmpty([data.name, a.amenity, a.shop, a.building])
            && r.address == (if street == "" then locality
                             else if locality == "" then street
                             else street + ", " + locality)
  {
    ExtractAnyReply(data);
    StreetLine(data.address.value.houseNumber, data.address.value.road);
  }

  /** A reply whose address carries none of the used fields still resolves, to three empty strings. */
  lemma EmptyReplyResolvesEmpty()
    ensures FetchAddress(Response(true, Some(Place("", None)))) == Some(Resolved("", "", ""))
    ensures FetchAddress(Response(true, Some(Place("", Some(NoDetails))))) == Some(Resolved("", "", ""))
  {
    var r := Extract(Place("", Some(NoDetails)));
    assert r.ward == "" && r.landmark == "";
    assert r.address == "" by {
      ExtractFields(Place("", Some(NoDetails)));
      assert FirstNonEmpty([NoDetails.city, NoDetails.town, NoDetails.county]) == "";
    }
    assert Extract(Place("", None)) == r;
  }

  /** `FirstNonEmpty` over three candidates, case by case. */
  lemma FirstNonEmptyOfThree(x: string, y: string, z: string)
    ensures FirstNonEmpty([x, y, z]) == if x != "" then x else if y != "" then y else z
  {
    assert [x, y, z][1..] == [y, z];
    assert [y, z][1..] == [z];
    assert FirstNonEmpty([z]) == z by {
      assert [z][1..] == [];
    }
  }

  /** `FirstNonEmpty` over four candidates, case by case. */
  lemma FirstNonEmptyOfFour(w: string, x: string, y: string, z: string)
    ensures FirstNonEmpty([w, x, y, z]) ==
            if w != "" then w else if x != "" then x else if y != "" then y else z
  {
    assert [w, x, y, z][1..] == [x, y, z];
    FirstNonEmptyOfThree(x, y, z);
  }

  /**
   * A reply naming only a suburb, a road and a city resolves to that suburb
   * as ward, no landmark, and "<road>, <city>" as address.
   */
  lemma SuburbRoadCity(suburb: string, road: string, city: string)
    requires suburb != "" && road != "" && city != "" && Trimmed(road)
    ensures Extract(Place("", Some(NoDetails.(suburb := suburb, road := road, city := city))))
            == Resolved(suburb, "", road + ", " + city)
  {
    var a := NoDetails.(suburb := suburb, road := road, city := city);
    var place := Place("", Some(a));
    assert Trim(a.houseNumber + " " + a.road) == road by {
      StreetLine(a.houseNumber, a.road);
    }
    assert FirstNonEmpty([a.city, a.town, a.county]) == city by {
      FirstNonEmptyOfThree(a.city, a.town, a.county);
    }
    assert FirstNonEmpty([a.neighbourhood, a.suburb, a.residential, a.village]) == suburb by {
      FirstNonEmptyOfFour(a.neighbourhood, a.suburb, a.residential, a.village);
    }
    assert FirstNonEmpty([place.name, a.amenity, a.shop, a.building]) == "" by {
      FirstNonEmptyOfFour(place.name, a.amenity, a.shop, a.building);
    }
    ExtractAnyReply(place);
  }

  /** Green Park, MG Road, Pune resolve to that ward and "MG Road, Pune". */
  lemma GreenParkExample()
    ensures FetchAddress(Response(true, Some(Place("", Some(NoDetails.(suburb := "Green Park",
              road := "MG Road", city := "Pune"))))))
            == Some(Resolved("Green Park", "", "MG Road, Pune"))
  {
    GreenParkFields("Green Park", "MG Road", "Pune");
    assert "MG Road" + ", " + "Pune" == "MG Road, Pune";
  }

  /** `SuburbRoadCity` for the road "MG Road", which carries no surrounding blanks. */
  lemma GreenParkFields(suburb: string, road: string, city: string)
    requires suburb != "" && city != "" && road == "MG Road"
    ensures Extract(Place("", Some(NoDetails.(suburb := suburb, road := road, city := city))))
            == Resolved(suburb, "", road + ", " + city)
  {
    assert Trimmed(road);
    SuburbRoadCity(suburb, road, city);
  }

  // ---------------------------------------------------------------------------
  // Coordinate source and map targets
  // ---------------------------------------------------------------------------

  /** A photo taken earlier, with its geotag when it has one. */
  datatype Capture = Capture(image: string, lat: Option<real>, lng: Option<real>)

  /** `typeof c.lat === "number" && typeof c.lng === "number"` */
  predicate Geotagged(c: Capture) {
    c.lat.Some? && c.lng.Some?
  }

  /** `captures.find(Geotagged)`, as a position. */
  function FirstGeotagged(captures: seq<Capture>): (k: Option<nat>)
    ensures k.None? <==> forall i :: 0 <= i < |captures| ==> !Geotagged(captures[i])
    ensures k.Some? ==> k.value < |captures| && Geotagged(captures[k.value]) &&
                        forall j :: 0 <= j < k.value ==> !Geotagged(captures[j])
  {
    if captures == [] then None
    else if Geotagged(captures[0]) then Some(0)
    else
      match FirstGeotagged(captures[1..])
      case None => None
      case Some(k) => Some(k + 1)
  }

  /**
   * Where detection takes its coordinates from: the first geotagged capture,
   * and only when there is none, the device position `gps` (`None` when the
   * device refused).
   */
  function CoordinateSource(captures: seq<Capture>, gps: Option<Point>): (p: Option<Point>)
    ensures (exists i :: 0 <= i < |captures| && Geotagged(captures[i])) ==>
      exists i :: 0 <= i < |captures| && Geotagged(captures[i]) &&
        p == Some(Point(captures[i].lat.value, captures[i].lng.value)) &&
        forall j :: 0 <= j < i ==> !Geotagged(captures[j])
    ensures (forall i :: 0 <= i < |captures| ==> !Geotagged(captures[i])) ==> p == gps
  {
    match FirstGeotagged(captures)
    case Some(k) => Some(Point(captures[k].lat.value, captures[k].lng.value))
    case None => gps
  }

  /** A requested map flight; `duration` and `easeLinearity` may be left unset. */
  datatype MapTarget = MapTarget(center: Point, zoom: int, duration: Option<real>, easeLinearity: Option<real>)

  /** A `flyTo` the map performs. */
  datatype Flight = Flight(center: Point, zoom: int, duration: real, easeLinearity: real)

  /** The target a detection installs. */
  function DetectTarget(p: Point): MapTarget {
    MapTarget(p, DetectZoom, None, None)
  }

  /** The target installed once the reset's settle delay has passed: back to the country view, faster. */
  const ResetTarget := MapTarget(DefaultCenter, DefaultZoom, Some(1.4), Some(0.4))

  /** `MapController`: the flight a target asks for, with the defaults filled in. */
  function FlightFor(t: MapTarget): (f: Flight)
    ensures f.center == t.center && f.zoom == t.zoom
    ensures t.duration.Some? ==> f.duration == t.duration.value
    ensures t.duration.None? ==> f.duration == DefaultDuration
    ensures t.easeLinearity.Some? ==> f.easeLinearity == t.easeLinearity.value
    ensures t.easeLinearity.None? ==> f.easeLinearity == DefaultEaseLinearity
  {
    Flight(t.center, t.zoom, t.duration.GetOr(DefaultDuration), t.easeLinearity.GetOr(DefaultEaseLinearity))
  }

  /** The flights the map controller performs for a target value: none for null. */
  function FlightsFor(target: Option<MapTarget>): (fs: seq<Flight>)
    ensures target.None? ==> fs == []
    ensures target.Some? ==> fs == [FlightFor(target.value)]
  {
    match target
    case None => []
    case Some(t) => [FlightFor(t)]
  }

  /** A detection flies at zoom 16 with the default pace; the reset flies to the country view in 1.4 s. */
  lemma FlightPaces(p: Point)
    ensures FlightFor(DetectTarget(p)) == Flight(p, 16, 2.4, 0.25)
    ensures FlightFor(ResetTarget) == Flight(Point(20.5937, 78.9629), 4, 1.4, 0.4)
  {
  }

  /** Whether a detection at `p` replaces the current target: only when none is set or its center differs. */
  predicate Retargets(mapTarget: Option<MapTarget>, p: Point) {
    mapTarget.None? || mapTarget.value.center.lat != p.lat || mapTarget.value.center.lng != p.lng
  }

  // ---------------------------------------------------------------------------
  // The component's state
  // ---------------------------------------------------------------------------

  /**
   * The state of the `StepLocation` component, together with the shared
   * draft and error flags it writes and the flights its map has made.
   */
  class LocationStep {
    var isDetecting: bool
    var detectError: Option<string>
    var mapTarget: Option<MapTarget>
    var markerPos: Option<Point>
    var locationLocked: bool
    /** The shared draft (`formData` of the form context). */
    var formData: FormData
    /** The parent's error flags, written through `setErrors`. */
    var errors: Errors
    /** Every flight the map controller has made, oldest first. */
    var flights: seq<Flight>
    /** Reset settle timers that have not fired yet. */
    var pendingSettles: nat

    /**
     * A detection in flight never coexists with a lock, and a set target is
     * always the one the map flew to last.
     */
    ghost predicate Valid()
      reads this
    {
      && !(isDetecting && locationLocked)
      && (mapTarget.Some? ==> |flights| > 0 && flights[|flights| - 1] == FlightFor(mapTarget.value))
    }

    /** The step as first rendered, over the given draft and flags. */
    constructor (form: FormData, initialErrors: Errors)
      ensures Valid()
      ensures !isDetecting && detectError.None? && mapTarget.None? && markerPos.None? && !locationLocked
      ensures formData == form && errors == initialErrors && flights == [] && pendingSettles == 0
    {
      isDetecting := false;
      detectError := None;
      mapTarget := None;
      markerPos := None;
      locationLocked := false;
      formData := form;
      errors := initialErrors;
      flights := [];
      pendingSettles := 0;
    }

    /**
     * `handleAutoFill` up to the reverse-geocode request. `gps` is what the
     * device answers when asked (it is asked only when no capture carries a
     * geotag). Returns the coordinates whose lookup is now in flight; `None`
     * when the call was refused by the guard or the device refused.
     */
    method HandleAutoFill(captures: seq<Capture>, gps: Option<Point>) returns (lookup: Option<Point>)
      requires Valid()
      modifies this
      ensures Valid()
      ensures old(isDetecting || locationLocked) ==> lookup.None? && unchanged(this)
      ensures !old(isDetecting || locationLocked) && CoordinateSource(captures, gps).None? ==>
        && lookup.None? && !isDetecting && detectError == Some(GpsDenied)
        && formData == old(formData) && errors == old(errors) && !locationLocked
        && mapTarget == old(mapTarget) && markerPos == old(markerPos) && flights == old(flights)
        && pendingSettles == old(pendingSettles)
      ensures !old(isDetecting || locationLocked) && CoordinateSource(captures, gps).Some? ==>
        var p := CoordinateSource(captures, gps).value;
        && lookup == Some(p) && isDetecting && detectError.None?
        && formData == old(formData) && errors == old(errors) && !locationLocked
        && pendingSettles == old(pendingSettles)
        && (Retargets(old(mapTarget), p) ==>
              markerPos == Some(p) && mapTarget == Some(DetectTarget(p))
              && flights == old(flights) + FlightsFor(Some(DetectTarget(p))))
        && (!Retargets(old(mapTarget), p) ==>
              markerPos == old(markerPos) && mapTarget == old(mapTarget) && flights == old(flights))
    {
      lookup := None;
      if isDetecting || locationLocked {
        return;
      }
      isDetecting := true;
      detectError := None;

      var lat, lng;
      var photoWithLoc := FirstGeotagged(captures);
      if photoWithLoc.Some? {
        lat := captures[photoWithLoc.value].lat.value;
        lng := captures[photoWithLoc.value].lng.value;
      } else if gps.Some? {
        lat := gps.value.lat;
        lng := gps.value.lng;
      } else {
        detectError := Some(GpsDenied);
        isDetecting := false;
        return;
      }

      if Retargets(mapTarget, Point(lat, lng)) {
        markerPos := Some(Point(lat, lng));
        mapTarget := Some(DetectTarget(Point(lat, lng)));
        flights := flights + FlightsFor(mapTarget);
      }
      lookup := Some(Point(lat, lng));
    }

    /**
     * The rest of `handleAutoFill`, once the lookup in flight has ended with
     * `reply`: on a result, write the three fields, reset the ward and
     * address flags and lock; otherwise report the address as not found.
     * Either way the detection is over.
     */
    method AddressArrived(reply: LookupReply)
      requires Valid()
      requires isDetecting
      modifies this
      ensures Valid()
      ensures !isDetecting
      ensures mapTarget == old(mapTarget) && markerPos == old(markerPos) && flights == old(flights)
      ensures pendingSettles == old(pendingSettles)
      ensures FetchAddress(reply).Some? ==>
        var r := FetchAddress(reply).value;
        && formData == old(formData).(ward := r.ward, landmark := r.landmark, address := r.address)
        && errors == old(errors)[Ward := false][Address := false]
        && locationLocked && detectError == old(detectError)
      ensures FetchAddress(reply).None? ==>
        && formData == old(formData) && errors == old(errors)
        && locationLocked == old(locationLocked) && detectError == Some(AddressNotFound)
    {
      var result := FetchAddress(reply);
      if result.Some? {
        formData := formData.(ward := result.value.ward, landmark := result.value.landmark,
                              address := result.value.address);
        errors := errors[Ward := false][Address := false];
        locationLocked := true;
      } else {
        detectError := Some(AddressNotFound);
      }
      isDetecting := false;
    }

    /**
     * `resetLocation`: drop marker and target, start the settle timer,
     * unlock, clear the notice, and blank the three location fields.
     */
    method ResetLocation()
      requires Valid()
      modifies this
      ensures Valid()
      ensures markerPos.None? && mapTarget.None? && !locationLocked && detectError.None?
      ensures pendingSettles == old(pendingSettles) + 1
      ensures formData == old(formData).(ward := "", landmark := "", address := "")
      ensures forall f :: f !in {Ward, Landmark, Address} ==> formData.Get(f) == old(formData).Get(f)
      ensures isDetecting == old(isDetecting) && errors == old(errors)
      ensures flights == old(flights)
    {
      markerPos := None;
      mapTarget := None;
      // The map controller's effect sees the null target and makes no flight.
      flights := flights + FlightsFor(mapTarget);
      pendingSettles := pendingSettles + 1;
      locationLocked := false;
      detectError := None;
      formData := formData.(ward := "", landmark := "", address := "");
    }

    /** A reset's settle timer fires: fly back to the country view. */
    method SettleElapsed()
      requires Valid()
      requires pendingSettles > 0
      modifies this
      ensures Valid()
      ensures mapTarget == Some(ResetTarget) && flights == old(flights) + [FlightFor(ResetTarget)]
      ensures pendingSettles == old(pendingSettles) - 1
      ensures markerPos == old(markerPos) && locationLocked == old(locationLocked)
      ensures isDetecting == old(isDetecting) && detectError == old(detectError)
      ensures formData == old(formData) && errors == old(errors)
    {
      mapTarget := Some(ResetTarget);
      flights := flights + FlightsFor(mapTarget);
      pendingSettles := pendingSettles - 1;
    }
  }

  /**
   * A geotagged photo, found after one without a geotag, resolves to Green
   * Park and locks the step; a second detection is then refused.
   */
  method DetectThenRefuse() returns (ward: string, address: string, refused: Option<Point>)
    ensures ward == "Green Park" && address == "MG Road, Pune"
    ensures refused.None?
  {
    var photos := [Capture("img0", None, None), Capture("img1", Some(20.0), Some(78.0))];
    var reply := Response(true, Some(Place("", Some(NoDetails.(suburb := "Green Park",
                   road := "MG Road", city := "Pune")))));
    var found := Resolved("Green Park", "", "MG Road, Pune");
    assert FetchAddress(reply) == Some(found) by { GreenParkExample(); }
    assert CoordinateSource(photos, None) == Some(Point(20.0, 78.0)) by {
      assert !Geotagged(photos[0]) && Geotagged(photos[1]);
    }
    var s := new LocationStep(ComplaintForm.EmptyForm, map[]);
    var first := s.HandleAutoFill(photos, None);
    assert first == Some(Point(20.0, 78.0)) && s.isDetecting;
    s.AddressArrived(reply);
    assert s.locationLocked && s.formData.ward == found.ward && s.formData.address == found.address;
    ward, address := s.formData.ward, s.formData.address;
    refused := s.HandleAutoFill(photos, None);
  }

  /**
   * A device fix whose lookup yields a result locks the step; after a reset
   * and its settle timer, a new detection at the same point flies to it
   * again and locks anew.
   */
  method DetectResetDetect(reply: LookupReply) returns (relocked: bool, flightCount: nat)
    requires FetchAddress(reply).Some?
    ensures relocked && flightCount == 3
  {
    var here := Point(20.0, 78.0);
    var s := new LocationStep(ComplaintForm.EmptyForm, map[]);
    var first := s.HandleAutoFill([], Some(here));
    assert first == Some(here) && s.isDetecting && |s.flights| == 1;
    s.AddressArrived(reply);
    assert s.locationLocked;
    s.ResetLocation();
    assert !s.locationLocked && !s.isDetecting && |s.flights| == 1;
    s.SettleElapsed();
    assert s.mapTarget == Some(ResetTarget) && |s.flights| == 2;
    assert Retargets(s.mapTarget, here);
    var again := s.HandleAutoFill([], Some(here));
    assert again == Some(here) && s.isDetecting && |s.flights| == 3;
    s.AddressArrived(reply);
    relocked, flightCount := s.locationLocked, |s.flights|;
  }
}
