/**
 * The map screen of src/LocationView.js. `this.state.region` is a
 * JavaScript object merged with spread syntax. It is modelled as a map from
 * field name to value, where `{...a, ...b}` is the map union `a + b`: the
 * later object's fields win. Coordinates and deltas are only copied, never
 * computed on, so `real` stands for a JavaScript number.
 */
module Location {
  import opened Options
  import AC = AutoComplete

  type Region = map<string, real>

  /** `DEFAULT_DELTA` (line 15). */
  const DefaultDelta: Region := map["latitudeDelta" := 0.015, "longitudeDelta" := 0.0121]

  /** The keys the selection payload adds after the region's own fields (line 170). */
  const PayloadKeys: set<string> := {"address", "placeDetails"}

  /** `maximumAge` of the geolocation options, in milliseconds. */
  datatype Age = Finite(ms: nat) | Infinite

  /** The props the screen reads (lines 18-45), rendering props left out. */
  datatype ViewProps = ViewProps(
    apiKey: string,
    initialLocation: Region,
    debounceDuration: nat,
    components: seq<string>,
    timeout: nat,
    maximumAge: Age,
    enableHighAccuracy: bool)

  /** The props with every `defaultProps` entry the screen reads (lines 36-45). */
  function DefaultProps(apiKey: string, initialLocation: Region): (p: ViewProps)
    ensures p.apiKey == apiKey && p.initialLocation == initialLocation
    ensures p.debounceDuration == 300 && p.components == []
    ensures p.timeout == 15000 && p.maximumAge == Infinite && p.enableHighAccuracy
  {
    ViewProps(apiKey, initialLocation, 300, [], 15000, Infinite, true)
  }

  /** The props the screen hands to its search box (lines 154-160). `language`
      is not passed, so the box searches in its default language. */
  function InputProps(p: ViewProps): (q: AC.Props)
    ensures q.language == AC.DefaultLanguage
    ensures q.apiKey == p.apiKey && q.debounceDuration == p.debounceDuration && q.components == p.components
  {
    AC.PropsOf(p.apiKey, p.debounceDuration, None, Some(p.components))
  }

  /** A screen mounted with only the required props: its search box waits
      300 ms and searches in English with no component filter, and its
      geolocation request asks for high accuracy within 15000 ms and accepts
      a cached fix of any age. */
  lemma DefaultScreen(apiKey: string, initialLocation: Region)
    ensures
      var p := DefaultProps(apiKey, initialLocation);
      var q := InputProps(p);
      && q == AC.Props(apiKey, "en", 300, [])
      && LocationRequest(p) == GeoOptions(true, 15000, Infinite)
  {
  }

  /** `{...base, ...over}`: every field of `over` wins, every other field of
      `base` stays, and nothing else is added. */
  function Merge(base: Region, over: Region): (r: Region)
    ensures r.Keys == base.Keys + over.Keys
    ensures forall k :: k in over ==> r[k] == over[k]
    ensures forall k :: k in base && k !in over ==> r[k] == base[k]
  {
    base + over
  }

  /** The initial `state.region` (lines 69-72): the default deltas,
      overlaid by the initial location. */
  function InitialRegion(initialLocation: Region): (r: Region)
    ensures r.Keys == initialLocation.Keys + {"latitudeDelta", "longitudeDelta"}
    ensures forall k :: k in initialLocation ==> r[k] == initialLocation[k]
    ensures "latitudeDelta" !in initialLocation ==> r["latitudeDelta"] == 0.015
    ensures "longitudeDelta" !in initialLocation ==> r["longitudeDelta"] == 0.0121
  {
    Merge(DefaultDelta, initialLocation)
  }

  /** `geometry.location` of a place-detail result. */
  datatype LatLng = LatLng(lat: real, lng: real)

  /** `data.result` of a place-detail response. Only its location is read;
      the rest of the object is passed on untouched and is not modelled. */
  datatype PlaceResult = PlaceResult(location: LatLng)

  /** `position.coords` of a geolocation fix. */
  datatype Coords = Coords(latitude: real, longitude: real)

  /** The options given to `getCurrentPosition` (lines 125-129). */
  datatype GeoOptions = GeoOptions(enableHighAccuracy: bool, timeout: nat, maximumAge: Age)

  /** The place-detail request (line 110). It carries no cancel token. */
  datatype DetailRequest = DetailRequest(key: string, placeId: string)

  /** What `onLocationSelect` receives (line 170): the region's fields, then
      `address` and `placeDetails`, which always exist (possibly `undefined`). */
  datatype Selection = Selection(fields: Region, address: Option<string>, placeDetails: Option<PlaceResult>)

  /** `({ lat, lng }) => ({ latitude: lat, longitude: lng })` (line 111). */
  function Project(l: LatLng): (r: Region)
    ensures r.Keys == {"latitude", "longitude"}
    ensures r["latitude"] == l.lat && r["longitude"] == l.lng
  {
    map["latitude" := l.lat, "longitude" := l.lng]
  }

  /** `{ latitude, longitude }` taken from `position.coords` (lines 121-122). */
  function CoordsRegion(c: Coords): (r: Region)
    ensures r.Keys == {"latitude", "longitude"}
    ensures r["latitude"] == c.latitude && r["longitude"] == c.longitude
  {
    map["latitude" := c.latitude, "longitude" := c.longitude]
  }

  /** The screen's state and the state of its search box `this._input`. */
  datatype View = View(inFocus: bool, region: Region, placeDetails: Option<PlaceResult>, input: AC.Input)

  predicate WellFormed(v: View) {
    AC.WellFormed(v.input)
  }

  /** The screen as mounted (lines 66-73, 154-160). */
  function Mounted(p: ViewProps): (v: View)
    ensures WellFormed(v)
    ensures !v.inFocus && v.placeDetails == None
    ensures v.region == InitialRegion(p.initialLocation) && v.input == AC.Mounted()
  {
    View(false, InitialRegion(p.initialLocation), None, AC.Mounted())
  }

  /** `_setRegion(region, animate)` (lines 103-106): the region's fields
      override, all others stay; the map is animated to the merged region
      exactly when `animate` holds. The second component is the region given
      to `animateToRegion`, if it is called. */
  function RegionSet(v: View, r: Region, animate: bool): (res: (View, Option<Region>))
    ensures res.0.region == Merge(v.region, r)
    ensures res.0.inFocus == v.inFocus && res.0.placeDetails == v.placeDetails && res.0.input == v.input
    ensures res.1.Some? <==> animate
    ensures res.1.Some? ==> res.1.value == res.0.region
  {
    var w := v.(region := Merge(v.region, r));
    (w, if animate then Some(w.region) else None)
  }

  /** `_onMapRegionChange` (lines 82-87): stores the region without
      animating; the second component says whether the search box is
      blurred, which happens exactly when the screen believes it has focus. */
  function RegionChanged(v: View, r: Region): (res: (View, bool))
    ensures res.0 == RegionSet(v, r, false).0
    ensures res.1 <==> v.inFocus
  {
    (RegionSet(v, r, false).0, v.inFocus)
  }

  /** `_onMapRegionChangeComplete` (lines 89-91): asks the search box to
      reverse-geocode exactly the completed region; the screen's own state
      stays. */
  function RegionChangeCompleted(v: View, p: ViewProps, r: Region): (res: (View, AC.Request))
    requires WellFormed(v)
    ensures WellFormed(res.0)
    ensures res.0.region == v.region && res.0.inFocus == v.inFocus && res.0.placeDetails == v.placeDetails
    ensures (res.0.input, res.1) == AC.FetchedAddress(v.input, InputProps(p), r)
    ensures res.1.Geocode?
    ensures res.1.latitude == AC.Field(r, "latitude") && res.1.longitude == AC.Field(r, "longitude")
  {
    var (input, req) := AC.FetchedAddress(v.input, InputProps(p), r);
    (v.(input := input), req)
  }

  /** `_onTextFocus` (lines 93-96). */
  function TextFocused(v: View): (w: View)
    ensures w.inFocus
    ensures w.region == v.region && w.placeDetails == v.placeDetails && w.input == v.input
  {
    v.(inFocus := true)
  }

  /** `_onTextBlur` (lines 98-101). */
  function TextBlurred(v: View): (w: View)
    ensures !w.inFocus
    ensures w.region == v.region && w.placeDetails == v.placeDetails && w.input == v.input
  {
    v.(inFocus := false)
  }

  /** The place-detail request `_onPlaceSelected` sends for `placeId` (line 110). */
  function DetailRequestFor(p: ViewProps, placeId: string): (q: DetailRequest)
    ensures q.placeId == placeId && q.key == p.apiKey
  {
    DetailRequest(p.apiKey, placeId)
  }

  /** The `.then` of a place-detail request (lines 110-114): the latitude
      and longitude become the result's `lat` and `lng`, every other field
      (the deltas among them) stays, the map is animated to the new region
      and the result is kept as `placeDetails`. No response is ever stale:
      whichever answer comes last wins. */
  function PlaceDetailReceived(v: View, result: PlaceResult): (res: (View, Option<Region>))
    ensures res.0.region.Keys == v.region.Keys + {"latitude", "longitude"}
    ensures res.0.region["latitude"] == result.location.lat && res.0.region["longitude"] == result.location.lng
    ensures forall k :: k in v.region && k != "latitude" && k != "longitude" ==> res.0.region[k] == v.region[k]
    ensures res.1 == Some(res.0.region)
    ensures res.0.placeDetails == Some(result)
    ensures res.0.inFocus == v.inFocus && res.0.input == v.input
  {
    var (w, animated) := RegionSet(v, Project(result.location), true);
    (w.(placeDetails := Some(result)), animated)
  }

  /** The options `_getCurrentLocation` asks the geolocation service with
      (lines 118-129). */
  function LocationRequest(p: ViewProps): (o: GeoOptions)
    ensures o.enableHighAccuracy == p.enableHighAccuracy && o.timeout == p.timeout && o.maximumAge == p.maximumAge
  {
    GeoOptions(p.enableHighAccuracy, p.timeout, p.maximumAge)
  }

  /** The callbacks of `getCurrentPosition` (lines 120-124): a fix (`Some`)
      merges only its latitude and longitude into the region and animates;
      an error (`None`) is only logged and leaves everything as it was. */
  function PositionReceived(v: View, pos: Option<Coords>): (res: (View, Option<Region>))
    ensures pos.None? ==> res == (v, None)
    ensures pos.Some? ==>
      && res.0.region.Keys == v.region.Keys + {"latitude", "longitude"}
      && res.0.region["latitude"] == pos.value.latitude && res.0.region["longitude"] == pos.value.longitude
      && (forall k :: k in v.region && k != "latitude" && k != "longitude" ==> res.0.region[k] == v.region[k])
      && res.1 == Some(res.0.region)
      && res.0.inFocus == v.inFocus && res.0.placeDetails == v.placeDetails && res.0.input == v.input
  {
    if pos.None? then (v, None) else RegionSet(v, CoordsRegion(pos.value), true)
  }

  /** The map's `onPress` (line 143): `_setRegion` with the pressed
      coordinate and the default `animate = true`. */
  function MapPressed(v: View, coordinate: Region): (res: (View, Option<Region>))
    ensures res.0.region == Merge(v.region, coordinate)
    ensures res.1 == Some(res.0.region)
    ensures res.0.inFocus == v.inFocus && res.0.placeDetails == v.placeDetails && res.0.input == v.input
  {
    RegionSet(v, coordinate, true)
  }

  /** The region's own fields in the payload. A field named like a later key
      of the payload is overwritten there, so it does not survive. */
  function RegionFields(region: Region): (r: Region)
    ensures r.Keys == region.Keys - PayloadKeys
    ensures forall k :: k in r ==> r[k] == region[k]
  {
    region - PayloadKeys
  }

  /** The payload of `onLocationSelect` (line 170): the current region's
      fields, the search box's `getAddress()` and the kept place details. */
  function Selected(v: View): (sel: Selection)
    ensures sel.fields.Keys == v.region.Keys - PayloadKeys
    ensures forall k :: k in sel.fields ==> sel.fields[k] == v.region[k]
    ensures sel.address == (if v.input.ui.loading then Some("") else v.input.ui.text)
    ensures sel.placeDetails == v.placeDetails
  {
    Selection(RegionFields(v.region), AC.Address(v.input.ui), v.placeDetails)
  }

  /** The events the screen reacts to, events of the search box included. */
  datatype ViewEvent =
    | RegionChange(region: Region)
    | RegionChangeComplete(region: Region)
    | TextFocus
    | TextBlur
    | PlaceDetail(result: PlaceResult)
    | Position(pos: Option<Coords>)
    | MapPress(coordinate: Region)
    | InputEvent(event: AC.Event)

  function ViewStep(v: View, p: ViewProps, e: ViewEvent): (w: View)
    requires WellFormed(v)
    ensures WellFormed(w)
    ensures v.region.Keys <= w.region.Keys
  {
    match e
    case RegionChange(r) => RegionChanged(v, r).0
    case RegionChangeComplete(r) => RegionChangeCompleted(v, p, r).0
    case TextFocus => TextFocused(v)
    case TextBlur => TextBlurred(v)
    case PlaceDetail(result) => PlaceDetailReceived(v, result).0
    case Position(pos) => PositionReceived(v, pos).0
    case MapPress(coordinate) => MapPressed(v, coordinate).0
    case InputEvent(event) => v.(input := AC.Step(v.input, InputProps(p), event).0)
  }

  function ViewRun(v: View, p: ViewProps, trace: seq<ViewEvent>): (w: View)
    requires WellFormed(v)
    ensures WellFormed(w)
    decreases |trace|
  {
    if trace == [] then v else ViewRun(ViewStep(v, p, trace[0]), p, trace[1..])
  }

  /** No event removes a field from the region: merging only adds or overrides. */
  lemma {:induction false} RegionFieldsOnlyGrow(v: View, p: ViewProps, trace: seq<ViewEvent>)
    requires WellFormed(v)
    ensures v.region.Keys <= ViewRun(v, p, trace).region.Keys
    decreases |trace|
  {
    if trace != [] {
      RegionFieldsOnlyGrow(ViewStep(v, p, trace[0]), p, trace[1..]);
    }
  }

  /** Whatever happens on the screen, the selection payload carries both
      deltas, because the initial region has them and no merge drops them. */
  lemma SelectionKeepsDeltas(p: ViewProps, trace: seq<ViewEvent>)
    ensures
      var sel := Selected(ViewRun(Mounted(p), p, trace));
      "latitudeDelta" in sel.fields && "longitudeDelta" in sel.fields
  {
    RegionFieldsOnlyGrow(Mounted(p), p, trace);
  }

  /** The component instance (lines 17-180, rendering left out). */
  class LocationView {
    const props: ViewProps
    /** `this._input`: the search box rendered by the screen. */
    const input: AC.AutoCompleteInput
    var inFocus: bool
    var region: Region
    var placeDetails: Option<PlaceResult>

    function Model(): View
      reads this, input, input.request
    {
      View(inFocus, region, placeDetails, input.Model())
    }

    predicate Valid()
      reads this, input, input.request
    {
      input.Valid() && input.props == InputProps(props)
    }

    constructor (props: ViewProps)
      ensures Valid() && this.props == props && Model() == Mounted(props)
      ensures fresh(input) && fresh(input.request)
    {
      this.props := props;
      input := new AC.AutoCompleteInput(InputProps(props));
      inFocus := false;
      region := InitialRegion(props.initialLocation);
      placeDetails := None;
    }

    method SetRegion(r: Region, animate: bool) returns (animatedTo: Option<Region>)
      requires Valid()
      modifies this
      ensures Valid() && (Model(), animatedTo) == RegionSet(old(Model()), r, animate)
    {
      region := Merge(region, r);
      animatedTo := if animate then Some(region) else None;
    }

    /** Returns whether `this._input.blur()` is called. */
    method OnMapRegionChange(r: Region) returns (blurInput: bool)
      requires Valid()
      modifies this
      ensures Valid() && (Model(), blurInput) == RegionChanged(old(Model()), r)
    {
      var _ := SetRegion(r, false);
      blurInput := inFocus;
    }

    method OnMapRegionChangeComplete(r: Region) returns (req: AC.Request)
      requires Valid()
      modifies input
      ensures Valid() && (Model(), req) == RegionChangeCompleted(old(Model()), props, r)
    {
      req := input.FetchAddressForLocation(r);
    }

    method OnTextFocus()
      requires Valid()
      modifies this
      ensures Valid() && Model() == TextFocused(old(Model()))
    {
      inFocus := true;
    }

    method OnTextBlur()
      requires Valid()
      modifies this
      ensures Valid() && Model() == TextBlurred(old(Model()))
    {
      inFocus := false;
    }

    /** `_onPlaceSelected` up to the request (lines 108-110): the search box
        is always blurred first, then the details of the place are asked for. */
    method OnPlaceSelected(placeId: string) returns (blurInput: bool, req: DetailRequest)
      requires Valid()
      ensures blurInput && req == DetailRequestFor(props, placeId)
    {
      blurInput := true;
      req := DetailRequest(props.apiKey, placeId);
    }

    method OnPlaceDetail(result: PlaceResult) returns (animatedTo: Option<Region>)
      requires Valid()
      modifies this
      ensures Valid() && (Model(), animatedTo) == PlaceDetailReceived(old(Model()), result)
    {
      animatedTo := SetRegion(Project(result.location), true);
      placeDetails := Some(result);
    }

    method GetCurrentLocation() returns (options: GeoOptions)
      requires Valid()
      ensures options == LocationRequest(props)
    {
      options := GeoOptions(props.enableHighAccuracy, props.timeout, props.maximumAge);
    }

    method OnPosition(pos: Option<Coords>) returns (animatedTo: Option<Region>)
      requires Valid()
      modifies this
      ensures Valid() && (Model(), animatedTo) == PositionReceived(old(Model()), pos)
    {
      if pos.Some? {
        animatedTo := SetRegion(CoordsRegion(pos.value), true);
      } else {
        animatedTo := None;
      }
    }

    method OnMapPress(coordinate: Region) returns (animatedTo: Option<Region>)
      requires Valid()
      modifies this
      ensures Valid() && (Model(), animatedTo) == MapPressed(old(Model()), coordinate)
    {
      animatedTo := SetRegion(coordinate, true);
    }

    /** The action button (line 170): the payload given to `onLocationSelect`. */
    method OnActionPress() returns (selection: Selection)
      requires Valid()
      ensures selection == Selected(Model())
    {
      var address := input.GetAddress();
      selection := Selection(RegionFields(region), address, placeDetails);
    }
  }
}
