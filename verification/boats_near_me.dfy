/**
  The "boats near me" map (`boatsNearMe.js`): a one-shot location request on
  first render, and a mapping from the nearby boats the wire delivers to map
  markers behind a synthetic marker for the user's own position.
 */
module BoatsNearMe {
  import opened Platform

  const LabelYouAreHere: string := "You are here!"
  const IconStandardUser: string := "standard:user"
  const ErrorTitle: string := "Error loading Boats Near Me"
  const ErrorVariant: string := "error"

  /** A floating-point coordinate, only ever copied, never computed on. */
  datatype Coordinate = Coordinate(repr: string)

  /** One parsed row of the nearby-boats query: the fields the markers read. */
  datatype BoatRow = BoatRow(name: Maybe<string>, latitude: Maybe<Coordinate>, longitude: Maybe<Coordinate>)

  datatype Location = Location(latitude: Maybe<Coordinate>, longitude: Maybe<Coordinate>)

  datatype Marker = Marker(title: Maybe<string>, location: Location, icon: Maybe<string>)

  /** `isRendered` starts out undefined; only its truthiness is ever read, so it is `false` here. */
  datatype State = State(
    mapMarkers: seq<Marker>,
    isLoading: bool,
    isRendered: bool,
    latitude: Maybe<Coordinate>,
    longitude: Maybe<Coordinate>)

  const Initial: State := State([], true, false, Undefined, Undefined)

  /** What the map hands to the platform. */
  datatype Effect =
    | RequestLocation
    | ShowToast(toast: ToastEvent)

  /** What reaches the map: a render, the browser's position, and a wire delivery.
      `data` is the delivered JSON text already parsed into rows, and is
      `Undefined` when the text is absent or empty. */
  datatype Event =
    | Rendered
    | PositionDelivered(latitude: Coordinate, longitude: Coordinate)
    | WireDelivered(data: Maybe<seq<BoatRow>>, error: Maybe<ErrorDetail>)

  /** The marker that stands for the user, at the position known so far. */
  function YouAreHere(s: State): Marker
  {
    Marker(Defined(LabelYouAreHere), Location(s.latitude, s.longitude), Defined(IconStandardUser))
  }

  /** The marker for one boat row: its name and geolocation, and no icon. */
  function RowMarker(row: BoatRow): Marker
  {
    Marker(row.name, Location(row.latitude, row.longitude), Undefined)
  }

  /** One marker per row, in the rows' order. */
  function RowMarkers(rows: seq<BoatRow>): (markers: seq<Marker>)
    ensures |markers| == |rows|
    ensures forall i :: 0 <= i < |rows| ==>
      && markers[i].title == rows[i].name
      && markers[i].location == Location(rows[i].latitude, rows[i].longitude)
      && markers[i].icon == Undefined
  {
    if rows == [] then []
    else [RowMarker(rows[0])] + RowMarkers(rows[1..])
  }

  /** `renderedCallback`: asks for the location the first time only. */
  function RenderedCallback(s: State): (t: Transition<State, Effect>)
    ensures t.state.isRendered
    ensures t.state == s.(isRendered := true)
    ensures t.emitted == (if s.isRendered then [] else [RequestLocation])
  {
    if !s.isRendered then Transition(s.(isRendered := true), [RequestLocation])
    else Transition(s, [])
  }

  /** The position callback: stores the coordinates and touches nothing else. */
  function OnPosition(s: State, latitude: Coordinate, longitude: Coordinate): (t: Transition<State, Effect>)
    ensures t.state.latitude == Defined(latitude) && t.state.longitude == Defined(longitude)
    ensures t.state.(latitude := s.latitude, longitude := s.longitude) == s
    ensures t.emitted == []
  {
    Transition(s.(latitude := Defined(latitude), longitude := Defined(longitude)), [])
  }

  /** `createMapMarkers` over already-parsed rows: the user's marker, then one per boat. */
  function CreateMapMarkers(s: State, rows: seq<BoatRow>): (t: Transition<State, Effect>)
    ensures |t.state.mapMarkers| == |rows| + 1
    ensures t.state.mapMarkers[0].title == Defined(LabelYouAreHere)
    ensures t.state.mapMarkers[0].location == Location(s.latitude, s.longitude)
    ensures t.state.mapMarkers[0].icon == Defined(IconStandardUser)
    ensures forall i :: 0 <= i < |rows| ==>
      && t.state.mapMarkers[i + 1].title == rows[i].name
      && t.state.mapMarkers[i + 1].location == Location(rows[i].latitude, rows[i].longitude)
      && t.state.mapMarkers[i + 1].icon == Undefined
    ensures !t.state.isLoading
    ensures t.state.(mapMarkers := s.mapMarkers, isLoading := s.isLoading) == s
    ensures t.emitted == []
  {
    Transition(s.(mapMarkers := [YouAreHere(s)] + RowMarkers(rows), isLoading := false), [])
  }

  /** `wiredBoatsJSON`: data wins over an error; an error alone only stops loading and
      raises one toast, leaving the markers as they were; neither changes nothing. */
  function WiredBoatsJson(s: State, data: Maybe<seq<BoatRow>>, error: Maybe<ErrorDetail>): (t: Transition<State, Effect>)
    ensures data.Defined? ==> t == CreateMapMarkers(s, data.value)
    ensures data.Undefined? && error.Defined? ==>
      && t.state.mapMarkers == s.mapMarkers
      && !t.state.isLoading
      && t.state.(isLoading := s.isLoading) == s
      && t.emitted == [ShowToast(ToastEvent(ErrorTitle, error.value.message, ErrorVariant))]
    ensures data.Undefined? && error.Undefined? ==> t.state == s && t.emitted == []
  {
    match data
    case Defined(rows) => CreateMapMarkers(s, rows)
    case Undefined =>
      match error
      case Defined(e) =>
        Transition(s.(isLoading := false), [ShowToast(ToastEvent(ErrorTitle, e.message, ErrorVariant))])
      case Undefined => Transition(s, [])
  }

  function Step(s: State, e: Event): Transition<State, Effect>
  {
    match e
    case Rendered => RenderedCallback(s)
    case PositionDelivered(latitude, longitude) => OnPosition(s, latitude, longitude)
    case WireDelivered(data, error) => WiredBoatsJson(s, data, error)
  }

  /** The boat row a marker was made from. */
  function MarkerRow(m: Marker): BoatRow
  {
    BoatRow(m.title, m.location.latitude, m.location.longitude)
  }

  function MarkerRows(markers: seq<Marker>): (rows: seq<BoatRow>)
    ensures |rows| == |markers|
  {
    if markers == [] then []
    else [MarkerRow(markers[0])] + MarkerRows(markers[1..])
  }

  /** The boat markers give back exactly the rows they were made from, in order. */
  lemma {:induction false} RowMarkersRoundTrip(rows: seq<BoatRow>)
    ensures MarkerRows(RowMarkers(rows)) == rows
  {
    if rows != [] {
      RowMarkersRoundTrip(rows[1..]);
    }
  }

  /** Behind the user's marker, the created markers determine the delivered rows. */
  lemma CreateMapMarkersRoundTrip(s: State, rows: seq<BoatRow>)
    ensures MarkerRows(CreateMapMarkers(s, rows).state.mapMarkers[1..]) == rows
  {
    var markers := CreateMapMarkers(s, rows).state.mapMarkers;
    assert markers[1..] == RowMarkers(rows);
    RowMarkersRoundTrip(rows);
  }

  /** One step requests the location exactly when it is the first render. */
  lemma StepRequestsLocation(s: State, e: Event)
    ensures Step(s, e).state.isRendered == (s.isRendered || e == Rendered)
    ensures Count(Step(s, e).emitted, RequestLocation) == (if !s.isRendered && e == Rendered then 1 else 0)
  {
  }

  /** Across any trace, the location is requested at most once: exactly when the
      map had not rendered before and some render happens. */
  lemma {:induction false} RunRequestsLocationOnce(s: State, events: seq<Event>)
    ensures Run(Step, s, events).state.isRendered == (s.isRendered || Rendered in events)
    ensures Count(Run(Step, s, events).emitted, RequestLocation)
         == (if !s.isRendered && Rendered in events then 1 else 0)
    decreases |events|
  {
    if events != [] {
      var first := Step(s, events[0]);
      var rest := Run(Step, first.state, events[1..]);
      assert Run(Step, s, events) == Transition(rest.state, first.emitted + rest.emitted);
      StepRequestsLocation(s, events[0]);
      RunRequestsLocationOnce(first.state, events[1..]);
      CountAppend(first.emitted, rest.emitted, RequestLocation);
      assert events == [events[0]] + events[1..];
      assert Rendered in events <==> events[0] == Rendered || Rendered in events[1..];
    }
  }

  /** Whenever there are markers, the first one is the user's: titled 'You are here!'
      and carrying the user icon, which no boat marker has. */
  predicate YouAreHereFirst(s: State)
  {
    s.mapMarkers != [] ==>
      && s.mapMarkers[0].title == Defined(LabelYouAreHere)
      && s.mapMarkers[0].icon == Defined(IconStandardUser)
  }

  lemma {:induction false} RunKeepsYouAreHereFirst(s: State, events: seq<Event>)
    requires YouAreHereFirst(s)
    ensures YouAreHereFirst(Run(Step, s, events).state)
    decreases |events|
  {
    if events != [] {
      RunKeepsYouAreHereFirst(Step(s, events[0]).state, events[1..]);
    }
  }

  /** From the map's initial state, over any trace, the location is requested at most
      once and the user's marker leads whenever there are markers. */
  lemma FromInitial(events: seq<Event>)
    ensures Count(Run(Step, Initial, events).emitted, RequestLocation) == (if Rendered in events then 1 else 0)
    ensures YouAreHereFirst(Run(Step, Initial, events).state)
  {
    RunRequestsLocationOnce(Initial, events);
    RunKeepsYouAreHereFirst(Initial, events);
  }

  /** A failed delivery after markers were shown keeps them and stops loading. */
  lemma {:induction false} ErrorAfterDataKeepsMarkers(s: State, rows: seq<BoatRow>, error: ErrorDetail)
    ensures var shown := CreateMapMarkers(s, rows).state;
            var failed := WiredBoatsJson(shown, Undefined, Defined(error));
            && failed.state.mapMarkers == shown.mapMarkers
            && |failed.state.mapMarkers| == |rows| + 1
            && !failed.state.isLoading
            && Count(failed.emitted, ShowToast(ToastEvent(ErrorTitle, error.message, ErrorVariant))) == 1
  {
  }
}
