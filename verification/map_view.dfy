/**
 * The public map: the live query of reports that may be shown, one marker
 * per shown report with a position, the marker colours and popups, the
 * pass-through of map clicks to a location picker, and the weather and air
 * quality panel with the place it is requested for.
 */
module MapView {
  import opened Wrappers
  import opened ReportStore

  /** The statuses the public map asks for. */
  const MAP_STATUSES := [SUBMITTED, IN_REVIEW, RESOLVED]

  /** The map's live query: a status filter and no ordering. */
  const PUBLIC_QUERY := Query(None, Some(MAP_STATUSES), false)

  /** A report shown on the public map is Submitted, In Review or Resolved; never a draft or archived. */
  lemma PublicMapNeverShowsArchived(store: Store, snap: seq<Report>, r: Report)
    requires IsSnapshot(PUBLIC_QUERY, store, snap) && r in snap
    ensures r.status in {SUBMITTED, IN_REVIEW, RESOLVED}
    ensures r.status != ARCHIVED && r.status != DRAFT
  {
    SnapshotAdmitted(PUBLIC_QUERY, store, snap, r);
  }

  const GREEN := "green"
  const YELLOW := "yellow"
  const ORANGE := "orange"
  const RED := "red"
  const GRAY := "gray"

  /**
   * `getSeverityColor`: the colour of the severity dot in a report's popup
   * (every marker pin itself uses the same waste icon). The four levels get
   * four colours, anything else gray.
   */
  function SeverityDotColor(severity: Option<int>): (c: string)
    ensures c == GRAY <==> !(severity.Some? && 1 <= severity.value <= 4)
    ensures severity == Some(1) ==> c == GREEN
    ensures severity == Some(2) ==> c == YELLOW
    ensures severity == Some(3) ==> c == ORANGE
    ensures severity == Some(4) ==> c == RED
  {
    if severity == Some(1) then GREEN
    else if severity == Some(2) then YELLOW
    else if severity == Some(3) then ORANGE
    else if severity == Some(4) then RED
    else GRAY
  }

  /** Different levels get different colours, rising from green to red. */
  lemma SeverityDotColorsDistinct(a: int, b: int)
    requires 1 <= a <= 4 && 1 <= b <= 4 && a != b
    ensures SeverityDotColor(Some(a)) != SeverityDotColor(Some(b))
  {
  }

  const POPUP_GRAY := "bg-gray-100 text-gray-800"

  /** The status pill of a popup: green when Resolved, yellow when In Review, gray otherwise. */
  function PopupStatusClass(status: string): (c: string)
    ensures c == POPUP_GRAY <==> status !in {RESOLVED, IN_REVIEW}
  {
    if status == RESOLVED then "bg-green-100 text-green-800"
    else if status == IN_REVIEW then "bg-yellow-100 text-yellow-800"
    else POPUP_GRAY
  }

  /** A marker on the map (always the waste icon) and what its popup shows about the report. */
  datatype Marker = Marker(key: string, position: Coords, severityDot: string, statusClass: string, imageNote: Option<nat>)

  /** The marker of a report with a position. */
  function MarkerFor(r: Report): (m: Marker)
    requires r.coords.Some?
    ensures m.key == r.id && m.position == r.coords.value
    ensures m.severityDot == SeverityDotColor(r.severity) && m.statusClass == PopupStatusClass(r.status)
    ensures m.imageNote.Some? <==> |r.images| > 0
    ensures m.imageNote.Some? ==> m.imageNote.value == |r.images|
  {
    Marker(r.id, r.coords.value, SeverityDotColor(r.severity), PopupStatusClass(r.status),
           if |r.images| > 0 then Some(|r.images|) else None)
  }

  /** The markers of `reports`, in order, skipping reports without a position. */
  function Markers(reports: seq<Report>): (ms: seq<Marker>)
    ensures |ms| <= |reports|
  {
    if reports == [] then []
    else (if reports[0].coords.Some? then [MarkerFor(reports[0])] else []) + Markers(reports[1..])
  }

  /** Every marker comes from a report of the list that has a position. */
  lemma {:induction false} MarkerHasReport(reports: seq<Report>, m: Marker)
    requires m in Markers(reports)
    ensures exists r :: r in reports && r.coords.Some? && m == MarkerFor(r)
  {
    if reports[0].coords.Some? && m == MarkerFor(reports[0]) {
      assert reports[0] in reports;
    } else {
      MarkerHasReport(reports[1..], m);
      var r :| r in reports[1..] && r.coords.Some? && m == MarkerFor(r);
      assert r in reports;
    }
  }

  /** Every report of the list with a position has its marker. */
  lemma {:induction false} ReportHasMarker(reports: seq<Report>, r: Report)
    requires r in reports && r.coords.Some?
    ensures MarkerFor(r) in Markers(reports)
  {
    if reports[0] != r {
      assert r in reports[1..];
      ReportHasMarker(reports[1..], r);
    }
  }

  /** How many markers carry the key `id`. */
  function KeyCount(ms: seq<Marker>, id: string): (n: nat)
    ensures n <= |ms|
  {
    if ms == [] then 0 else (if ms[0].key == id then 1 else 0) + KeyCount(ms[1..], id)
  }

  lemma {:induction false} KeyCountAppend(a: seq<Marker>, b: seq<Marker>, id: string)
    ensures KeyCount(a + b, id) == KeyCount(a, id) + KeyCount(b, id)
  {
    if a == [] {
      assert a + b == b;
    } else {
      assert (a + b)[1..] == a[1..] + b;
      KeyCountAppend(a[1..], b, id);
    }
  }

  /** Whether the list holds a report `id` with a position. */
  predicate Located(reports: seq<Report>, id: string)
  {
    exists i :: 0 <= i < |reports| && reports[i].id == id && reports[i].coords.Some?
  }

  /** When report ids are distinct, each id has one marker if its report has a position, none otherwise. */
  lemma {:induction false} OneMarkerPerLocatedReport(reports: seq<Report>, id: string)
    requires forall i, j :: 0 <= i < j < |reports| ==> reports[i].id != reports[j].id
    ensures KeyCount(Markers(reports), id) == if Located(reports, id) then 1 else 0
  {
    if reports != [] {
      var head := if reports[0].coords.Some? then [MarkerFor(reports[0])] else [];
      var tail := reports[1..];
      assert Markers(reports) == head + Markers(tail);
      KeyCountAppend(head, Markers(tail), id);
      OneMarkerPerLocatedReport(tail, id);
      if reports[0].id == id {
        assert !Located(tail, id);
        if reports[0].coords.Some? {
          assert Located(reports, id);
        } else {
          assert !Located(reports, id);
        }
      } else {
        if Located(tail, id) {
          var i :| 0 <= i < |tail| && tail[i].id == id && tail[i].coords.Some?;
          assert reports[i + 1] == tail[i];
        }
        if Located(reports, id) {
          var i :| 0 <= i < |reports| && reports[i].id == id && reports[i].coords.Some?;
          assert tail[i - 1] == reports[i];
        }
      }
    }
  }

  /**
   * On the public map, a stored report has exactly one marker when it is
   * Submitted, In Review or Resolved and has a position; otherwise none.
   */
  lemma PublicMarkers(store: Store, snap: seq<Report>, id: string)
    requires WellFormed(store) && IsSnapshot(PUBLIC_QUERY, store, snap)
    ensures KeyCount(Markers(snap), id) ==
              if id in store.reports && store.reports[id].status in MAP_STATUSES && store.reports[id].coords.Some?
              then 1 else 0
  {
    OneMarkerPerLocatedReport(snap, id);
    if id in store.reports && store.reports[id].status in MAP_STATUSES && store.reports[id].coords.Some? {
      assert Admits(PUBLIC_QUERY, store.reports[id]);
      var i :| 0 <= i < |snap| && snap[i] == store.reports[id];
      assert snap[i].id == id && snap[i].coords.Some?;
      assert Located(snap, id);
    }
  }

  /**
   * `handleMapClick`: the clicked point goes to the location picker
   * unchanged, when there is one; otherwise nothing happens.
   */
  function ForwardClick(click: LatLng, hasPicker: bool): (picked: Option<LatLng>)
    ensures picked.Some? <==> hasPicker
    ensures picked.Some? ==> picked.value.lat == click.lat && picked.value.lng == click.lng
  {
    if hasPicker then Some(LatLng(click.lat, click.lng)) else None
  }

  /** Nairobi, where the map opens. */
  const DEFAULT_CENTRE := LatLng(-1.2921, 36.8219)

  /** Where weather and air quality are requested: the user's position if known, else the default centre. */
  function EnvironmentCentre(userLocation: Option<LatLng>): (at: LatLng)
    ensures userLocation.Some? ==> at == userLocation.value
    ensures userLocation.None? ==> at == DEFAULT_CENTRE
  {
    if userLocation.Some? then userLocation.value else DEFAULT_CENTRE
  }

  /** The `current` block of a weather or air-quality answer. */
  type Reading = map<string, real>

  /** A request's outcome: it threw (network or JSON error), or it gave a body whose `current` may be absent. */
  datatype Reply = Unreachable | Body(current: Option<Reading>)

  /** The map component's state. */
  class MapState {
    var reports: seq<Report>
    var userLocation: Option<LatLng>
    var weatherData: Option<Reading>
    var co2Data: Option<Reading>
    var loading: bool

    constructor ()
      ensures reports == [] && userLocation.None? && weatherData.None? && co2Data.None? && loading
      ensures Shown() == [] && !PanelShown()
    {
      reports, userLocation := [], None;
      weatherData, co2Data := None, None;
      loading := true;
    }

    /** The markers on the map. */
    function Shown(): seq<Marker>
      reads this
    {
      Markers(reports)
    }

    /** The environmental panel shows once either reading is present. */
    predicate PanelShown()
      reads this
    {
      weatherData.Some? || co2Data.Some?
    }

    /** A snapshot of the public query replaces the reports and ends loading. */
    method OnSnapshot(snap: seq<Report>)
      modifies this`reports, this`loading
      ensures reports == snap && !loading
      ensures Shown() == Markers(snap)
    {
      reports := snap;
      loading := false;
    }

    /**
     * `fetchEnvironmentalData` for the place `EnvironmentCentre` picks,
     * returned as `at`. The air-quality request is made only after the
     * weather answer was read; a request that throws ends the run with what
     * was already set left in place, and an answer without `current` clears
     * that reading.
     */
    method FetchEnvironmentalData(weather: Reply, air: Reply) returns (at: LatLng)
      modifies this`weatherData, this`co2Data
      ensures at == EnvironmentCentre(userLocation)
      ensures weather.Unreachable? ==> weatherData == old(weatherData) && co2Data == old(co2Data)
      ensures weather.Body? ==> weatherData == weather.current
      ensures weather.Body? && air.Unreachable? ==> co2Data == old(co2Data)
      ensures weather.Body? && air.Body? ==> co2Data == air.current
    {
      at := EnvironmentCentre(userLocation);
      if weather.Unreachable? {
        return;
      }
      weatherData := weather.current;
      if air.Unreachable? {
        return;
      }
      co2Data := air.current;
    }

    /**
     * `handleLocateMe`: when the browser supports geolocation and yields a
     * position, it becomes the user's location and goes to the location
     * picker, if any; a refused or unsupported request changes nothing.
     */
    method HandleLocateMe(supported: bool, position: Option<LatLng>, hasPicker: bool) returns (picked: Option<LatLng>)
      modifies this`userLocation
      ensures supported && position.Some? ==> userLocation == position
      ensures !(supported && position.Some?) ==> userLocation == old(userLocation)
      ensures picked.Some? <==> supported && position.Some? && hasPicker
      ensures picked.Some? ==> picked == position
    {
      picked := None;
      if supported && position.Some? {
        userLocation := position;
        if hasPicker {
          picked := position;
        }
      }
    }
  }
}
