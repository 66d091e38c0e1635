/** The `App` class of script.js as a state machine over immutable states.
    Everything the handlers touch outside the class is part of the state: the
    six form fields, the rendered list below the form, the marker layer and
    the `visits` storage slot. The clock, the calendar, the map click, the
    clicked element and the string-to-number coercion are inputs. */
module App {
  import opened Wrappers
  import opened Decimal
  import opened Visits

  /** The map click event `_showForm` keeps; only its position is read. */
  datatype MapEvent = MapEvent(latlng: LatLng)

  /** The six input fields of the form, as strings. */
  datatype Form = Form(title: string, rating: string, bathroom: string,
                       changing: string, feeding: string, summary: string)

  /** The form with every field cleared. */
  const Blank: Form := Form("", "", "", "", "", "")

  /** One `<li class="visit visit--tier" data-id=...>` list entry and the
      fields it shows. */
  datatype Entry = Entry(dataId: string, classes: seq<string>, title: string,
                         displayDate: string, rating: string, bathroom: string,
                         changing: string, feeding: string, summary: string)

  /** One map marker: its position, the class of its popup and the popup's text. */
  datatype Marker = Marker(at: LatLng, popupClass: string, content: string)

  /** Everything the handlers read or write.
      - `visits`: the private `#visits` list, in submission order;
      - `mapEvent`: the private `#mapEvent`, the last map click;
      - `mapLoaded`: whether `_loadMap` has run (the private `#map` exists);
      - `form`: the six input fields;
      - `view`: the list entries following the form, top to bottom;
      - `markers`: the markers on the map, in the order they were added;
      - `storage`: the `visits` slot of local storage. */
  datatype State = State(
    visits: seq<Visit>,
    mapEvent: Option<MapEvent>,
    mapLoaded: bool,
    form: Form,
    view: seq<Entry>,
    markers: seq<Marker>,
    storage: Option<seq<Visit>>)

  /** What a handler threw. */
  datatype Fault =
    | NoPendingLocation        // `this.#mapEvent.latlng` with no map click yet
    | VisitNotFound(id: string) // `visit.coords` after `find` returned undefined
    | MapNotLoaded              // `this.#map.setView` before `_loadMap` has run

  /** What a handler asked of the map, beyond the state change. */
  datatype Effect = Quiet | Recenter(at: LatLng, zoom: nat) | Threw(fault: Fault)

  /** The zoom level `_moveToMarker` asks for. */
  const MarkerZoom: nat := 15

  /** The CSS class carrying a tier: `visit--<tier>`. */
  function StyleClass(t: Tier): (c: string)
    ensures |c| > 7 && c[..7] == "visit--" && c[7..] == t.Name()
  {
    "visit--" + t.Name()
  }

  /** The list entry `_renderVisit` builds for a visit. */
  function EntryOf(v: Visit): (e: Entry)
    ensures e.classes == ["visit", StyleClass(v.custom)] && e.dataId == v.id
    ensures e.title == v.title && e.displayDate == v.displayDate && e.rating == v.rating
    ensures e.bathroom == v.bathroom && e.changing == v.changing && e.feeding == v.feeding
    ensures e.summary == v.summary
  {
    Entry(v.id, ["visit", StyleClass(v.custom)], v.title, v.displayDate, v.rating,
          v.bathroom, v.changing, v.feeding, v.summary)
  }

  /** The marker `_renderMarker` places for a visit. */
  function MarkerOf(v: Visit): (m: Marker)
    ensures m.at == v.coords && m.popupClass == StyleClass(v.custom) && m.content == v.title
  {
    Marker(v.coords, StyleClass(v.custom), v.title)
  }

  /** `_getLocalStorage`: a stored list replaces the current one verbatim; an
      empty slot leaves the current one as it is. */
  function LoadVisits(slot: Option<seq<Visit>>, current: seq<Visit>): (vs: seq<Visit>)
    ensures slot.Some? ==> vs == slot.value
    ensures slot.None? ==> vs == current
  {
    match slot
    case None => current
    case Some(stored) => stored
  }

  /** The `App` constructor: nothing rendered, no map yet, no pending click,
      and the list hydrated from the storage slot. `form` is whatever the
      page's input fields hold. */
  function Init(slot: Option<seq<Visit>>, form: Form): (st: State)
    ensures st.visits == slot.GetOr([]) && st.storage == slot
    ensures st.mapEvent.None? && !st.mapLoaded && st.view == [] && st.markers == []
  {
    State(LoadVisits(slot, []), None, false, form, [], [], slot)
  }

  /** `_setLocalStorage`: the slot now holds the whole current list. */
  function SaveVisits(st: State): (r: State)
    ensures r.storage == Some(st.visits)
    ensures r.(storage := st.storage) == st
  {
    st.(storage := Some(st.visits))
  }

  /** `_showForm`: keep the map click as the pending location and clear all
      six input fields. */
  function ShowForm(st: State, ev: MapEvent): (r: State)
    ensures r.mapEvent == Some(ev) && r.form == Blank
    ensures r.(mapEvent := st.mapEvent, form := st.form) == st
  {
    st.(mapEvent := Some(ev), form := Blank)
  }

  /** `_hideForm`: clear all six input fields. The pending location stays. */
  function HideForm(st: State): (r: State)
    ensures r.form == Blank && r.mapEvent == st.mapEvent
    ensures r.(form := st.form) == st
  {
    st.(form := Blank)
  }

  /** `_renderVisit`: the new entry goes right after the form, so above all
      entries already shown. */
  function RenderVisit(st: State, v: Visit): (r: State)
    ensures r.view == [EntryOf(v)] + st.view
    ensures r.(view := st.view) == st
  {
    st.(view := [EntryOf(v)] + st.view)
  }

  /** `_renderMarker`: one more marker on the map. */
  function RenderMarker(st: State, v: Visit): (r: State)
    ensures r.markers == st.markers + [MarkerOf(v)]
    ensures r.(markers := st.markers) == st
  {
    st.(markers := st.markers + [MarkerOf(v)])
  }

  /** The `forEach` of `_loadMap`: render each visit's entry, then its marker. */
  function Replay(st: State, vs: seq<Visit>): (r: State)
    decreases |vs|
    ensures r.(view := st.view, markers := st.markers) == st
  {
    if |vs| == 0 then st
    else Replay(RenderMarker(RenderVisit(st, vs[0]), vs[0]), vs[1..])
  }

  /** `_loadMap`, once the position is known: the map now exists and every
      stored visit is rendered in list order. */
  function LoadMap(st: State): (r: State)
    ensures r.mapLoaded
    ensures r.(mapLoaded := st.mapLoaded, view := st.view, markers := st.markers) == st
  {
    Replay(st.(mapLoaded := true), st.visits)
  }

  /** The visit `_newVisit` builds from the form, the pending location and
      the clock. `toNumber` is JavaScript's string-to-number coercion, which
      the comparisons `rating < 5` and `rating > 7` apply. */
  function VisitFromForm(f: Form, at: LatLng, now: nat, day: CalendarDay,
                         toNumber: string -> JsNumber): (v: Visit)
    ensures v.coords == at && v.custom == Classify(toNumber(f.rating)) && v.date == now
    ensures v.title == f.title && v.rating == f.rating && v.bathroom == f.bathroom
    ensures v.feeding == f.feeding && v.changing == f.changing && v.summary == f.summary
    ensures AllDigits(v.id) && ParseDecimal(v.id) == now % IdWindow
    ensures v.id == TimestampId(now) && v.displayDate == DisplayDate(day)
    ensures ParseDisplayDate(v.displayDate) == Some(day)
  {
    NewVisit(at, f.title, f.rating, f.bathroom, f.feeding, f.changing, f.summary,
             Classify(toNumber(f.rating)), now, day)
  }

  /** `_newVisit`: with no pending map click the handler throws before
      changing anything. Otherwise it appends one visit built from the form
      and the pending location, renders its marker and its entry, clears the
      form (keeping the pending location) and saves the whole list. */
  function Submit(st: State, now: nat, day: CalendarDay,
                  toNumber: string -> JsNumber): (r: Result<State, Fault>)
    ensures r.Failure? <==> st.mapEvent.None?
    ensures r.Failure? ==> r.error == NoPendingLocation
    ensures r.Success? ==>
      var s := r.value;
      var v := VisitFromForm(st.form, st.mapEvent.value.latlng, now, day, toNumber);
      && |s.visits| == |st.visits| + 1
      && s.visits[..|st.visits|] == st.visits
      && s.visits[|st.visits|] == v
      && s.markers == st.markers + [MarkerOf(v)]
      && s.view == [EntryOf(v)] + st.view
      && s.form == Blank
      && s.mapEvent == st.mapEvent && s.mapLoaded == st.mapLoaded
      && s.storage == Some(s.visits)
  {
    match st.mapEvent
    case None => Failure(NoPendingLocation)
    case Some(ev) =>
      var v := VisitFromForm(st.form, ev.latlng, now, day, toNumber);
      var added := st.(visits := st.visits + [v]);
      assert added.visits[..|st.visits|] == st.visits;
      Success(SaveVisits(HideForm(RenderVisit(RenderMarker(added, v), v))))
  }

  /** The index of the first visit with the given id, as `Array.prototype.find`
      scans: in list order, stopping at the first match. */
  function FindById(vs: seq<Visit>, id: string): (r: Option<nat>)
    ensures r.Some? ==> r.value < |vs| && vs[r.value].id == id
    ensures r.Some? ==> forall j :: 0 <= j < r.value ==> vs[j].id != id
    ensures r.None? <==> forall j :: 0 <= j < |vs| ==> vs[j].id != id
  {
    if |vs| == 0 then None
    else if vs[0].id == id then Some(0)
    else
      match FindById(vs[1..], id)
      case None => None
      case Some(i) => Some(i + 1)
  }

  /** `_moveToMarker`. `target` is the `data-id` of the closest `.visit`
      element around the click, or `None` when the click is not inside one.
      The state never changes; a click inside an entry recenters the map on
      the first visit with that id. It throws when the map does not exist
      yet (`this.#map.setView` is evaluated before its argument), and
      otherwise when no visit has that id. */
  function MoveToMarker(st: State, target: Option<string>): (e: Effect)
    ensures target.None? ==> e == Quiet
    ensures target.Some? && !st.mapLoaded ==> e == Threw(MapNotLoaded)
    ensures target.Some? && st.mapLoaded && FindById(st.visits, target.value).None? ==>
              e == Threw(VisitNotFound(target.value))
    ensures target.Some? && st.mapLoaded && FindById(st.visits, target.value).Some? ==>
              e == Recenter(st.visits[FindById(st.visits, target.value).value].coords, MarkerZoom)
  {
    match target
    case None => Quiet
    case Some(id) =>
      if !st.mapLoaded then Threw(MapNotLoaded)
      else
      match FindById(st.visits, id)
      case None => Threw(VisitNotFound(id))
      case Some(i) => Recenter(st.visits[i].coords, MarkerZoom)
  }

  /** `reset`: empty the storage slot and reload the page, which starts a new
      `App` over the emptied slot. `form` is what the reloaded fields hold. */
  function Reset(form: Form): (st: State)
    ensures st.storage.None? && st.visits == []
    ensures st.view == [] && st.markers == [] && st.mapEvent.None? && !st.mapLoaded
  {
    Init(None, form)
  }

  /** The events the page delivers to the app. */
  datatype Event =
    | PositionFound                                 // the geolocation success callback
    | MapClicked(ev: MapEvent)                      // a click on the map
    | FormEdited(form: Form)                        // the user types into the form
    | Submitted(now: nat, day: CalendarDay)         // the form's submit event
    | ListClicked(target: Option<string>)           // a click in the list container
    | ResetRequested(form: Form)                    // `app.reset()`

  /** The events the page can actually deliver in a state: the position
      arrives once; the map only reports clicks once it exists; a click in
      the list lands either outside every `.visit` element or on an entry
      shown. The last assumes that the form text pasted into an entry holds
      no markup of its own: a title such as `<b class="visit">x</b>` would
      create a `.visit` element that is no entry. */
  predicate Enabled(st: State, e: Event)
    ensures Enabled(st, e) && e.PositionFound? ==> !st.mapLoaded
    ensures Enabled(st, e) && e.MapClicked? ==> st.mapLoaded
    ensures Enabled(st, e) && e.ListClicked? && e.target.Some? ==>
              exists k :: 0 <= k < |st.view| && st.view[k].dataId == e.target.value
  {
    match e
    case PositionFound => !st.mapLoaded
    case MapClicked(_) => st.mapLoaded
    case ListClicked(target) =>
      target.None? || exists k :: 0 <= k < |st.view| && st.view[k].dataId == target.value
    case _ => true
  }

  /** One event handled to completion. A handler that throws leaves the
      state as it was: every fault is raised before any change. */
  function Step(st: State, e: Event, toNumber: string -> JsNumber): (r: (State, Effect))
    ensures e.ListClicked? ==> r.0 == st
    ensures e.Submitted? && st.mapEvent.None? ==> r == (st, Threw(NoPendingLocation))
  {
    match e
    case PositionFound => (LoadMap(st), Quiet)
    case MapClicked(ev) => (ShowForm(st, ev), Quiet)
    case FormEdited(f) => (st.(form := f), Quiet)
    case Submitted(now, day) =>
      (match Submit(st, now, day, toNumber)
       case Success(s) => (s, Quiet)
       case Failure(f) => (st, Threw(f)))
    case ListClicked(target) => (st, MoveToMarker(st, target))
    case ResetRequested(f) => (Reset(f), Quiet)
  }
}
