/** Properties of the app model: the list view, the marker layer and the
    storage slot stay in step with the visit list across every event the page
    can deliver; lookups find the first match; a save is read back verbatim. */
module AppProperties {
  import opened Wrappers
  import opened Visits
  import opened App

  /** The entries of `vs` as the page shows them: last visit on top. */
  function Rendered(vs: seq<Visit>): (es: seq<Entry>)
    ensures |es| == |vs|
  {
    seq(|vs|, k requires 0 <= k < |vs| => EntryOf(vs[|vs| - 1 - k]))
  }

  /** The markers of `vs`, one per visit, in list order. */
  function Markers(vs: seq<Visit>): (ms: seq<Marker>)
    ensures |ms| == |vs|
  {
    seq(|vs|, k requires 0 <= k < |vs| => MarkerOf(vs[k]))
  }

  /** The view and the marker layer show the visit list: once the map is
      loaded, the entries in reverse list order and one marker per visit in
      list order; before that, nothing and no pending location. The storage
      slot holds the list, or is empty while the list is. */
  predicate Consistent(st: State) {
    && (st.mapLoaded ==> st.view == Rendered(st.visits) && st.markers == Markers(st.visits))
    && (!st.mapLoaded ==> st.view == [] && st.markers == [] && st.mapEvent.None?)
    && (st.storage == Some(st.visits) || (st.storage.None? && st.visits == []))
  }

  /** Replaying a list puts its entries, reversed, above those already shown,
      and its markers, in order, after those already placed. */
  lemma {:induction false} ReplayRendersReversed(st: State, vs: seq<Visit>)
    ensures Replay(st, vs).view == Rendered(vs) + st.view
    ensures Replay(st, vs).markers == st.markers + Markers(vs)
    decreases |vs|
  {
    if |vs| > 0 {
      var st1 := RenderMarker(RenderVisit(st, vs[0]), vs[0]);
      ReplayRendersReversed(st1, vs[1..]);
      assert Rendered(vs[1..]) + [EntryOf(vs[0])] == Rendered(vs);
      assert [MarkerOf(vs[0])] + Markers(vs[1..]) == Markers(vs);
    }
  }

  /** A list loaded with nothing shown yet is displayed in reverse order. */
  lemma LoadMapShowsReversedList(st: State)
    requires st.view == [] && st.markers == []
    ensures LoadMap(st).view == Rendered(st.visits)
    ensures LoadMap(st).markers == Markers(st.visits)
  {
    ReplayRendersReversed(st.(mapLoaded := true), st.visits);
  }

  /** Appending a visit puts its entry on top and its marker last. */
  lemma RenderAppend(vs: seq<Visit>, v: Visit)
    ensures Rendered(vs + [v]) == [EntryOf(v)] + Rendered(vs)
    ensures Markers(vs + [v]) == Markers(vs) + [MarkerOf(v)]
  {
  }

  /** A freshly constructed app is consistent. */
  lemma InitConsistent(slot: Option<seq<Visit>>, form: Form)
    ensures Consistent(Init(slot, form))
  {
  }

  /** Every event the page can deliver keeps the app consistent. */
  lemma StepPreservesConsistent(st: State, e: Event, toNumber: string -> JsNumber)
    requires Consistent(st) && Enabled(st, e)
    ensures Consistent(Step(st, e, toNumber).0)
  {
    match e
    case PositionFound =>
      LoadMapShowsReversedList(st);
    case Submitted(now, day) =>
      if st.mapEvent.Some? {
        var v := VisitFromForm(st.form, st.mapEvent.value.latlng, now, day, toNumber);
        var s := Submit(st, now, day, toNumber).value;
        assert s.visits == st.visits + [v];
        RenderAppend(st.visits, v);
      }
    case _ =>
  }

  /** The state after handling `es` in order. */
  function Run(st: State, es: seq<Event>, toNumber: string -> JsNumber): (r: State)
    decreases |es|
  {
    if |es| == 0 then st else Run(Step(st, es[0], toNumber).0, es[1..], toNumber)
  }

  /** Whether each event of `es` could be delivered when it came. */
  predicate Deliverable(st: State, es: seq<Event>, toNumber: string -> JsNumber)
    decreases |es|
  {
    |es| == 0 || (Enabled(st, es[0]) && Deliverable(Step(st, es[0], toNumber).0, es[1..], toNumber))
  }

  /** From a consistent state, any deliverable run of events ends consistent. */
  lemma {:induction false} RunPreservesConsistent(st: State, es: seq<Event>, toNumber: string -> JsNumber)
    requires Consistent(st) && Deliverable(st, es, toNumber)
    ensures Consistent(Run(st, es, toNumber))
    decreases |es|
  {
    if |es| > 0 {
      StepPreservesConsistent(st, es[0], toNumber);
      RunPreservesConsistent(Step(st, es[0], toNumber).0, es[1..], toNumber);
    }
  }

  /** In every session, once the map is loaded the list shows the visits
      newest first, the map holds one marker per visit, and storage holds
      the whole list whenever it is not empty. */
  lemma SessionShowsReversedStore(slot: Option<seq<Visit>>, form: Form, es: seq<Event>,
                                  toNumber: string -> JsNumber)
    requires Deliverable(Init(slot, form), es, toNumber)
    ensures var st := Run(Init(slot, form), es, toNumber);
      && (st.mapLoaded ==> st.view == Rendered(st.visits) && st.markers == Markers(st.visits))
      && (st.visits != [] ==> st.storage == Some(st.visits))
  {
    RunPreservesConsistent(Init(slot, form), es, toNumber);
  }

  /** A saved list reads back verbatim, whatever the current list is. */
  lemma SaveLoadRoundTrip(st: State, current: seq<Visit>)
    ensures LoadVisits(SaveVisits(st).storage, current) == st.visits
  {
  }

  /** Reloading a consistent app restores exactly its visit list. */
  lemma ReloadRestoresVisits(st: State, form: Form)
    requires Consistent(st)
    ensures Init(st.storage, form).visits == st.visits
  {
  }

  /** After a reset the slot is empty and loading it yields no visits. */
  lemma ResetEmptiesStore(form: Form, current: seq<Visit>)
    ensures Reset(form).storage.None?
    ensures LoadVisits(Reset(form).storage, current) == current
    ensures Init(Reset(form).storage, form).visits == []
    ensures Consistent(Reset(form))
  {
  }

  /** Lookup in an extended list: an earlier match still wins; otherwise the
      appended visit is found exactly when it has the id. */
  lemma {:induction false} FindByIdAppend(vs: seq<Visit>, w: Visit, id: string)
    ensures FindById(vs, id).Some? ==> FindById(vs + [w], id) == FindById(vs, id)
    ensures FindById(vs, id).None? && w.id == id ==> FindById(vs + [w], id) == Some(|vs|)
    ensures FindById(vs, id).None? && w.id != id ==> FindById(vs + [w], id).None?
  {
    if |vs| > 0 && vs[0].id != id {
      FindByIdAppend(vs[1..], w, id);
      assert (vs + [w])[1..] == vs[1..] + [w];
    }
  }

  /** After a submission, looking up the new visit's id finds a visit, and
      finds the new one exactly when no earlier visit had that id. */
  lemma LookupAfterSubmit(st: State, now: nat, day: CalendarDay, toNumber: string -> JsNumber)
    requires st.mapEvent.Some?
    ensures var s := Submit(st, now, day, toNumber).value;
      var v := s.visits[|st.visits|];
      && FindById(s.visits, v.id).Some?
      && (FindById(s.visits, v.id) == Some(|st.visits|) <==> FindById(st.visits, v.id).None?)
  {
    var s := Submit(st, now, day, toNumber).value;
    var v := s.visits[|st.visits|];
    assert s.visits == st.visits + [v];
    FindByIdAppend(st.visits, v, v.id);
  }

  /** A click on the k-th entry shown finds a visit at or before the one the
      entry was rendered from and recenters on it; it never throws. */
  lemma ClickOnShownEntry(st: State, k: nat)
    requires Consistent(st) && k < |st.view|
    ensures var found := FindById(st.visits, st.view[k].dataId);
      && found.Some? && found.value <= |st.visits| - 1 - k
      && MoveToMarker(st, Some(st.view[k].dataId))
           == Recenter(st.visits[found.value].coords, MarkerZoom)
  {
    var i := |st.visits| - 1 - k;
    assert st.view[k] == EntryOf(st.visits[i]);
  }

  /** All ids in the list differ. */
  predicate UniqueIds(vs: seq<Visit>) {
    forall i, j :: 0 <= i < j < |vs| ==> vs[i].id != vs[j].id
  }

  /** With distinct ids, a click on an entry recenters on exactly the visit
      that entry shows. */
  lemma ClickOnShownEntryUniqueIds(st: State, k: nat)
    requires Consistent(st) && UniqueIds(st.visits) && k < |st.view|
    ensures MoveToMarker(st, Some(st.view[k].dataId))
              == Recenter(st.visits[|st.visits| - 1 - k].coords, MarkerZoom)
  {
    ClickOnShownEntry(st, k);
    var i := |st.visits| - 1 - k;
    assert st.view[k] == EntryOf(st.visits[i]);
  }

  /** In a consistent app no list click the page can deliver throws. */
  lemma DeliverableClickNeverThrows(st: State, target: Option<string>)
    requires Consistent(st) && Enabled(st, ListClicked(target))
    ensures !MoveToMarker(st, target).Threw?
  {
    if target.Some? {
      var k :| 0 <= k < |st.view| && st.view[k].dataId == target.value;
      ClickOnShownEntry(st, k);
    }
  }

  /** Different tiers never share a style class. */
  lemma StyleClassInjective(t1: Tier, t2: Tier)
    requires StyleClass(t1) == StyleClass(t2)
    ensures t1 == t2
  {
  }

  /** The tier computed from the rating is the one stored in the new visit,
      and the one that styles both its marker's popup and its list entry. */
  lemma TierDrivesStyling(st: State, now: nat, day: CalendarDay, toNumber: string -> JsNumber)
    requires st.mapEvent.Some?
    ensures var s := Submit(st, now, day, toNumber).value;
      var t := Classify(toNumber(st.form.rating));
      && s.visits[|st.visits|].custom == t
      && s.markers[|st.markers|].popupClass == StyleClass(t)
      && s.view[0].classes == ["visit", StyleClass(t)]
  {
  }
}
