# Kid-Friendly visit log: a Dafny model of the visit lifecycle

The app in `script.js` lets a user click a point on a map, fill in a short form
about a place (title, rating, bathrooms, feeding area, changing table,
summary) and keep the result as a *visit*. Visits are shown as map markers and
as entries in a list below the form, and the whole list is saved in the
browser's local storage under the key `visits`. This project models the part
with real invariants: the `Visit` record and the `App` state machine that
builds visits, appends them, renders them, looks them up on a click, and
saves and reloads them.

Everything is a pure function over immutable datatypes:

- `Wrappers`: `Option` (JavaScript's `null`/`undefined`) and `Result` (a
  handler that returned or threw).
- `Decimal`: the decimal string of a non-negative integer (`n + ""`) and
  reading a digit string back as a number.
- `Visits`: the `Visit` record: the rating tier (`custom`), the month-name
  display date, the timestamp id of at most ten characters, and the constructor.
- `App`: the `App` class. `State` holds `#visits`, `#mapEvent`, whether
  `#map` exists, the six form fields, the rendered list entries, the map
  markers and the storage slot. `Step` dispatches the page's events to the
  handlers, and `Enabled` says which events the page can deliver in a state.
- `AppProperties`: the invariant tying the view, the markers and storage to
  the visit list, and the lemmas about lookup, persistence and styling.

The clock (`now`, in milliseconds), its calendar reading (month and day),
the map click, the clicked list element's `data-id`, the form contents and
JavaScript's string-to-number coercion (`toNumber`) are all inputs. Storage
is an `Option<seq<Visit>>` slot.

Behaviours of the code that the model keeps as they are written:

- There is no cancel transition. `_hideForm` clears the six fields but keeps
  `#mapEvent`, so after a submission the same location is still pending.
- A list click whose `data-id` matches no visit is not a no-op. `find` returns
  `undefined` and reading `.coords` throws. `MoveToMarker` returns
  `Threw(VisitNotFound(id))` in that case, and `Threw(MapNotLoaded)` when a
  click inside an entry comes before the map exists. `DeliverableClickNeverThrows`
  shows that no click on a rendered entry reaches either case, provided the
  form text pasted into the entries contains no markup of its own (see
  "## Left out").
- The rating is stored as the raw form string. The tier comes from comparing
  that string with 5 and 7, which coerces it to a number. A value that is
  not a number fails both comparisons and gives `"average"`. The empty
  string coerces to 0 and gives `"bad"`.
- Looking up a new visit's id after adding it returns the new visit only if
  no earlier visit has the same id, because the lookup returns the first
  match (`LookupAfterSubmit`). Ids are timestamps modulo 10^10 ms
  (`IdIsTimestampModulo`), so two visits whose creation times differ by a
  multiple of 10^10 ms get the same id once both are at least 10^9 ms
  (`IdsCollideAcrossWindow`).
- Submitting with no map click pending throws before anything changes
  (`Submit` returns `Failure(NoPendingLocation)`).

## Model

| member | source | states |
|---|---|---|
| Visits.Classify | script.js:123-129 | The tier is bad exactly when the coerced rating is below 5 (or minus infinity). It is good exactly when it is above 7 (or plus infinity). It is average exactly when the rating is NaN or lies in 5..7. |
| Visits.IntegerRatingTiers | script.js:123-129 | For whole-number ratings: bad is below 5, good is above 7, and average is exactly 5, 6 and 7. |
| Visits.MonthNamesWellFormed | script.js:36-49 | The twelve month names are pairwise distinct and none contains a space. |
| Visits.DisplayDate | script.js:35-50 | The display date, "month-name day", reads back as exactly the calendar day it was built from, and the day is printed without a leading zero. The month index is always a valid table index. |
| Visits.MonthDayReadsBack | script.js:50 | A month name from the table, one space and the day's decimal digits read back as that month and day. |
| Visits.DisplayDateInjective | script.js:35-50 | Different calendar days never get the same display date. |
| Visits.TimestampId | script.js:14 | The id is a suffix of the timestamp's decimal string with at most ten digits. It is the whole string when that string has at most ten characters, and otherwise its last ten characters. |
| Visits.IdIsTimestampModulo | script.js:14 | Read as a number, the id equals the creation time modulo 10^10 ms. |
| Visits.IdsDistinctWithinWindow | script.js:14 | Creation times that differ modulo 10^10 get different ids. |
| Visits.IdsCollideAcrossWindow | script.js:14 | From 10^9 ms on, creation times that agree modulo 10^10 get the same id, so ids are not unique. |
| Visits.IdHasTenDigits | script.js:14 | From 10^9 ms on, the id is exactly ten characters long. |
| Visits.NewVisit | script.js:12-34 | The constructor copies coordinates, the six form strings and the tier, and records the creation time. Its id is the timestamp id of the creation time, which reads back as the time modulo 10^10. Its display date is the display date of the given calendar day and reads back as that day. |
| Decimal.DecimalString | script.js:14 | Converting a timestamp to a string gives decimal digits with no leading zero. The string has exactly as many characters as the number has digits. |
| Decimal.ParseDecimalString | script.js:14 | Reading the timestamp's decimal string back as a number gives the timestamp. |
| App.StyleClass | script.js:157 | The style class is "visit--" followed by the tier's name. |
| App.EntryOf | script.js:163-176 | A list entry carries the classes "visit" and the tier's style class, and its data-id is the visit's id. It shows the visit's title, display date, rating, bathrooms, changing table, feeding area and summary. |
| App.MarkerOf | script.js:148-161 | A marker stands at the visit's coordinates, its popup has the tier's style class, and its content is the title. |
| App.LoadVisits | script.js:195-199 | A stored list replaces the current list verbatim. An empty slot leaves the current list unchanged. |
| App.Init | script.js:57-63 | A new app holds the stored list, or the empty list when nothing is stored. It has no map, no pending click, and nothing rendered. |
| App.SaveVisits | script.js:192-194 | After saving, the slot holds the entire current list and nothing else changes. |
| App.ShowForm | script.js:88-99 | The map click becomes the pending location and all six fields become empty. Nothing else changes. |
| App.HideForm | script.js:100-111 | All six fields become empty. The pending location and everything else stay unchanged. |
| App.RenderVisit | script.js:163-178 | The new entry is placed directly after the form, above every entry already shown. Nothing else changes. |
| App.RenderMarker | script.js:148-162 | One marker is added after the existing ones. Nothing else changes. |
| App.Replay | script.js:83-86 | Replaying the list changes only the rendered entries and the markers. |
| App.LoadMap | script.js:72-87 | After the map loads, the map exists. Only the view and the markers change besides that. |
| App.VisitFromForm | script.js:115-139 | The new visit's coordinates are the pending click's position. Its title, rating, bathroom, feeding, changing and summary equal the form fields. Its tier is the classification of the coerced rating. Its creation time is the clock reading, and its id and display date are those of that reading. |
| App.Submit | script.js:112-147 | Submission fails exactly when no location is pending. On success it appends exactly one visit built from the form and leaves earlier visits unchanged. It adds that visit's marker last and its entry on top, clears the form, keeps the pending location, and saves the whole new list. |
| App.FindById | script.js:182-184 | The lookup returns the first visit in list order with the given id. It returns nothing exactly when no visit has that id. |
| App.MoveToMarker | script.js:179-191 | A click outside any entry does nothing. A click inside one throws when the map does not exist yet, and otherwise throws when no visit has the clicked id. Otherwise the map recenters at zoom 15 on the first visit with that id. |
| App.Reset | script.js:200-203 | After a reset the storage slot is empty and the reloaded app has no visits, no map, no pending click and nothing rendered. |
| App.Enabled | script.js:62-82 | The page delivers the position once, before the map exists. It reports map clicks only once the map exists, because the handler is bound in `_loadMap`. A list click inside an entry lands on an entry that is shown. |
| App.Step | script.js:58-63 | A list click never changes the state. A submission with no pending location throws and changes nothing. |
| AppProperties.ReplayRendersReversed | script.js:83-86 | Replaying a list in order puts its entries above the existing ones in reverse order. It adds its markers after the existing ones in list order. |
| AppProperties.LoadMapShowsReversedList | script.js:83-86 | When the map loads with nothing shown, the list view is the visit list reversed and the markers follow list order. |
| AppProperties.RenderAppend | script.js:141-144 | Appending a visit and rendering it keeps the view equal to the list reversed and the markers equal to the list in order. |
| AppProperties.InitConsistent | script.js:58-63 | A freshly constructed app satisfies the consistency invariant. |
| AppProperties.StepPreservesConsistent | script.js:112-147 | Every deliverable event preserves the invariant. Once the map exists, the view is the reversed list and the markers follow the list. Storage holds the list whenever the list is non-empty. |
| AppProperties.RunPreservesConsistent | script.js:58-63 | Any deliverable sequence of events preserves the invariant. |
| AppProperties.SessionShowsReversedStore | script.js:177 | In every session, once the map exists, the list view is the visit list newest first and there is one marker per visit in list order. Storage holds the non-empty list. |
| AppProperties.SaveLoadRoundTrip | script.js:192-199 | Loading right after a save gives back exactly the saved list. |
| AppProperties.ReloadRestoresVisits | script.js:195-199 | Reloading a consistent app restores exactly its visit list. |
| AppProperties.ResetEmptiesStore | script.js:200-203 | After a reset, the slot is absent, loading leaves the list unchanged, the reloaded list is empty, and the invariant holds. |
| AppProperties.FindByIdAppend | script.js:182-184 | In an extended list, an earlier match still wins. Otherwise the appended visit is found exactly when it has the id. |
| AppProperties.LookupAfterSubmit | script.js:182-184 | After a submission the new id is always found. The lookup returns the new visit exactly when no earlier visit shares its id. |
| AppProperties.ClickOnShownEntry | script.js:179-191 | A click on the k-th shown entry finds a visit at or before the one that entry was rendered from, and recenters on that visit's coordinates. |
| AppProperties.ClickOnShownEntryUniqueIds | script.js:179-191 | With distinct ids, a click on an entry recenters on exactly the visit that entry shows. |
| AppProperties.DeliverableClickNeverThrows | script.js:180-185 | In a consistent app, no list click the page can deliver makes the handler throw. |
| AppProperties.StyleClassInjective | script.js:157 | Different tiers never share a style class. |
| AppProperties.TierDrivesStyling | script.js:148-165 | The tier stored in the new visit is the one computed from the rating. That tier styles both the new marker's popup and the new list entry. |

## Left out

- Geolocation, Leaflet and the map itself (script.js:64-82, 148-162): the map's existence is the flag `mapLoaded`. Markers are a list of (position, popup class, text). Recentering is an `Effect`. The failure alert, the initial `setView`, the tile layer and popup options are not modelled.
- DOM, HTML templating and CSS (script.js:3-10, 98, 108-110, 164-177): list entries are `Entry` values, not HTML strings, and the text is not escaped. The show/hide class toggling and the one-second `setTimeout` display reset are left out.
- `location.reload` (script.js:202) is modelled as starting a new `App` over the emptied slot. The form contents after the reload are an input.
- `JSON.parse` throwing on corrupt stored data and `JSON.stringify` turning `date` into a string are left out. The slot holds the list verbatim, and nothing reads `date` back.
- Visits.Classify: takes the coerced number as input. JavaScript's string-to-number coercion is the parameter `toNumber`, and the distinction between -0 and +0 is not represented.
- Visits.NewVisit: `date` and `id` come from two separate clock readings in the source (`new Date()` and `Date.now()`). The model uses one reading for both. The calendar day is an input and is not derived from the timestamp, because the local time zone is not modelled.
- Visits.TimestampId: covers non-negative timestamps only. A pre-1970 clock gives a leading minus sign in the source.
- Coordinates are reals that are copied and never computed on. Floating-point behaviour is not modelled.
- AppProperties.DeliverableClickNeverThrows: assumes that the text pasted into an entry (title, rating, bathrooms, changing table, feeding area, summary) contains no markup. `_renderVisit` inserts it unescaped, so text such as `<b class="visit">x</b>` creates a `.visit` element with no matching `data-id`, and a click on it throws. `Enabled` excludes such clicks.
- App.Submit: assumes the map exists whenever a location is pending, which holds because only a map click sets it. If the map did not exist, `_renderMarker` would throw after the visit had been appended; the model does not represent that.
- The `console.log` of each new visit (script.js:140) is left out.
