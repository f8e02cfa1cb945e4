# Trip board presenter, modelled in Dafny

This project models the `Presenter` class of a trip planner's front end
(`src/presenter/presenter.js`). Under its DOM calls the presenter is a small
sequential state machine. It holds:

- the current sort kind;
- the filter kind it last read;
- the loading flag;
- a registry (`#pointPresenter`), a map from point id to a point presenter.

It reacts to the models' notifications (PATCH, MINOR, MAJOR, INIT), to sort
changes and to user actions (update, add, delete), and it rebuilds the list
of points.

The model has three modules:

- `Projection` (projection.dfy) covers the `points` getter. The getter
  applies `filter[kind]` to the store's points. The body of `filter` is not
  part of this model, so the model assumes that `filter[kind]` keeps, in
  order, the points a per-kind predicate accepts, and returns a new array.
  Sorting is `Array.prototype.sort`, which is stable; the model writes it
  as a stable insertion sort (`SortByStable`). The filter predicates and
  the three comparators (`sortDateFrom`, `sortTime`, `sortPrice`) are
  parameters (`Engines`).
- `Registry` (registry.dfy) covers the registry. Each point presenter is a
  `Handle(serial, point, mode)`. The serial number stands for the object's
  identity, so the model can say which presenters `destroy` was called on.
- `TripPresenter` (presenter.dfy) holds the class `Presenter`. Its fields
  are the JavaScript fields, plus the state of the views the presenter
  tracks: the empty-list placeholder and its filter kind, the sort view and
  its kind, the loading view, and the new-point form's state. The UI
  blocker is a pair of `block`/`unblock` counters, and calls into the
  points model are kept in a log. Every method says in `modifies` which
  fields it may change.

Each call reads the points model (`points`, `destinations`,
`offersByType`) and the filter model (`filter`). The model passes these in
as a `Sources` value.

`Map.get(id).method()` on an id that is not registered throws a TypeError.
The model shows this as the outcome `Threw`, and the state is left as it
was at the throw.

## Model

| member | source | states |
|---|---|---|
| Projection.FilterByContents | src/presenter/presenter.js:54 | The filter result holds exactly the points the predicate for the active kind accepts, never more copies than the input, and is no longer than the input. |
| Projection.InsertPermutes | src/presenter/presenter.js:56-62 | Inserting a point into the list adds exactly that point and loses nothing. |
| Projection.SortByPermutes | src/presenter/presenter.js:56-62 | Sorting gives a permutation of the filtered points. |
| Projection.InsertSorted | src/presenter/presenter.js:56-62 | With a consistent comparator, an insertion keeps a sorted list sorted. |
| Projection.SortBySorted | src/presenter/presenter.js:56-62 | With a consistent comparator, the sorted result is ordered by it. |
| Projection.InsertAfterAll | src/presenter/presenter.js:56-62 | A point that no element compares above is appended to the list. |
| Projection.TiesAppend | src/presenter/presenter.js:56-62 | The points tying with `x` in a concatenation are those of the first part followed by those of the second. |
| Projection.TiesNone | src/presenter/presenter.js:56-62 | A list with no point tying with `x` has no ties with it. |
| Projection.TieEquivalence | src/presenter/presenter.js:56-62 | Under a consistent comparator, two points that tie with a third tie with each other. |
| Projection.TiesInsert | src/presenter/presenter.js:56-62 | Inserting into a sorted list puts the point after every point it ties with, and keeps the order of the existing ties. |
| Projection.SortByStable | src/presenter/presenter.js:56-62 | The sort is stable: under a consistent comparator, the points that tie with any given point keep their input order. |
| Projection.ProjectStable | src/presenter/presenter.js:56-63 | For DAY, TIME and PRICE with a consistent comparator, tied points appear in `points` in the order the filter left them. |
| Projection.SortedSplit | src/presenter/presenter.js:56-62 | Dropping the last element of a sorted list leaves it sorted, with that element not below any other. |
| Projection.SortBySortedIsIdentity | src/presenter/presenter.js:56-62 | Sorting an already sorted list returns it unchanged. |
| Projection.FilterByAllKept | src/presenter/presenter.js:54 | A filter whose predicate accepts every point returns the list unchanged. |
| Projection.ProjectContents | src/presenter/presenter.js:51-65 | A point is in `points` exactly when it is in the store and the active filter keeps it. The result is a permutation of the filtered list, for every sort kind, including an unrecognised one (which returns the filtered list unsorted). |
| Projection.ProjectSorted | src/presenter/presenter.js:56-63 | For DAY, TIME and PRICE with a consistent comparator, `points` is ordered by that kind's comparator. |
| Projection.ProjectIdempotent | src/presenter/presenter.js:51-65 | Projecting the visible list again gives it back. |
| Registry.LastWith | src/presenter/presenter.js:223 | Finds the last point with a given id: the one whose `Map.set` wins. |
| Registry.RenderAll | src/presenter/presenter.js:226-230 | Rendering a list adds exactly the ids of its points to the registry's keys. |
| Registry.RenderAllAt | src/presenter/presenter.js:216-230 | Each id of the list ends up under a viewing handle for the last point with that id, numbered by that point's position. Ids not in the list keep their handle. |
| Registry.RebuildRegistersVisible | src/presenter/presenter.js:226-230 | Rendering into an empty registry registers exactly the ids of the list. Each handle is viewing, shows a point of the list with its own id, and has a fresh serial. |
| Registry.ResetAll | src/presenter/presenter.js:100-102 | `resetView` on every handle: same keys, every mode is viewing, points and identities are kept. |
| Registry.Marked | src/presenter/presenter.js:127-149 | `setSaving`/`setDeleting`/`setAborting` change the mode of one handle and nothing else. |
| Registry.MarkedTwice | src/presenter/presenter.js:127-132 | A second mark on the same handle overrides the first (Saving then Aborting is just Aborting). |
| Registry.OpenFormAfterReset | src/presenter/presenter.js:100-102 | Resetting every handle and then opening one form leaves exactly one handle in editing mode. |
| TripPresenter.Presenter.constructor | src/presenter/presenter.js:30-34 | The initial state: sort DAY, filter EVERYTHING, loading, empty registry, no views on screen. The invariant holds. |
| TripPresenter.Presenter.Points | src/presenter/presenter.js:51-65 | The `points` getter: it writes only the filter kind (taken from the filter model) and returns the projection of the store under the current sort kind. |
| TripPresenter.PointsAreRepeatable | src/presenter/presenter.js:51-65 | Two reads of `points` with the models unchanged return the same list. |
| TripPresenter.Presenter.CreatePoint | src/presenter/presenter.js:67-70 | The sort kind becomes DAY, and the filter model is asked for a MAJOR change to EVERYTHING. |
| TripPresenter.Presenter.Init | src/presenter/presenter.js:72-77 | The reference data is copied in and the board rendered. |
| TripPresenter.Presenter.HandleModeChange | src/presenter/presenter.js:100-102 | The loop over the registry leaves it equal to `ResetAll` of the old registry. The invariant is kept. |
| TripPresenter.Presenter.Mark | src/presenter/presenter.js:127-149 | One registered handle gets the new mode. |
| TripPresenter.Presenter.CallForHandle | src/presenter/presenter.js:126-151 | UPDATE/DELETE: it throws exactly when the id is not registered. Otherwise it marks the handle Saving/Deleting, calls the store once, and on failure marks it Aborting. |
| TripPresenter.Presenter.CallForAdd | src/presenter/presenter.js:134-143 | ADD as the source has it: the form shows saving, the store is called once, and a failed add throws exactly when the new point's id is not registered. |
| TripPresenter.Presenter.CallForAddCorrected | src/presenter/presenter.js:134-143 | ADD with the failure path corrected: a failure puts the form itself into aborting. |
| TripPresenter.Presenter.HandleViewAction | src/presenter/presenter.js:123-154 | Exactly one `block`. `unblock` runs exactly when the handler completes. It throws exactly when the id is not registered and the action is not a successful ADD. The store calls, the form state and each handle's mode are as the action and outcome dictate. |
| TripPresenter.Presenter.HandleViewActionCorrected | src/presenter/presenter.js:123-154 | The same with the ADD failure path corrected: ADD always completes, so each ADD's `block` is matched by an `unblock`. UPDATE and DELETE on an unregistered id still throw and keep the block held, as in the source. |
| TripPresenter.Presenter.HandleModelEvent | src/presenter/presenter.js:156-175 | It throws exactly on a PATCH whose payload id is not registered. PATCH changes only that one handle. MINOR keeps the sort kind and MAJOR resets it to DAY; both destroy every old handle and rebuild from an empty board. INIT ends loading and renders on top of the current registry. Nothing sets loading back on. |
| TripPresenter.Presenter.PatchHandle | src/presenter/presenter.js:158-160 | It throws exactly when the payload id is not registered. Otherwise only that handle is re-initialised with the payload and put back into viewing mode (the mode `PointPresenter.init` is taken to leave it in), and the key set and all other fields are unchanged. |
| TripPresenter.Presenter.HandleInit | src/presenter/presenter.js:169-173 | Loading is off and its view is removed. The board is rendered over the old registry. Coming from loading, the registry keys are exactly the visible ids. |
| TripPresenter.Presenter.Rebuild | src/presenter/presenter.js:161-168 | Every old handle is destroyed, and the sort kind is reset only for MAJOR. When not loading, the registry keys are exactly the ids of `points`, and the placeholder is shown, tagged with the filter kind, exactly when `points` is empty. |
| TripPresenter.Presenter.HandleSortTypeChange | src/presenter/presenter.js:177-185 | Nothing changes when the kind is the current one. Otherwise the kind is taken, every old handle is destroyed and the board rebuilt, and the registry keys become the visible ids. |
| TripPresenter.Presenter.ClearBoard | src/presenter/presenter.js:191-205 | Every registered handle is destroyed, and the registry and sort, loading and placeholder views are removed. The sort kind is reset to DAY exactly when asked. |
| TripPresenter.Presenter.RenderPoint | src/presenter/presenter.js:216-224 | A fresh viewing handle for the point is stored under its id. |
| TripPresenter.Presenter.RenderPoints | src/presenter/presenter.js:226-230 | The loop's registry equals `RenderAll` of the old one over the points, and the counter advances by the number of points. |
| TripPresenter.Presenter.RenderContainer | src/presenter/presenter.js:249-267 | While loading: only the loading view is added, with no handles and no sort view. Otherwise: the placeholder (tagged with the filter kind) exactly when `points` is empty, else one handle per point, then the sort view with the current kind. |
| TripPresenter.Presenter.RenderList | src/presenter/presenter.js:258-266 | The part after the loading check, as above. |
| TripPresenter.AddFailureLeavesUiBlocked | src/presenter/presenter.js:138-153 | A failed ADD of an unregistered draft throws, and the block is never released. |
| TripPresenter.AddFailureReleasesUiBlockCorrected | src/presenter/presenter.js:134-153 | The corrected dispatch releases the block and marks the form aborting. |
| TripPresenter.EmptyStoreShowsPlaceholder | src/presenter/presenter.js:169-173 | After INIT with an empty store, no handle is registered and the placeholder shows EVERYTHING. |

The invariant `Presenter.Valid` says three things:

- every registered handle is stored under its point's id, has a serial
  already issued, and has not been destroyed;
- every destroyed serial was issued;
- while loading, the registry is empty and neither the sort view nor the
  placeholder is on screen.

Every state-changing method keeps it.

## Left out

- Views and the DOM: `render`/`remove`, `BoardView`, `SortView`, `ListEmptyView`, `LoadingView` and `EventsListView`. They are reduced to the placeholder, sort-view and loading-view fields.
- The destination-name join in `#renderBoard` (src/presenter/presenter.js:240-247). It builds only a view. It throws when a point's destination is not among the destinations, and the model does not capture that throw.
- The new-point form and its keyboard wiring (`#initNewEventButton`, `#showNewEventForm`, `#hideNewEventForm`, `#escKeyDownHandler`). Only the form's saving/aborting state is kept.
- `UiBlocker` timing (the 350/1000 ms limits) and blocking behaviour. These are timing in a collaborator; the blocker is the two counters.
- `async`/`await`: each store call is a synchronous step whose outcome is a parameter. The store's own change notification reaches `HandleModelEvent` as a separate call.
- The bodies of the filter predicates, the comparators, `PointPresenter` and the two models. The filters and comparators are parameters; a point presenter is a `Handle`. `PointPresenter.init` is taken to show the given point in viewing mode, both when a handle is made and when PATCH re-initialises it.
- Projection.FilterBy: the model assumes `filter[kind]` applies a per-point predicate and returns a new array. The membership half of `ProjectContents`, and `ProjectIdempotent`, rest on that assumption.
- Projection.FilterBy: the getter's `.sort` works in place on the array `filter[kind]` returns (src/presenter/presenter.js:58-62). If that array is the points model's own array (an identity EVERYTHING filter would return it), each read of `points` reorders the store. Later sorts would then break ties in that new order, and the unrecognised-kind fallback would return it. The model sorts a copy and leaves `Sources.points` unchanged, so aliasing between the getter and the store is not captured.
- Projection.SortBy: `Array.prototype.sort` guarantees no particular order for a comparator that is not consistent. The model fixes one stable insertion order, and proves ordering only under `Consistent`.
- TripPresenter.Presenter.CreatePoint: the filter model's `setFilter` notifies the presenter in turn. The model returns that request instead, and its MAJOR notification is a separate `HandleModelEvent` call.
- TripPresenter.Presenter.HandleModelEvent: INIT renders over the old registry and destroys no handle (src/presenter/presenter.js:169-173), unlike MINOR and MAJOR, which clear the board first (src/presenter/presenter.js:161-168). The model does the same.
- TripPresenter.Presenter.RenderPoint: the destinations and offers handed to each point presenter's `init` are not stored in the handle.
- TripPresenter.Presenter.ClearBoard: the source removes the placeholder view but keeps its field. The model records only whether the placeholder is on screen.

## Findings

| source | as written | input that shows it | evidently intended | confidence | as-written member | corrected member |
|---|---|---|---|---|---|---|
| src/presenter/presenter.js:138-153 | On a failed ADD, the catch block calls `this.#pointPresenter.get(update.id).setAborting()`. A new point has no point presenter, so `get` returns `undefined` and the call throws before `this.#uiBlocker.unblock()`. | `HandleViewAction(AddPoint, MINOR, draft, Failed)` with `draft.id` not in the registry (for example, on a fresh presenter) | A failed add puts the new-point form into its aborting state, and the handler always reaches `unblock()`. | not executed | TripPresenter.AddFailureLeavesUiBlocked | TripPresenter.Presenter.HandleViewActionCorrected |
