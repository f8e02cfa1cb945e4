/** The trip board presenter: the state machine under the DOM calls of
    `Presenter` in src/presenter/presenter.js. It keeps the sort kind, the
    filter kind it last read, the loading flag and the registry of point
    presenters, reacts to the models' notifications (PATCH, MINOR, MAJOR,
    INIT), to sort changes and to user actions, and rebuilds the list.

    Views are reduced to what the presenter tracks about them: whether the
    empty-list placeholder is shown and for which filter, whether the sort
    control is shown and with which kind, whether the loading view is shown.
    The UI blocker is a pair of counters of `block` and `unblock` calls. */
module TripPresenter {
  import opened Projection
  import opened Registry

  datatype Option<T> = None | Some(value: T)

  datatype UpdateType = Patch | Minor | Major | Init

  datatype UserAction = UpdatePoint | AddPoint | DeletePoint

  /** How the points model's `updatePoint`/`addPoint`/`deletePoint` settled. */
  datatype StoreOutcome = Succeeded | Failed

  /** Whether a handler ran to its end or stopped on the TypeError thrown
      by calling a method on the `undefined` that `Map.get` returns for an
      id that is not registered. */
  datatype Completion = Completed | Threw

  /** A call the presenter made into the points model. */
  datatype StoreCall = StoreCall(action: UserAction, updateType: UpdateType, point: Point)

  /** A call the presenter made into the filter model (`setFilter`). */
  datatype FilterRequest = SetFilter(updateType: UpdateType, filter: FilterKind)

  datatype Destination = Destination(id: string, name: string)

  datatype OfferGroup = OfferGroup(pointType: string, offerIds: seq<string>)

  /** What the presenter reads from its two models during one call: the
      points model's `points`, `destinations` and `offersByType`, and the
      filter model's `filter`. */
  datatype Sources = Sources(points: seq<Point>, filter: FilterKind, destinations: seq<Destination>, offersByType: seq<OfferGroup>)

  class Presenter {
    const engines: Engines

    var currentSort: SortKind
    var filterType: FilterKind
    var isLoading: bool
    var registry: Table
    var allDestinations: seq<Destination>
    var allOffersByType: seq<OfferGroup>

    /** The empty-list view on screen, with the filter kind it was made for. */
    var placeholder: Option<FilterKind>
    /** The sort view on screen, with the sort kind it was made for. */
    var sortControl: Option<SortKind>
    var loadingShown: bool
    /** The state of the new-point form. */
    var draftMode: Mode

    var blocks: nat
    var unblocks: nat
    var storeCalls: seq<StoreCall>

    /** Serial number of the next point presenter to be made. */
    var nextSerial: nat
    /** Serial numbers of the point presenters `destroy` was called on. */
    var destroyed: set<nat>

    ghost predicate Valid()
      reads this`registry, this`nextSerial, this`destroyed, this`isLoading, this`sortControl, this`placeholder
    {
      && (forall k :: k in registry ==>
            registry[k].point.id == k && registry[k].serial < nextSerial && registry[k].serial !in destroyed)
      && (forall s :: s in destroyed ==> s < nextSerial)
      && (isLoading ==> registry == map[] && sortControl == None && placeholder == None)
    }

    constructor (engines: Engines)
      ensures Valid()
      ensures this.engines == engines
      ensures currentSort == Day && filterType == Everything && isLoading
      ensures registry == map[] && placeholder == None && sortControl == None && !loadingShown
      ensures allDestinations == [] && allOffersByType == [] && draftMode == Viewing
      ensures blocks == 0 && unblocks == 0 && storeCalls == [] && nextSerial == 0 && destroyed == {}
    {
      this.engines := engines;
      currentSort := Day;
      filterType := Everything;
      isLoading := true;
      registry := map[];
      allDestinations := [];
      allOffersByType := [];
      placeholder := None;
      sortControl := None;
      loadingShown := false;
      draftMode := Viewing;
      blocks, unblocks := 0, 0;
      storeCalls := [];
      nextSerial := 0;
      destroyed := {};
    }

    /** The list `points` yields for these model contents under the current sort kind. */
    function Visible(src: Sources): seq<Point>
      reads this`currentSort
    {
      Project(src.points, src.filter, currentSort, engines)
    }

    /** The board after `#renderContainer` ran with loading over, on a
        registry that held `before`, with the serial counter at `first`
        and `placeholderBefore` on screen. */
    ghost predicate Rendered(src: Sources, before: Table, first: nat, placeholderBefore: Option<FilterKind>)
      reads this`filterType, this`registry, this`nextSerial, this`placeholder, this`sortControl, this`currentSort
    {
      && filterType == src.filter
      && registry == RenderAll(before, Visible(src), first)
      && nextSerial == first + |Visible(src)|
      && placeholder == (if Visible(src) == [] then Some(src.filter) else placeholderBefore)
      && sortControl == Some(currentSort)
    }

    /** The board after `#renderContainer`, loading or not, from a state
        with the given registry, counter, placeholder, sort view and
        loading view. */
    ghost predicate AfterRender(src: Sources, before: Table, first: nat, placeholderBefore: Option<FilterKind>,
                                sortBefore: Option<SortKind>, loadingBefore: bool)
      reads this`filterType, this`registry, this`nextSerial, this`placeholder, this`sortControl, this`currentSort, this`isLoading, this`loadingShown
    {
      && filterType == src.filter
      && (isLoading ==>
            registry == before && nextSerial == first && loadingShown
            && placeholder == placeholderBefore && sortControl == sortBefore)
      && (!isLoading ==> Rendered(src, before, first, placeholderBefore) && loadingShown == loadingBefore)
    }

    /** The PATCH case: the completion says whether the payload's id
        was registered; if it was, that one handle shows the payload again
        in viewing mode (the mode `PointPresenter.init` is taken to leave a
        handle in); nothing else changes. */
    twostate predicate Patched(data: Option<Point>, r: Completion)
      reads this`filterType, this`registry, this`nextSerial, this`placeholder, this`sortControl, this`currentSort, this`isLoading, this`loadingShown, this`destroyed, this`allDestinations, this`allOffersByType
    {
      && (r == Threw <==> !(data.Some? && data.value.id in old(registry)))
      && registry == (if r == Threw then old(registry)
                      else old(registry)[data.value.id := old(registry)[data.value.id].(point := data.value, mode := Viewing)])
      && currentSort == old(currentSort) && filterType == old(filterType) && isLoading == old(isLoading)
      && placeholder == old(placeholder) && sortControl == old(sortControl) && loadingShown == old(loadingShown)
      && nextSerial == old(nextSerial) && destroyed == old(destroyed)
      && allDestinations == old(allDestinations) && allOffersByType == old(allOffersByType)
    }

    /** The MINOR and MAJOR cases: every old handle destroyed, the sort
        kind reset when asked, loading unchanged, and the board rendered
        from an empty registry, placeholder and sort view. */
    twostate predicate Rebuilt(resetSortType: bool, src: Sources)
      reads this`filterType, this`registry, this`nextSerial, this`placeholder, this`sortControl, this`currentSort, this`isLoading, this`loadingShown, this`destroyed, this`allDestinations, this`allOffersByType
    {
      && currentSort == (if resetSortType then Day else old(currentSort))
      && destroyed == old(destroyed) + Serials(old(registry))
      && isLoading == old(isLoading)
      && allDestinations == old(allDestinations) && allOffersByType == old(allOffersByType)
      && AfterRender(src, map[], old(nextSerial), None, None, false)
    }

    /** The INIT case: loading over and its view gone, the reference data
        taken, and the board rendered on top of the old registry (nothing
        is destroyed). */
    twostate predicate Initialised(src: Sources)
      reads this`filterType, this`registry, this`nextSerial, this`placeholder, this`sortControl, this`currentSort, this`isLoading, this`loadingShown, this`destroyed, this`allDestinations, this`allOffersByType
    {
      && !isLoading && !loadingShown
      && currentSort == old(currentSort) && destroyed == old(destroyed)
      && allDestinations == src.destinations && allOffersByType == src.offersByType
      && Rendered(src, old(registry), old(nextSerial), old(placeholder))
    }

    /** The `points` getter; its only write is the filter kind it reads. */
    method Points(src: Sources) returns (r: seq<Point>)
      modifies this`filterType
      ensures filterType == src.filter
      ensures r == Visible(src)
    {
      filterType := src.filter;
      var filtered := FilterBy(src.points, filterType, engines.keep);
      match currentSort {
        case Day => r := SortBy(filtered, engines.byDay);
        case Time => r := SortBy(filtered, engines.byTime);
        case Price => r := SortBy(filtered, engines.byPrice);
        case Other(_) => r := filtered;
      }
    }

    /** Resets the sort kind and asks the filter model for a MAJOR change
        to EVERYTHING; the filter model's notification of it reaches
        `HandleModelEvent` as a separate call. */
    method CreatePoint() returns (req: FilterRequest)
      modifies this`currentSort
      ensures currentSort == Day
      ensures req == SetFilter(Major, Everything)
    {
      currentSort := Day;
      req := SetFilter(Major, Everything);
    }

    method Init(src: Sources)
      requires Valid()
      modifies this`allDestinations, this`allOffersByType, this`filterType, this`registry, this`nextSerial,
               this`placeholder, this`sortControl, this`loadingShown
      ensures Valid()
      ensures allDestinations == src.destinations && allOffersByType == src.offersByType
      ensures AfterRender(src, old(registry), old(nextSerial), old(placeholder), old(sortControl), old(loadingShown))
    {
      allDestinations := src.destinations;
      allOffersByType := src.offersByType;
      RenderContainer(src);
    }

    /** `#handleModeChange`: every registered handle goes back to viewing. */
    method HandleModeChange()
      requires Valid()
      modifies this`registry
      ensures Valid()
      ensures registry == ResetAll(old(registry))
    {
      var todo := registry.Keys;
      while todo != {}
        invariant todo <= registry.Keys == old(registry).Keys
        invariant forall k :: k in registry ==>
          registry[k] == if k in todo then old(registry)[k] else old(registry)[k].(mode := Viewing)
        invariant Valid()
        modifies this`registry
        decreases todo
      {
        var k :| k in todo;
        registry := registry[k := registry[k].(mode := Viewing)];
        todo := todo - {k};
      }
    }

    /** `setSaving`, `setDeleting` or `setAborting` on the handle under `id`. */
    method Mark(id: PointId, mode: Mode)
      requires Valid() && id in registry
      modifies this`registry
      ensures Valid()
      ensures registry == Marked(old(registry), id, mode)
    {
      registry := registry[id := registry[id].(mode := mode)];
    }

    /** The UPDATE and DELETE cases of `#handleViewAction`: look the handle
        up and mark it `pending` (throwing when there is none), call the
        points model, and mark the handle aborting if that call failed. */
    method CallForHandle(action: UserAction, updateType: UpdateType, update: Point, outcome: StoreOutcome, pending: Mode)
      returns (r: Completion)
      requires Valid()
      modifies this`registry, this`storeCalls
      ensures Valid()
      ensures r == Threw <==> update.id !in old(registry)
      ensures storeCalls == old(storeCalls) + (if r == Threw then [] else [StoreCall(action, updateType, update)])
      ensures registry == Marked(old(registry), update.id, if outcome == Failed then Aborting else pending)
    {
      var id := update.id;
      if id !in registry {
        r := Threw;
        return;
      }
      Mark(id, pending);
      storeCalls := storeCalls + [StoreCall(action, updateType, update)];
      if outcome == Failed {
        Mark(id, Aborting);
        MarkedTwice(old(registry), id, pending, Aborting);
      }
      r := Completed;
    }

    /** The ADD case of `#handleViewAction` as the source has it: the form
        is marked saving, the points model called, and on failure the new
        point's id is looked up in the registry, which throws when no handle
        is registered under it. */
    method CallForAdd(updateType: UpdateType, update: Point, outcome: StoreOutcome) returns (r: Completion)
      requires Valid()
      modifies this`registry, this`draftMode, this`storeCalls
      ensures Valid()
      ensures r == Threw <==> outcome == Failed && update.id !in old(registry)
      ensures draftMode == Saving
      ensures storeCalls == old(storeCalls) + [StoreCall(AddPoint, updateType, update)]
      ensures registry == if outcome == Failed then Marked(old(registry), update.id, Aborting) else old(registry)
    {
      draftMode := Saving;
      storeCalls := storeCalls + [StoreCall(AddPoint, updateType, update)];
      r := Completed;
      if outcome == Failed {
        if update.id !in registry {
          r := Threw;
          return;
        }
        Mark(update.id, Aborting);
      }
    }

    /** The ADD case with the failure path corrected: a failed add marks
        the form aborting and leaves the registry alone. */
    method CallForAddCorrected(updateType: UpdateType, update: Point, outcome: StoreOutcome)
      modifies this`draftMode, this`storeCalls
      ensures draftMode == if outcome == Failed then Aborting else Saving
      ensures storeCalls == old(storeCalls) + [StoreCall(AddPoint, updateType, update)]
    {
      draftMode := Saving;
      storeCalls := storeCalls + [StoreCall(AddPoint, updateType, update)];
      if outcome == Failed {
        draftMode := Aborting;
      }
    }

    /** `#handleViewAction`, as the source has it: block, run the case of
        the action, unblock. A lookup that throws skips the unblock, so the
        block is then never released. */
    method HandleViewAction(action: UserAction, updateType: UpdateType, update: Point, outcome: StoreOutcome)
      returns (r: Completion)
      requires Valid()
      modifies this`registry, this`draftMode, this`blocks, this`unblocks, this`storeCalls
      ensures Valid()
      ensures r == Threw <==>
        update.id !in old(registry) && (action != AddPoint || outcome == Failed)
      ensures blocks == old(blocks) + 1
      ensures unblocks == old(unblocks) + (if r == Completed then 1 else 0)
      ensures storeCalls == old(storeCalls) +
        (if action != AddPoint && r == Threw then [] else [StoreCall(action, updateType, update)])
      ensures draftMode == if action == AddPoint then Saving else old(draftMode)
      ensures registry == match action
        case UpdatePoint => Marked(old(registry), update.id, if outcome == Failed then Aborting else Saving)
        case DeletePoint => Marked(old(registry), update.id, if outcome == Failed then Aborting else Deleting)
        case AddPoint => if outcome == Failed then Marked(old(registry), update.id, Aborting) else old(registry)
    {
      blocks := blocks + 1;
      match action {
        case UpdatePoint => r := CallForHandle(action, updateType, update, outcome, Saving);
        case AddPoint => r := CallForAdd(updateType, update, outcome);
        case DeletePoint => r := CallForHandle(action, updateType, update, outcome, Deleting);
      }
      if r == Completed {
        unblocks := unblocks + 1;
      }
    }

    /** `#handleViewAction` with the ADD failure path corrected, so that a
        failed add, too, ends with the block released. */
    method HandleViewActionCorrected(action: UserAction, updateType: UpdateType, update: Point, outcome: StoreOutcome)
      returns (r: Completion)
      requires Valid()
      modifies this`registry, this`draftMode, this`blocks, this`unblocks, this`storeCalls
      ensures Valid()
      ensures r == Threw <==> action != AddPoint && update.id !in old(registry)
      ensures blocks == old(blocks) + 1
      ensures unblocks == old(unblocks) + (if r == Completed then 1 else 0)
      ensures storeCalls == old(storeCalls) + (if r == Threw then [] else [StoreCall(action, updateType, update)])
      ensures draftMode ==
        if action == AddPoint then (if outcome == Failed then Aborting else Saving) else old(draftMode)
      ensures registry == match action
        case UpdatePoint => Marked(old(registry), update.id, if outcome == Failed then Aborting else Saving)
        case DeletePoint => Marked(old(registry), update.id, if outcome == Failed then Aborting else Deleting)
        case AddPoint => old(registry)
    {
      blocks := blocks + 1;
      match action {
        case UpdatePoint => r := CallForHandle(action, updateType, update, outcome, Saving);
        case AddPoint =>
          CallForAddCorrected(updateType, update, outcome);
          r := Completed;
        case DeletePoint => r := CallForHandle(action, updateType, update, outcome, Deleting);
      }
      if r == Completed {
        unblocks := unblocks + 1;
      }
    }

    /** `#handleModelEvent`. PATCH re-initialises the one handle under the
        payload's id (and throws when there is none); MINOR and MAJOR tear
        the board down and rebuild it, MAJOR resetting the sort kind; INIT
        ends loading and renders without tearing down first. */
    method HandleModelEvent(updateType: UpdateType, data: Option<Point>, src: Sources) returns (r: Completion)
      requires Valid()
      modifies this`currentSort, this`filterType, this`isLoading, this`registry, this`allDestinations,
               this`allOffersByType, this`placeholder, this`sortControl, this`loadingShown, this`nextSerial,
               this`destroyed
      ensures Valid()
      ensures r == Threw <==> updateType == Patch && !(data.Some? && data.value.id in old(registry))
      ensures updateType == Patch ==> Patched(data, r)
      ensures updateType == Minor ==> Rebuilt(false, src)
      ensures updateType == Major ==> Rebuilt(true, src)
      ensures updateType.Init? ==> Initialised(src)
    {
      r := Completed;
      match updateType {
        case Patch => r := PatchHandle(data);
        case Minor => Rebuild(false, src);
        case Major => Rebuild(true, src);
        case Init => HandleInit(src);
      }
    }

    /** The PATCH case: `init` on the handle under the payload's id, which
        throws when the payload has no registered id. */
    method PatchHandle(data: Option<Point>) returns (r: Completion)
      requires Valid()
      modifies this`registry
      ensures Valid()
      ensures Patched(data, r)
    {
      if data.None? || data.value.id !in registry {
        r := Threw;
        return;
      }
      var p := data.value;
      registry := registry[p.id := registry[p.id].(point := p, mode := Viewing)];
      r := Completed;
    }

    /** The INIT case: loading ends, the loading view goes, and `init`
        renders the board on top of whatever the registry holds. */
    method HandleInit(src: Sources)
      requires Valid()
      modifies this`isLoading, this`loadingShown, this`allDestinations, this`allOffersByType, this`filterType,
               this`registry, this`nextSerial, this`placeholder, this`sortControl
      ensures Valid()
      ensures Initialised(src)
      ensures old(isLoading) ==> registry.Keys == IdsOf(Visible(src))
    {
      isLoading := false;
      loadingShown := false;
      Init(src);
    }

    /** The MINOR and MAJOR cases: `#clearBoard`, then `#renderContainer`. */
    method Rebuild(resetSortType: bool, src: Sources)
      requires Valid()
      modifies this`currentSort, this`filterType, this`registry, this`placeholder, this`sortControl,
               this`loadingShown, this`nextSerial, this`destroyed
      ensures Valid()
      ensures Rebuilt(resetSortType, src)
      ensures !isLoading ==> registry.Keys == IdsOf(Visible(src))
    {
      ClearBoard(resetSortType);
      RenderContainer(src);
      RebuildRegistersVisible(Visible(src), old(nextSerial));
    }

    /** `#handleSortTypeChange`: nothing happens for the current kind;
        otherwise the kind is taken and the board rebuilt. */
    method HandleSortTypeChange(sortType: SortKind, src: Sources)
      requires Valid()
      modifies this`currentSort, this`filterType, this`registry, this`placeholder, this`sortControl,
               this`loadingShown, this`nextSerial, this`destroyed
      ensures Valid()
      ensures sortType == old(currentSort) ==> unchanged(this)
      ensures sortType != old(currentSort) ==>
        && currentSort == sortType
        && destroyed == old(destroyed) + Serials(old(registry))
        && AfterRender(src, map[], old(nextSerial), None, None, false)
      ensures sortType != old(currentSort) && !isLoading ==> registry.Keys == IdsOf(Visible(src))
    {
      if currentSort == sortType {
        return;
      }
      currentSort := sortType;
      Rebuild(false, src);
    }

    /** `#clearBoard`: `destroy` on every handle, the registry emptied, the
        sort, loading and placeholder views removed, and the sort kind reset
        to DAY when asked. */
    method ClearBoard(resetSortType: bool)
      requires Valid()
      modifies this`registry, this`destroyed, this`sortControl, this`loadingShown, this`placeholder, this`currentSort
      ensures Valid()
      ensures registry == map[]
      ensures destroyed == old(destroyed) + Serials(old(registry))
      ensures sortControl == None && !loadingShown && placeholder == None
      ensures currentSort == if resetSortType then Day else old(currentSort)
    {
      var todo := registry.Keys;
      while todo != {}
        invariant todo <= registry.Keys
        invariant destroyed == old(destroyed) + set k | k in registry.Keys - todo :: registry[k].serial
        invariant forall s :: s in destroyed ==> s < nextSerial
        modifies this`destroyed
        decreases todo
      {
        var k :| k in todo;
        destroyed := destroyed + {registry[k].serial};
        todo := todo - {k};
      }
      registry := map[];
      sortControl := None;
      loadingShown := false;
      if placeholder.Some? {
        placeholder := None;
      }
      if resetSortType {
        currentSort := Day;
      }
    }

    /** `#renderPoint`: a new point presenter for `p`, stored under its id. */
    method RenderPoint(p: Point)
      requires Valid() && !isLoading
      modifies this`registry, this`nextSerial
      ensures Valid()
      ensures registry == old(registry)[p.id := Handle(old(nextSerial), p, Viewing)]
      ensures nextSerial == old(nextSerial) + 1
    {
      registry := registry[p.id := Handle(nextSerial, p, Viewing)];
      nextSerial := nextSerial + 1;
    }

    /** `#renderPoints`: `#renderPoint` for each point, in order. */
    method RenderPoints(ps: seq<Point>)
      requires Valid() && !isLoading
      modifies this`registry, this`nextSerial
      ensures Valid()
      ensures registry == RenderAll(old(registry), ps, old(nextSerial))
      ensures nextSerial == old(nextSerial) + |ps|
    {
      var i := 0;
      while i < |ps|
        invariant 0 <= i <= |ps|
        invariant Valid()
        invariant registry == RenderAll(old(registry), ps[..i], old(nextSerial))
        invariant nextSerial == old(nextSerial) + i
      {
        RenderPoint(ps[i]);
        assert ps[..i + 1][..i] == ps[..i];
        i := i + 1;
      }
      assert ps[..|ps|] == ps;
    }

    /** `#renderContainer`: the board, then either the loading view (and
        nothing else) or the placeholder or the point list, then the sort
        view. */
    method RenderContainer(src: Sources)
      requires Valid()
      modifies this`filterType, this`registry, this`nextSerial, this`placeholder, this`sortControl, this`loadingShown
      ensures Valid()
      ensures AfterRender(src, old(registry), old(nextSerial), old(placeholder), old(sortControl), old(loadingShown))
    {
      var board := Points(src);
      if isLoading {
        loadingShown := true;
        return;
      }
      assert registry == old(registry) && nextSerial == old(nextSerial) && placeholder == old(placeholder);
      RenderList(src);
    }

    /** The part of `#renderContainer` after the loading check: the
        placeholder when `points` is empty, the point list otherwise, and
        the sort view. */
    method RenderList(src: Sources)
      requires Valid() && !isLoading
      modifies this`filterType, this`registry, this`nextSerial, this`placeholder, this`sortControl
      ensures Valid()
      ensures Rendered(src, old(registry), old(nextSerial), old(placeholder))
    {
      var shown := Points(src);
      if |shown| == 0 {
        placeholder := Some(filterType);
      } else {
        var listed := Points(src);
        RenderPoints(listed);
      }
      sortControl := Some(currentSort);
    }
  }

  /** A failed add of a draft whose id no handle is registered under: the
      lookup in the catch block throws and the block is never released. */
  method AddFailureLeavesUiBlocked(eng: Engines) returns (stillBlocked: bool)
    ensures stillBlocked
  {
    var presenter := new Presenter(eng);
    var draft := Point("", 0, 0, 0, "");
    var r := presenter.HandleViewAction(AddPoint, Minor, draft, Failed);
    stillBlocked := r == Threw && presenter.blocks == presenter.unblocks + 1;
  }

  /** The same failed add, handled by the corrected dispatch: the form is
      marked aborting and the block released. */
  method AddFailureReleasesUiBlockCorrected(eng: Engines) returns (released: bool, form: Mode)
    ensures released && form == Aborting
  {
    var presenter := new Presenter(eng);
    var draft := Point("", 0, 0, 0, "");
    var r := presenter.HandleViewActionCorrected(AddPoint, Minor, draft, Failed);
    released := r == Completed && presenter.blocks == presenter.unblocks;
    form := presenter.draftMode;
  }

  /** Reading `points` twice with the models unchanged gives the same list:
      the getter's only write is the filter kind, which it reads afresh. */
  method PointsAreRepeatable(presenter: Presenter, src: Sources) returns (first: seq<Point>, second: seq<Point>)
    modifies presenter
    ensures first == second
    ensures presenter.filterType == src.filter
  {
    first := presenter.Points(src);
    second := presenter.Points(src);
  }

  /** An empty store under the EVERYTHING filter: after the INIT
      notification no handle is registered and the placeholder is shown,
      tagged EVERYTHING. */
  method EmptyStoreShowsPlaceholder(eng: Engines) returns (handles: nat, tag: Option<FilterKind>)
    ensures handles == 0 && tag == Some(Everything)
  {
    var presenter := new Presenter(eng);
    var r := presenter.HandleModelEvent(Init, None, Sources([], Everything, [], []));
    handles := |presenter.registry|;
    tag := presenter.placeholder;
  }
}
