/** The presenter's `#pointPresenter` map: point id to a per-point handle.
    A handle stands for one point presenter object; its body is not part of
    this model, so a handle records only the point it shows, the state it is
    in, and a serial number that plays the part of the object's identity. */
module Registry {
  import opened Projection

  /** Viewing is the point row; Editing its open form; Saving, Deleting and
      Aborting the transient states set by `setSaving`, `setDeleting` and
      `setAborting`. */
  datatype Mode = Viewing | Editing | Saving | Deleting | Aborting

  datatype Handle = Handle(serial: nat, point: Point, mode: Mode)

  type Table = map<PointId, Handle>

  function IdsOf(ps: seq<Point>): set<PointId> {
    set p | p in ps :: p.id
  }

  /** The serial numbers of the handles a table holds. */
  function Serials(m: Table): set<nat> {
    set k | k in m :: m[k].serial
  }

  /** The position of the last point of `ps` with id `k`. */
  function LastWith(ps: seq<Point>, k: PointId): (j: nat)
    requires k in IdsOf(ps)
    ensures j < |ps| && ps[j].id == k
    ensures forall i :: j < i < |ps| ==> ps[i].id != k
  {
    var last := ps[|ps| - 1];
    if last.id == k then |ps| - 1
    else
      assert ps == ps[..|ps| - 1] + [last];
      assert k in IdsOf(ps[..|ps| - 1]) by {
        var p :| p in ps && p.id == k;
        assert p in ps[..|ps| - 1];
      }
      LastWith(ps[..|ps| - 1], k)
  }

  /** `#renderPoints(ps)` on a table `m`: one fresh handle per point, in
      order, the handle for `ps[i]` numbered `first + i`, each stored with
      `Map.set` so that a later point overwrites an earlier one with the
      same id. */
  function RenderAll(m: Table, ps: seq<Point>, first: nat): (r: Table)
    ensures r.Keys == m.Keys + IdsOf(ps)
  {
    if ps == [] then m
    else
      var last := ps[|ps| - 1];
      assert ps == ps[..|ps| - 1] + [last];
      assert IdsOf(ps) == IdsOf(ps[..|ps| - 1]) + {last.id};
      RenderAll(m, ps[..|ps| - 1], first)[last.id := Handle(first + |ps| - 1, last, Viewing)]
  }

  /** What a rendered table holds under each key: the handle made for the
      last point with that id, stored in viewing mode; keys the points do
      not mention keep their old handle. */
  lemma {:induction false} RenderAllAt(m: Table, ps: seq<Point>, first: nat, k: PointId)
    ensures k in IdsOf(ps) ==>
      RenderAll(m, ps, first)[k] == Handle(first + LastWith(ps, k), ps[LastWith(ps, k)], Viewing)
    ensures k !in IdsOf(ps) && k in m ==> RenderAll(m, ps, first)[k] == m[k]
  {
    if ps != [] {
      var init, last := ps[..|ps| - 1], ps[|ps| - 1];
      assert ps == init + [last];
      assert IdsOf(ps) == IdsOf(init) + {last.id};
      RenderAllAt(m, init, first, k);
      if k in IdsOf(ps) && last.id != k {
        assert LastWith(ps, k) == LastWith(init, k);
        assert ps[LastWith(ps, k)] == init[LastWith(init, k)];
      }
    }
  }

  /** A rebuild from an empty table registers exactly the visible ids, each
      under a fresh viewing handle that shows the point with that id. */
  lemma RebuildRegistersVisible(ps: seq<Point>, first: nat)
    ensures RenderAll(map[], ps, first).Keys == IdsOf(ps)
    ensures forall k :: k in RenderAll(map[], ps, first) ==>
      var h := RenderAll(map[], ps, first)[k];
      h.point in ps && h.point.id == k && h.mode == Viewing && first <= h.serial < first + |ps|
  {
    forall k | k in RenderAll(map[], ps, first)
      ensures var h := RenderAll(map[], ps, first)[k];
        h.point in ps && h.point.id == k && h.mode == Viewing && first <= h.serial < first + |ps|
    {
      RenderAllAt(map[], ps, first, k);
    }
  }

  /** `#handleModeChange`: `resetView` on every handle. */
  function ResetAll(m: Table): (r: Table)
    ensures r.Keys == m.Keys
    ensures forall k :: k in r ==> r[k].mode == Viewing && r[k].point == m[k].point && r[k].serial == m[k].serial
  {
    map k | k in m :: m[k].(mode := Viewing)
  }

  /** The handle under `id`, if any, put in mode `mode` (`setSaving`,
      `setDeleting`, `setAborting`); every other entry is left alone. */
  function Marked(m: Table, id: PointId, mode: Mode): (r: Table)
    ensures r.Keys == m.Keys
    ensures forall k :: k in m && k != id ==> r[k] == m[k]
    ensures id in m ==> r[id].mode == mode && r[id].point == m[id].point && r[id].serial == m[id].serial
  {
    if id in m then m[id := m[id].(mode := mode)] else m
  }

  /** Marking the same entry twice leaves only the second mark. */
  lemma MarkedTwice(m: Table, id: PointId, first: Mode, second: Mode)
    ensures Marked(Marked(m, id, first), id, second) == Marked(m, id, second)
  {
    if id in m {
      assert m[id := m[id].(mode := first)][id := m[id].(mode := second)] == m[id := m[id].(mode := second)];
    }
  }

  /** At most one handle shows its edit form. */
  ghost predicate SingleEditor(m: Table) {
    forall a, b :: a in m && b in m && m[a].mode == Editing && m[b].mode == Editing ==> a == b
  }

  /** A handle opening its form first fans out the mode change, so after
      it opens there is exactly one editor. */
  lemma OpenFormAfterReset(m: Table, id: PointId)
    requires id in m
    ensures SingleEditor(Marked(ResetAll(m), id, Editing))
    ensures Marked(ResetAll(m), id, Editing)[id].mode == Editing
  {
  }
}
