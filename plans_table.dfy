/** The admin plans table: the search over plan names and the handlers that
    toggle, edit, add and delete plans, each applied to the rows once the
    server has answered. */
module PlansTable {
  import opened Base
  import opened DashboardAdmin

  /** The requests the table sends, in order. */
  datatype AdminCall = FetchPlans | Toggle(id: string) | Update(id: string, body: PlanPayload)
                     | Upsert(body: PlanPayload) | Delete(id: string)

  /** The fields of the plan `updateAdminPlan` answers with; `None` marks a
      key the answer does not carry. */
  datatype PlanPatch = PlanPatch(id: Option<string>, name: Option<string>, pricePerMonth: Option<real>,
                                 currency: Option<string>, features: Option<seq<string>>,
                                 isActive: Option<bool>, createdAt: Option<string>)

  /** The plan `addPlan` creates. */
  const NewPlan := PlanInput(None, "Plus", 9.99, "USD", ["New feature"], true, None)

  /** The body `addPlan` posts: no id, no type, one feature. */
  lemma NewPlanPayload()
    ensures UpsertPayload(NewPlan) == PlanPayload(None, "Plus", 9.99, "USD", "New feature", true, None)
  {
    assert Trim("New feature") == "New feature";
    assert TrimAll(["New feature"]) == ["New feature"];
  }

  /** A plan name matches a query when its lower-cased form contains the
      trimmed, lower-cased query. */
  predicate NameMatches(name: string, q: string)
  {
    Contains(Lower(name), Lower(Trim(q)))
  }

  /** `filtered`: every row for a blank query, otherwise the rows whose name
      matches, in their order. */
  function Visible(rows: seq<AdminPlan>, q: string): (r: seq<AdminPlan>)
    ensures IsBlank(q) ==> r == rows
    ensures SubseqOf(r, rows)
    ensures forall p :: p in r <==> p in rows && (IsBlank(q) || NameMatches(p.name, q))
  {
    var t := Lower(Trim(q));
    if t == [] then
      SubseqRefl(rows); rows
    else
      FilterSubseq(rows, (p: AdminPlan) => Contains(Lower(p.name), t));
      Filter(rows, (p: AdminPlan) => Contains(Lower(p.name), t))
  }

  lemma {:induction false} SubseqRefl(s: seq<AdminPlan>)
    ensures SubseqOf(s, s)
  {
    if |s| > 0 { SubseqRefl(s[1..]); }
  }

  /** The search ignores case and surrounding blanks of the query. */
  lemma VisibleIgnoresCase(rows: seq<AdminPlan>, q1: string, q2: string)
    requires Lower(Trim(q1)) == Lower(Trim(q2))
    ensures Visible(rows, q1) == Visible(rows, q2)
  {
    assert IsBlank(q1) <==> |Lower(Trim(q1))| == 0;
    assert IsBlank(q2) <==> |Lower(Trim(q2))| == 0;
  }

  /** `toggleActive`'s update: the rows with that id take the server's
      `isActive`, and nothing else changes. */
  function ToggledRows(rows: seq<AdminPlan>, id: string, active: bool): (r: seq<AdminPlan>)
    ensures |r| == |rows|
    ensures forall k :: 0 <= k < |rows| && rows[k].id == id ==> r[k] == rows[k].(isActive := active)
    ensures forall k :: 0 <= k < |rows| && rows[k].id != id ==> r[k] == rows[k]
  {
    if |rows| == 0 then []
    else [if rows[0].id == id then rows[0].(isActive := active) else rows[0]] + ToggledRows(rows[1..], id, active)
  }

  /** `{ ...p, ...updated }`: each key the server sent replaces the row's. */
  function ApplyPatch(p: AdminPlan, u: PlanPatch): (r: AdminPlan)
    ensures r.id == u.id.GetOr(p.id) && r.name == u.name.GetOr(p.name)
    ensures r.pricePerMonth == u.pricePerMonth.GetOr(p.pricePerMonth) && r.currency == u.currency.GetOr(p.currency)
    ensures r.features == u.features.GetOr(p.features) && r.isActive == u.isActive.GetOr(p.isActive)
    ensures r.createdAt == u.createdAt.GetOr(p.createdAt)
  {
    AdminPlan(u.id.GetOr(p.id), u.name.GetOr(p.name), u.pricePerMonth.GetOr(p.pricePerMonth),
              u.currency.GetOr(p.currency), u.features.GetOr(p.features), u.isActive.GetOr(p.isActive),
              u.createdAt.GetOr(p.createdAt))
  }

  /** An empty answer leaves the row as it was. */
  lemma EmptyPatchKeeps(p: AdminPlan)
    ensures ApplyPatch(p, PlanPatch(None, None, None, None, None, None, None)) == p
  {
  }

  /** `savePlan`'s update: the rows with the edited id take the server's
      fields, and the other rows are unchanged. */
  function MergedRows(rows: seq<AdminPlan>, id: string, u: PlanPatch): (r: seq<AdminPlan>)
    ensures |r| == |rows|
    ensures forall k :: 0 <= k < |rows| && rows[k].id == id ==> r[k] == ApplyPatch(rows[k], u)
    ensures forall k :: 0 <= k < |rows| && rows[k].id != id ==> r[k] == rows[k]
  {
    if |rows| == 0 then []
    else [if rows[0].id == id then ApplyPatch(rows[0], u) else rows[0]] + MergedRows(rows[1..], id, u)
  }

  /** `removePlan`'s update: the rows with another id, in their order. */
  function RemovedRows(rows: seq<AdminPlan>, id: string): (r: seq<AdminPlan>)
    ensures SubseqOf(r, rows)
    ensures forall p :: p in r <==> p in rows && p.id != id
  {
    FilterSubseq(rows, (p: AdminPlan) => p.id != id);
    Filter(rows, (p: AdminPlan) => p.id != id)
  }

  /** `.find(p => p.id === id)`: the first row with that id. */
  function FindById(rows: seq<AdminPlan>, id: string): (r: Option<AdminPlan>)
    ensures r.None? <==> forall k :: 0 <= k < |rows| ==> rows[k].id != id
    ensures r.Some? ==> exists k :: 0 <= k < |rows| && rows[k] == r.value && r.value.id == id &&
                                    forall j :: 0 <= j < k ==> rows[j].id != id
  {
    if |rows| == 0 then None
    else if rows[0].id == id then Some(rows[0])
    else
      var r := FindById(rows[1..], id);
      assert r.Some? ==> exists k :: 0 <= k < |rows| - 1 && rows[1..][k] == r.value && r.value.id == id &&
                                     forall j :: 0 <= j < k ==> rows[1..][j].id != id;
      if r.Some? then
        var k :| 0 <= k < |rows| - 1 && rows[1..][k] == r.value && r.value.id == id &&
                 forall j :: 0 <= j < k ==> rows[1..][j].id != id;
        assert rows[k + 1] == r.value && forall j :: 0 <= j < k + 1 ==> rows[j].id != id;
        r
      else r
  }

  class PlansTable {
    var q: string
    var rows: seq<AdminPlan>
    var loading: bool
    /** the plan open in the edit modal */
    var editing: Option<AdminPlan>
    var requests: seq<AdminCall>

    constructor ()
      ensures q == "" && rows == [] && loading && editing == None && requests == []
    {
      q := "";
      rows := [];
      loading := true;
      editing := None;
      requests := [];
    }

    /** The rows on screen. */
    function Filtered(): (r: seq<AdminPlan>)
      reads this
      ensures IsBlank(q) ==> r == rows
      ensures forall p :: p in r <==> p in rows && (IsBlank(q) || NameMatches(p.name, q))
    {
      Visible(rows, q)
    }

    method SetQuery(v: string)
      modifies this
      ensures q == v && rows == old(rows) && loading == old(loading)
      ensures editing == old(editing) && requests == old(requests)
    {
      q := v;
    }

    /** `load`: the rows become the fetched plans and loading is cleared; a
        failed fetch leaves the rows and the loading flag set. */
    method Load(data: Net<seq<RawPlan>>)
      modifies this
      ensures requests == old(requests) + [FetchPlans]
      ensures data.Ok? ==> rows == NormalizePlans(data.value) && !loading
      ensures data.Fail? ==> rows == old(rows) && loading
      ensures q == old(q) && editing == old(editing)
    {
      loading := true;
      requests := requests + [FetchPlans];
      if data.Ok? {
        rows := NormalizePlans(data.value);
        loading := false;
      }
    }

    /** `toggleActive`: the rows change once the server answers. */
    method ToggleActive(id: string, reply: Net<AdminPlan>)
      modifies this
      ensures requests == old(requests) + [Toggle(id)]
      ensures reply.Ok? ==> rows == ToggledRows(old(rows), id, reply.value.isActive)
      ensures reply.Fail? ==> rows == old(rows)
      ensures q == old(q) && loading == old(loading) && editing == old(editing)
    {
      requests := requests + [Toggle(id)];
      if reply.Ok? {
        rows := ToggledRows(rows, id, reply.value.isActive);
      }
    }

    /** The Edit button. */
    method Edit(p: AdminPlan)
      modifies this
      ensures editing == Some(p)
      ensures q == old(q) && rows == old(rows) && loading == old(loading) && requests == old(requests)
    {
      editing := Some(p);
    }

    /** The modal's close. */
    method CloseEditor()
      modifies this
      ensures editing == None
      ensures q == old(q) && rows == old(rows) && loading == old(loading) && requests == old(requests)
    {
      editing := None;
    }

    /** `savePlan`: nothing happens when no plan is being edited; otherwise
        the edited plan is patched, its rows take the answer, and editing
        is cleared. A failed patch changes nothing on screen. */
    method SavePlan(partial: PlanInput, reply: Net<PlanPatch>)
      modifies this
      ensures old(editing).None? ==> rows == old(rows) && editing == None && requests == old(requests)
      ensures old(editing).Some? ==>
        requests == old(requests) + [Update(old(editing).value.id, UpdatePayload(partial))]
      ensures old(editing).Some? && reply.Ok? ==>
        rows == MergedRows(old(rows), old(editing).value.id, reply.value) && editing == None
      ensures reply.Fail? ==> rows == old(rows) && editing == old(editing)
      ensures q == old(q) && loading == old(loading)
    {
      if editing.None? {
        return;
      }
      var id := editing.value.id;
      requests := requests + [Update(id, UpdatePayload(partial))];
      if reply.Ok? {
        rows := MergedRows(rows, id, reply.value);
        editing := None;
      }
    }

    /** `addPlan`: the created plan goes first, then the plans are fetched
        again and the fresh copy of the new plan (or the created one, when
        the fetch does not have it) is opened for editing. */
    method AddPlan(created: Net<AdminPlan>, refetch: Net<seq<RawPlan>>)
      modifies this
      ensures created.Fail? ==> requests == old(requests) + [Upsert(UpsertPayload(NewPlan))] && rows == old(rows)
      ensures created.Ok? ==> requests == old(requests) + [Upsert(UpsertPayload(NewPlan)), FetchPlans]
      ensures created.Ok? ==> rows == [created.value] + old(rows)
      ensures created.Ok? && refetch.Ok? ==>
        editing == Some(FindById(NormalizePlans(refetch.value), created.value.id).GetOr(created.value))
      ensures created.Fail? || refetch.Fail? ==> editing == old(editing)
      ensures q == old(q) && loading == old(loading)
    {
      requests := requests + [Upsert(UpsertPayload(NewPlan))];
      if created.Fail? {
        return;
      }
      rows := [created.value] + rows;
      requests := requests + [FetchPlans];
      if refetch.Ok? {
        editing := Some(FindById(NormalizePlans(refetch.value), created.value.id).GetOr(created.value));
      }
    }

    /** `removePlan`: the rows with that id go once the server answers. */
    method RemovePlan(id: string, reply: Net<()>)
      modifies this
      ensures requests == old(requests) + [Delete(id)]
      ensures reply.Ok? ==> rows == RemovedRows(old(rows), id)
      ensures reply.Fail? ==> rows == old(rows)
      ensures q == old(q) && loading == old(loading) && editing == old(editing)
    {
      requests := requests + [Delete(id)];
      if reply.Ok? {
        rows := RemovedRows(rows, id);
      }
    }
  }

  /** Deleting a plan after a successful `load` leaves every other fetched
      plan on screen and this one off it. */
  method RemoveAfterLoad(data: seq<RawPlan>, id: string) returns (shown: seq<AdminPlan>)
    ensures forall k :: 0 <= k < |data| ==> (NormalizePlan(data[k]) in shown <==> data[k].id != id)
  {
    var t := new PlansTable();
    t.Load(Ok(data));
    t.RemovePlan(id, Ok(()));
    shown := t.Filtered();
  }
}
