/** The admin service: the admin records, the features CSV sent to the
    backend, the normalisation of fetched plans, and the plan payloads.
    Prices and amounts are `real`: exact decimals, without the rounding of
    binary floating point. */
module DashboardAdmin {
  import opened Base

  const Comma := ','

  datatype AdminPlan = AdminPlan(id: string, name: string, pricePerMonth: real, currency: string,
                                 features: seq<string>, isActive: bool, createdAt: string)

  /** A plan as the backend sends it: `features` is `None` when it is not an
      array. */
  datatype RawPlan = RawPlan(id: string, name: string, pricePerMonth: real, currency: string,
                             features: Option<seq<string>>, isActive: bool, createdAt: string)

  /** `UpsertPlanInput`; the source's `type` is `kind` here. */
  datatype PlanInput = PlanInput(id: Option<string>, name: string, pricePerMonth: real, currency: string,
                                 features: seq<string>, isActive: bool, kind: Option<string>)

  /** The body posted or patched to `/admin/plans`; `None` marks a key that
      is not in the object. */
  datatype PlanPayload = PlanPayload(id: Option<string>, name: string, pricePerMonth: real, currency: string,
                                     featuresCsv: string, isActive: bool, kind: Option<string>)

  datatype AdminReport = AdminReport(id: string, postId: Option<string>, reportedBy: Option<string>,
                                     reason: Option<string>, createdAt: string, status: string,
                                     targetType: Option<string>, targetId: Option<string>)

  datatype AdminSubscription = AdminSubscription(id: string, userId: string, userName: string, email: string,
                                                 plan: string, status: string, startedAt: string,
                                                 renewsAt: Option<string>, pricePerMonth: real, currency: string)

  datatype AdminPayment = AdminPayment(id: string, date: string, userId: Option<string>, userName: Option<string>,
                                       email: Option<string>, description: string, payMethod: string,
                                       status: string, amount: real, currency: string)

  /** `toCsv`: the items trimmed, the empty ones dropped, joined with ','. */
  function ToCsv(arr: seq<string>): (r: string)
    ensures |Clean(arr)| == 0 ==> r == ""
    ensures |Clean(arr)| == 1 ==> r == Clean(arr)[0]
  {
    Join(Clean(arr), [Comma])
  }

  /** The items that reach the CSV are trimmed, non-empty, and free of commas
      when the input items are. */
  lemma {:induction false} CleanItems(arr: seq<string>, seps: set<char>)
    requires forall k :: 0 <= k < |arr| ==> Avoids(arr[k], seps)
    ensures forall k :: 0 <= k < |Clean(arr)| ==>
      Clean(arr)[k] != "" && Avoids(Clean(arr)[k], seps) && Trim(Clean(arr)[k]) == Clean(arr)[k]
  {
    var t := TrimAll(arr);
    NonEmptyFilters(t);
    forall k | 0 <= k < |Clean(arr)|
      ensures Clean(arr)[k] != "" && Avoids(Clean(arr)[k], seps) && Trim(Clean(arr)[k]) == Clean(arr)[k]
    {
      var x := Clean(arr)[k];
      assert x in t;
      var j :| 0 <= j < |t| && t[j] == x;
      TrimAvoids(arr[j], seps);
    }
  }

  /** When no item holds a comma and some item is not blank, splitting the
      CSV on ',' gives back exactly the trimmed non-empty items. */
  lemma ToCsvSplit(arr: seq<string>)
    requires forall k :: 0 <= k < |arr| ==> Avoids(arr[k], {Comma})
    requires |Clean(arr)| > 0
    ensures Split(ToCsv(arr), {Comma}) == Clean(arr)
  {
    CleanItems(arr, {Comma});
    SplitJoin(Clean(arr), Comma, {Comma});
  }

  /** Cleaning again what was cleaned changes nothing. */
  lemma CleanIdempotent(arr: seq<string>)
    ensures Clean(Clean(arr)) == Clean(arr)
  {
    CleanItems(arr, {});
    TrimAllKeeps(Clean(arr));
    NonEmptyKeeps(Clean(arr));
  }

  /** One fetched plan: array features are kept, anything else becomes []. */
  function NormalizePlan(p: RawPlan): (r: AdminPlan)
    ensures p.features.Some? ==> r.features == p.features.value
    ensures p.features.None? ==> r.features == []
    ensures r.id == p.id && r.name == p.name && r.pricePerMonth == p.pricePerMonth
    ensures r.currency == p.currency && r.isActive == p.isActive && r.createdAt == p.createdAt
  {
    AdminPlan(p.id, p.name, p.pricePerMonth, p.currency, p.features.GetOr([]), p.isActive, p.createdAt)
  }

  /** `fetchAdminPlans`: one plan per fetched row, in the same order. */
  function NormalizePlans(data: seq<RawPlan>): (r: seq<AdminPlan>)
    ensures |r| == |data|
    ensures forall k :: 0 <= k < |data| ==> r[k] == NormalizePlan(data[k])
  {
    if |data| == 0 then [] else [NormalizePlan(data[0])] + NormalizePlans(data[1..])
  }

  /** `upsertAdminPlan`'s body: the id only when it is non-empty, the type
      only when it is non-empty, the features as CSV. */
  function UpsertPayload(input: PlanInput): (r: PlanPayload)
    ensures r.id.Some? <==> Present(input.id)
    ensures r.id.Some? ==> r.id == input.id
    ensures r.kind.Some? <==> Present(input.kind)
    ensures r.kind.Some? ==> r.kind == input.kind
    ensures r.featuresCsv == ToCsv(input.features)
    ensures r.name == input.name && r.pricePerMonth == input.pricePerMonth
    ensures r.currency == input.currency && r.isActive == input.isActive
  {
    PlanPayload(if Present(input.id) then input.id else None, input.name, input.pricePerMonth, input.currency,
                ToCsv(input.features), input.isActive, if Present(input.kind) then input.kind else None)
  }

  /** `updateAdminPlan`'s body: never an id (that goes in the path), the type
      only when it is non-empty, the features as CSV. */
  function UpdatePayload(input: PlanInput): (r: PlanPayload)
    ensures r.id.None?
    ensures r.kind.Some? <==> Present(input.kind)
    ensures r.kind.Some? ==> r.kind == input.kind
    ensures r.featuresCsv == ToCsv(input.features)
    ensures r.name == input.name && r.pricePerMonth == input.pricePerMonth
    ensures r.currency == input.currency && r.isActive == input.isActive
  {
    PlanPayload(None, input.name, input.pricePerMonth, input.currency, ToCsv(input.features), input.isActive,
                if Present(input.kind) then input.kind else None)
  }

  /** The two bodies differ in the id alone. */
  lemma PayloadsAgreeButId(input: PlanInput)
    ensures UpdatePayload(input) == UpsertPayload(input).(id := None)
  {
  }
}
