/** The admin reports table: the fetched reports and the actions that mark
    one resolved or dismissed once the server has answered. */
module ReportsTable {
  import opened Base
  import opened DashboardAdmin

  /** The statuses `setAdminReportStatus` accepts. */
  datatype ReportStatus = Open | Resolved | Dismissed

  function StatusText(s: ReportStatus): (r: string)
    ensures r in {"open", "resolved", "dismissed"}
    ensures (r == "open") == (s == Open) && (r == "resolved") == (s == Resolved)
  {
    match s
    case Open => "open"
    case Resolved => "resolved"
    case Dismissed => "dismissed"
  }

  /** `prev.map(r => r.id === id ? { ...r, status } : r)` */
  function WithStatus(rows: seq<AdminReport>, id: string, status: string): (r: seq<AdminReport>)
    ensures |r| == |rows|
    ensures forall k :: 0 <= k < |rows| && rows[k].id == id ==> r[k] == rows[k].(status := status)
    ensures forall k :: 0 <= k < |rows| && rows[k].id != id ==> r[k] == rows[k]
  {
    if |rows| == 0 then []
    else [if rows[0].id == id then rows[0].(status := status) else rows[0]] + WithStatus(rows[1..], id, status)
  }

  /** Setting the same status twice is setting it once. */
  lemma {:induction false} WithStatusIdempotent(rows: seq<AdminReport>, id: string, status: string)
    ensures WithStatus(WithStatus(rows, id, status), id, status) == WithStatus(rows, id, status)
  {
    var once := WithStatus(rows, id, status);
    var twice := WithStatus(once, id, status);
    forall k | 0 <= k < |rows| ensures twice[k] == once[k] {
      assert once[k].id == rows[k].id;
    }
  }

  /** Statuses set on different reports do not interfere. */
  lemma {:induction false} WithStatusCommutes(rows: seq<AdminReport>, a: string, sa: string, b: string, sb: string)
    requires a != b
    ensures WithStatus(WithStatus(rows, a, sa), b, sb) == WithStatus(WithStatus(rows, b, sb), a, sa)
  {
    var ab := WithStatus(WithStatus(rows, a, sa), b, sb);
    var ba := WithStatus(WithStatus(rows, b, sb), a, sa);
    forall k | 0 <= k < |rows| ensures ab[k] == ba[k] {
      assert WithStatus(rows, a, sa)[k].id == rows[k].id;
      assert WithStatus(rows, b, sb)[k].id == rows[k].id;
    }
  }

  class Reports {
    var rows: seq<AdminReport>
    var loading: bool
    /** the `setAdminReportStatus` calls, in order */
    var requests: seq<(string, ReportStatus)>

    constructor ()
      ensures rows == [] && loading && requests == []
    {
      rows := [];
      loading := true;
      requests := [];
    }

    /** The initial load: the rows become the fetched reports and loading is
        cleared; a failed fetch leaves the table loading. */
    method Load(data: Net<seq<AdminReport>>)
      modifies this
      ensures data.Ok? ==> rows == data.value && !loading
      ensures data.Fail? ==> rows == old(rows) && loading == old(loading)
      ensures requests == old(requests)
    {
      if data.Ok? {
        rows := data.value;
        loading := false;
      }
    }

    /** `setStatus`: the rows change only once the server has answered. */
    method SetStatus(id: string, status: ReportStatus, reply: Net<AdminReport>)
      modifies this
      ensures requests == old(requests) + [(id, status)]
      ensures reply.Ok? ==> rows == WithStatus(old(rows), id, StatusText(status))
      ensures reply.Fail? ==> rows == old(rows)
      ensures loading == old(loading)
    {
      requests := requests + [(id, status)];
      if reply.Ok? {
        rows := WithStatus(rows, id, StatusText(status));
      }
    }

    /** The Resolve button. */
    method Resolve(id: string, reply: Net<AdminReport>)
      modifies this
      ensures requests == old(requests) + [(id, Resolved)]
      ensures reply.Ok? ==> rows == WithStatus(old(rows), id, "resolved")
      ensures reply.Fail? ==> rows == old(rows)
      ensures loading == old(loading)
    {
      SetStatus(id, Resolved, reply);
    }

    /** The Dismiss button. */
    method Dismiss(id: string, reply: Net<AdminReport>)
      modifies this
      ensures requests == old(requests) + [(id, Dismissed)]
      ensures reply.Ok? ==> rows == WithStatus(old(rows), id, "dismissed")
      ensures reply.Fail? ==> rows == old(rows)
      ensures loading == old(loading)
    {
      SetStatus(id, Dismissed, reply);
    }
  }

  /** The status a button of the table sets. */
  function ButtonStatus(resolve: bool): (r: ReportStatus)
    ensures r != Open
    ensures resolve <==> r == Resolved
  {
    if resolve then Resolved else Dismissed
  }

  /** The rows are the fetched reports with, at most, the status changed to
      "resolved" or "dismissed". */
  predicate OnlyButtonEdits(rows: seq<AdminReport>, data: seq<AdminReport>)
  {
    |rows| == |data| &&
    forall k :: 0 <= k < |data| ==>
      rows[k].(status := data[k].status) == data[k] &&
      (rows[k].status == data[k].status || rows[k].status in {"resolved", "dismissed"})
  }

  /** The invariant holds right after the load and is kept by every button
      press, answered or not: the table never sets a status other than
      "resolved" or "dismissed". */
  lemma ButtonsOnlyResolveOrDismiss(rows: seq<AdminReport>, data: seq<AdminReport>, id: string, resolve: bool)
    requires OnlyButtonEdits(rows, data)
    ensures OnlyButtonEdits(data, data)
    ensures OnlyButtonEdits(WithStatus(rows, id, StatusText(ButtonStatus(resolve))), data)
  {
    var next := WithStatus(rows, id, StatusText(ButtonStatus(resolve)));
    forall k | 0 <= k < |data|
      ensures next[k].(status := data[k].status) == data[k]
    {
      assert next[k].(status := data[k].status) == rows[k].(status := data[k].status);
    }
  }
}
