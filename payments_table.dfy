/** The admin payments table: a copy of the fetched payments sorted by date,
    newest first. `localeCompare` on the ISO date strings is taken as the
    plain lexicographic order. */
module PaymentsTable {
  import opened Lex
  import opened DashboardAdmin

  /** No payment comes before one with a later date. */
  predicate NewestFirst(s: seq<AdminPayment>)
  {
    forall i, j :: 0 <= i < j < |s| ==> StrLe(s[j].date, s[i].date)
  }

  /** Puts `x` before the first payment that is not later than it. */
  function Insert(x: AdminPayment, s: seq<AdminPayment>): seq<AdminPayment>
  {
    if |s| == 0 then [x]
    else if StrLe(s[0].date, x.date) then [x] + s
    else [s[0]] + Insert(x, s[1..])
  }

  /** `data.slice().sort((a, b) => b.date.localeCompare(a.date))` */
  function SortByDateDesc(data: seq<AdminPayment>): seq<AdminPayment>
  {
    if |data| == 0 then [] else Insert(data[0], SortByDateDesc(data[1..]))
  }

  lemma {:induction false} InsertCounts(x: AdminPayment, s: seq<AdminPayment>)
    ensures multiset(Insert(x, s)) == multiset(s) + multiset{x}
  {
    if |s| > 0 && !StrLe(s[0].date, x.date) {
      InsertCounts(x, s[1..]);
      assert s == [s[0]] + s[1..];
    }
  }

  lemma TailNewestFirst(s: seq<AdminPayment>)
    requires |s| > 0 && NewestFirst(s)
    ensures NewestFirst(s[1..])
  {
    var tail := s[1..];
    forall i, j | 0 <= i < j < |tail| ensures StrLe(tail[j].date, tail[i].date) {
      assert tail[j] == s[j + 1] && tail[i] == s[i + 1];
    }
  }

  /** A payment no earlier than all of a sorted list can go in front. */
  lemma ConsNewestFirst(y: AdminPayment, rest: seq<AdminPayment>)
    requires NewestFirst(rest)
    requires forall z :: z in rest ==> StrLe(z.date, y.date)
    ensures NewestFirst([y] + rest)
  {
    var r := [y] + rest;
    forall i, j | 0 <= i < j < |r| ensures StrLe(r[j].date, r[i].date) {
      assert r[j] == rest[j - 1];
      if i > 0 { assert r[i] == rest[i - 1]; }
    }
  }

  lemma {:induction false} InsertKeepsOrder(x: AdminPayment, s: seq<AdminPayment>)
    requires NewestFirst(s)
    ensures NewestFirst(Insert(x, s))
  {
    if |s| == 0 {
    } else if StrLe(s[0].date, x.date) {
      forall z | z in s ensures StrLe(z.date, x.date) {
        var j :| 0 <= j < |s| && s[j] == z;
        if j > 0 { StrLeTransitive(s[j].date, s[0].date, x.date); }
      }
      ConsNewestFirst(x, s);
    } else {
      StrLeTotal(s[0].date, x.date);
      TailNewestFirst(s);
      InsertKeepsOrder(x, s[1..]);
      var rest := Insert(x, s[1..]);
      InsertCounts(x, s[1..]);
      forall z | z in rest ensures StrLe(z.date, s[0].date) {
        assert z in multiset(rest);
        if z != x {
          assert z in s[1..];
          var j :| 0 <= j < |s[1..]| && s[1..][j] == z;
          assert s[j + 1] == z;
        }
      }
      ConsNewestFirst(s[0], rest);
    }
  }

  /** The sorted copy holds the fetched payments, each as often as fetched,
      newest first. */
  lemma {:induction false} SortByDateDescSorts(data: seq<AdminPayment>)
    ensures NewestFirst(SortByDateDesc(data))
    ensures multiset(SortByDateDesc(data)) == multiset(data)
    ensures |SortByDateDesc(data)| == |data|
  {
    if |data| > 0 {
      SortByDateDescSorts(data[1..]);
      InsertKeepsOrder(data[0], SortByDateDesc(data[1..]));
      InsertCounts(data[0], SortByDateDesc(data[1..]));
      assert data == [data[0]] + data[1..];
    }
    assert |SortByDateDesc(data)| == |multiset(SortByDateDesc(data))|;
  }

  /** Payments already newest first keep their order. */
  lemma {:induction false} SortedStaysPut(data: seq<AdminPayment>)
    requires NewestFirst(data)
    ensures SortByDateDesc(data) == data
  {
    if |data| > 0 {
      var tail := data[1..];
      TailNewestFirst(data);
      SortedStaysPut(tail);
      if |tail| > 0 {
        assert StrLe(tail[0].date, data[0].date);
      }
      assert data == [data[0]] + tail;
    }
  }

  datatype PaymentsView = PaymentsView(rows: seq<AdminPayment>, loading: bool)

  const Initial := PaymentsView([], true)

  /** The view once the payments arrive: the sorted copy, loading cleared.
      The fetched list is a value, so it is left as it was. */
  function Loaded(data: seq<AdminPayment>): (v: PaymentsView)
    ensures !v.loading
    ensures NewestFirst(v.rows)
    ensures multiset(v.rows) == multiset(data) && |v.rows| == |data|
  {
    SortByDateDescSorts(data);
    PaymentsView(SortByDateDesc(data), false)
  }
}
