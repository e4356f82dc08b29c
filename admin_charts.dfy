/** The admin charts: the revenue of the last months, the spread of plans
    and the reports by reason, each a `Map` filled in a `forEach` loop. A
    JavaScript `Map` keeps its keys in insertion order, so it is a sequence
    of entries here. Numbers are `real`: exact, without `toFixed(2)`. */
module AdminCharts {
  import opened Base
  import opened Lex
  import opened DashboardAdmin

  datatype Entry = Entry(key: string, value: real)

  // ---------------------------------------------------------------------------
  // an insertion-ordered map

  /** The position of the entry for `k`, or -1. */
  function KeyIndex(es: seq<Entry>, k: string): (r: int)
    ensures -1 <= r < |es|
    ensures r >= 0 ==> es[r].key == k
    ensures r < 0 <==> forall j :: 0 <= j < |es| ==> es[j].key != k
  {
    if |es| == 0 then -1
    else if es[0].key == k then 0
    else
      var i := KeyIndex(es[1..], k);
      assert forall j :: 1 <= j < |es| ==> es[j] == es[1..][j - 1];
      if i < 0 then -1 else i + 1
  }

  /** `map.get(k)` */
  function MapGet(es: seq<Entry>, k: string): (r: Option<real>)
    ensures r.Some? <==> exists j :: 0 <= j < |es| && es[j].key == k
  {
    var i := KeyIndex(es, k);
    if i >= 0 then Some(es[i].value) else None
  }

  /** `map.set(k, v)`: an existing key keeps its place, a new one goes last. */
  function MapSet(es: seq<Entry>, k: string, v: real): (r: seq<Entry>)
    ensures KeyIndex(es, k) >= 0 ==> r == es[KeyIndex(es, k) := Entry(k, v)]
    ensures KeyIndex(es, k) < 0 ==> r == es + [Entry(k, v)]
  {
    var i := KeyIndex(es, k);
    if i >= 0 then es[i := Entry(k, v)] else es + [Entry(k, v)]
  }

  /** The map after `forEach(([k, a]) => map.set(k, (map.get(k) ?? 0) + a))`. */
  function Accumulated(items: seq<(string, real)>): seq<Entry>
  {
    if |items| == 0 then []
    else
      var es := Accumulated(items[..|items| - 1]);
      var k := items[|items| - 1].0;
      MapSet(es, k, MapGet(es, k).GetOr(0.0) + items[|items| - 1].1)
  }

  /** The `forEach` loop that fills the map. */
  method Accumulate(items: seq<(string, real)>) returns (es: seq<Entry>)
    ensures es == Accumulated(items)
  {
    es := [];
    var i := 0;
    while i < |items|
      invariant 0 <= i <= |items|
      invariant es == Accumulated(items[..i])
    {
      var k := items[i].0;
      es := MapSet(es, k, MapGet(es, k).GetOr(0.0) + items[i].1);
      assert items[..i + 1][..i] == items[..i];
      i := i + 1;
    }
    assert items[..|items|] == items;
  }

  function ItemKeys(items: seq<(string, real)>): (r: seq<string>)
    ensures |r| == |items|
    ensures forall i :: 0 <= i < |items| ==> r[i] == items[i].0
  {
    seq(|items|, i requires 0 <= i < |items| => items[i].0)
  }

  /** The sum of the amounts filed under `k`. */
  function SumFor(items: seq<(string, real)>, k: string): real
  {
    if |items| == 0 then 0.0
    else SumFor(items[..|items| - 1], k) + (if items[|items| - 1].0 == k then items[|items| - 1].1 else 0.0)
  }

  function Total(items: seq<(string, real)>): real
  {
    if |items| == 0 then 0.0 else Total(items[..|items| - 1]) + items[|items| - 1].1
  }

  function SumValues(es: seq<Entry>): real
  {
    if |es| == 0 then 0.0 else SumValues(es[..|es| - 1]) + es[|es| - 1].value
  }

  predicate DistinctKeys(es: seq<Entry>)
  {
    forall i, j :: 0 <= i < j < |es| ==> es[i].key != es[j].key
  }

  /** The map has one entry per key of `ks`, and no other. */
  predicate Covers(es: seq<Entry>, ks: seq<string>)
  {
    DistinctKeys(es) &&
    (forall j :: 0 <= j < |es| ==> es[j].key in ks) &&
    (forall t :: 0 <= t < |ks| ==> MapGet(es, ks[t]).Some?)
  }

  /** One `map.set` keeps one entry per key seen so far, and no other. */
  lemma KeysStep(prev: seq<Entry>, kf: seq<string>, k: string, v: real)
    requires Covers(prev, kf)
    ensures Covers(MapSet(prev, k, v), kf + [k])
  {
    var r := MapSet(prev, k, v);
    var ks := kf + [k];
    var ip := KeyIndex(prev, k);
    assert |r| == |prev| || |r| == |prev| + 1;
    assert forall j :: 0 <= j < |prev| ==> r[j].key == prev[j].key;
    if ip < 0 {
      assert r[|prev|].key == k;
    } else {
      assert r[ip].key == k;
    }
    forall t | 0 <= t < |ks| ensures MapGet(r, ks[t]).Some? {
      if t < |kf| {
        assert ks[t] == kf[t];
        assert MapGet(prev, kf[t]).Some?;
        var j :| 0 <= j < |prev| && prev[j].key == kf[t];
        assert r[j].key == kf[t];
      }
    }
  }

  /** The keys of the items with one more at the end. */
  lemma ItemKeysSnoc(items: seq<(string, real)>)
    requires |items| > 0
    ensures ItemKeys(items) == ItemKeys(items[..|items| - 1]) + [items[|items| - 1].0]
  {
  }

  lemma {:induction false} AccumulatedCovers(items: seq<(string, real)>)
    ensures Covers(Accumulated(items), ItemKeys(items))
  {
    if |items| > 0 {
      var front := items[..|items| - 1];
      var prev := Accumulated(front);
      var k := items[|items| - 1].0;
      var v := MapGet(prev, k).GetOr(0.0) + items[|items| - 1].1;
      assert Accumulated(items) == MapSet(prev, k, v);
      ItemKeysSnoc(items);
      assert Covers(MapSet(prev, k, v), ItemKeys(front) + [k]) by {
        AccumulatedCovers(front);
        KeysStep(prev, ItemKeys(front), k, v);
      }
    }
  }

  /** The map has one entry per key of the items, and no other. */
  lemma AccumulatedKeys(items: seq<(string, real)>)
    ensures DistinctKeys(Accumulated(items))
    ensures forall j :: 0 <= j < |Accumulated(items)| ==> Accumulated(items)[j].key in ItemKeys(items)
    ensures forall i :: 0 <= i < |items| ==> MapGet(Accumulated(items), items[i].0).Some?
  {
    AccumulatedCovers(items);
    forall i | 0 <= i < |items| ensures MapGet(Accumulated(items), items[i].0).Some? {
      assert ItemKeys(items)[i] == items[i].0;
    }
  }

  lemma FirstOccurrenceAppend(s: seq<string>, x: string, y: string)
    requires x in s
    ensures FirstIndex(s + [y], x) == FirstIndex(s, x)
  {
    var t := s + [y];
    var i := FirstIndex(s, x);
    assert t[..i] == s[..i];
    FirstIndexUnique(t, x, i);
  }

  /** A position holding `x` with no `x` before it is the first one. */
  lemma {:induction false} FirstIndexUnique(s: seq<string>, x: string, i: int)
    requires 0 <= i < |s| && s[i] == x && x !in s[..i]
    ensures x in s && FirstIndex(s, x) == i
  {
    if i > 0 {
      assert s[..i][0] == s[0];
      assert s[1..][..i - 1] == s[..i][1..];
      FirstIndexUnique(s[1..], x, i - 1);
    }
  }

  /** The position of the first `x` in `s`. */
  function FirstIndex(s: seq<string>, x: string): (r: int)
    requires x in s
    ensures 0 <= r < |s| && s[r] == x && x !in s[..r]
  {
    if s[0] == x then 0
    else
      var i := FirstIndex(s[1..], x);
      assert s[..i + 1] == [s[0]] + s[1..][..i];
      i + 1
  }

  /** Every key of `es` is in `ks`, and the keys of `es` are in the order of
      their first position in `ks`. */
  predicate InFirstOrder(es: seq<Entry>, ks: seq<string>)
  {
    (forall j :: 0 <= j < |es| ==> es[j].key in ks) &&
    forall i, j :: 0 <= i < j < |es| ==> FirstIndex(ks, es[i].key) < FirstIndex(ks, es[j].key)
  }

  /** One `map.set` keeps the keys in first-occurrence order. */
  lemma OrderStep(prev: seq<Entry>, kf: seq<string>, k: string, v: real)
    requires InFirstOrder(prev, kf)
    requires KeyIndex(prev, k) < 0 ==> k !in kf
    ensures InFirstOrder(MapSet(prev, k, v), kf + [k])
  {
    var r := MapSet(prev, k, v);
    var ks := kf + [k];
    assert |r| == |prev| || |r| == |prev| + 1;
    forall j | 0 <= j < |prev|
      ensures r[j].key == prev[j].key && r[j].key in ks && FirstIndex(ks, r[j].key) == FirstIndex(kf, prev[j].key)
    {
      FirstOccurrenceAppend(kf, prev[j].key, k);
    }
    if |r| > |prev| {
      assert ks[..|kf|] == kf;
      FirstIndexUnique(ks, k, |kf|);
      assert r[|prev|].key == k;
    }
    forall i, j | 0 <= i < j < |r| ensures FirstIndex(ks, r[i].key) < FirstIndex(ks, r[j].key) {
      if j < |prev| {
        assert FirstIndex(kf, prev[i].key) < FirstIndex(kf, prev[j].key);
      } else {
        assert FirstIndex(kf, prev[i].key) < |kf|;
      }
    }
  }

  /** The keys are in the order of their first item. */
  lemma {:induction false} AccumulatedOrder(items: seq<(string, real)>)
    ensures InFirstOrder(Accumulated(items), ItemKeys(items))
  {
    if |items| > 0 {
      var front := items[..|items| - 1];
      var prev := Accumulated(front);
      var k := items[|items| - 1].0;
      var v := MapGet(prev, k).GetOr(0.0) + items[|items| - 1].1;
      var kf := ItemKeys(front);
      assert Accumulated(items) == MapSet(prev, k, v);
      ItemKeysSnoc(items);
      assert InFirstOrder(MapSet(prev, k, v), kf + [k]) by {
        AccumulatedOrder(front);
        AccumulatedCovers(front);
        if KeyIndex(prev, k) < 0 {
          forall t | 0 <= t < |kf| ensures kf[t] != k {
            assert MapGet(prev, kf[t]).Some?;
          }
        }
        OrderStep(prev, kf, k, v);
      }
    }
  }

  /** Each entry holds the sum of the amounts filed under its key. */
  lemma {:induction false} AccumulatedValues(items: seq<(string, real)>)
    ensures forall j :: 0 <= j < |Accumulated(items)| ==>
      Accumulated(items)[j].value == SumFor(items, Accumulated(items)[j].key)
  {
    if |items| > 0 {
      var front := items[..|items| - 1];
      var prev := Accumulated(front);
      var k := items[|items| - 1].0;
      var r := Accumulated(items);
      AccumulatedValues(front);
      AccumulatedKeys(front);
      if KeyIndex(prev, k) < 0 {
        SumForAbsent(front, k);
      }
      forall j | 0 <= j < |r| ensures r[j].value == SumFor(items, r[j].key) {
        if j < |prev| && r[j].key != k {
          assert r[j] == prev[j];
        }
      }
    }
  }

  /** A key no item has sums to 0; with the keys of the map, no key of an
      item is missing from it. */
  lemma {:induction false} SumForAbsent(items: seq<(string, real)>, k: string)
    requires forall i :: 0 <= i < |items| ==> MapGet(Accumulated(items), items[i].0).Some?
    requires KeyIndex(Accumulated(items), k) < 0
    ensures SumFor(items, k) == 0.0
  {
    assert forall i :: 0 <= i < |items| ==> items[i].0 != k;
    SumForNone(items, k);
  }

  lemma {:induction false} SumForNone(items: seq<(string, real)>, k: string)
    requires forall i :: 0 <= i < |items| ==> items[i].0 != k
    ensures SumFor(items, k) == 0.0
  {
    if |items| > 0 {
      var front := items[..|items| - 1];
      assert forall i :: 0 <= i < |front| ==> front[i] == items[i];
      SumForNone(front, k);
    }
  }

  lemma {:induction false} SumValuesUpdate(es: seq<Entry>, i: int, e: Entry)
    requires 0 <= i < |es|
    ensures SumValues(es[i := e]) == SumValues(es) - es[i].value + e.value
    decreases |es|
  {
    var u := es[i := e];
    if i < |es| - 1 {
      SumValuesUpdate(es[..|es| - 1], i, e);
      assert u[..|u| - 1] == es[..|es| - 1][i := e];
    } else {
      assert u[..|u| - 1] == es[..|es| - 1];
    }
  }

  /** The values of the map add up to the amounts of all the items. */
  lemma {:induction false} AccumulatedTotal(items: seq<(string, real)>)
    ensures SumValues(Accumulated(items)) == Total(items)
  {
    if |items| > 0 {
      var front := items[..|items| - 1];
      var prev := Accumulated(front);
      var k := items[|items| - 1].0;
      var a := items[|items| - 1].1;
      var v := MapGet(prev, k).GetOr(0.0) + a;
      assert Accumulated(items) == MapSet(prev, k, v);
      assert Total(items) == Total(front) + a;
      assert SumValues(MapSet(prev, k, v)) == SumValues(prev) + a by {
        var i := KeyIndex(prev, k);
        if i >= 0 {
          SumValuesUpdate(prev, i, Entry(k, v));
        } else {
          assert (prev + [Entry(k, v)])[..|prev|] == prev;
        }
      }
      AccumulatedTotal(front);
    }
  }

  // ---------------------------------------------------------------------------
  // counting

  /** Each key counted once. */
  function Ones(keys: seq<string>): (r: seq<(string, real)>)
    ensures |r| == |keys|
    ensures forall i :: 0 <= i < |keys| ==> r[i] == (keys[i], 1.0)
  {
    seq(|keys|, i requires 0 <= i < |keys| => (keys[i], 1.0))
  }

  /** Counting: the sum under a key is how often the key occurs, and the
      total is the number of keys. */
  lemma {:induction false} OnesCount(keys: seq<string>, k: string)
    ensures SumFor(Ones(keys), k) == multiset(keys)[k] as real
    ensures Total(Ones(keys)) == |keys| as real
    ensures ItemKeys(Ones(keys)) == keys
  {
    if |keys| > 0 {
      var front := keys[..|keys| - 1];
      assert Ones(keys)[..|keys| - 1] == Ones(front);
      OnesCount(front, k);
      assert keys == front + [keys[|keys| - 1]];
    }
  }

  // ---------------------------------------------------------------------------
  // the charts

  datatype Series = Series(categories: seq<string>, data: seq<real>)

  function PlansOf(subs: seq<AdminSubscription>): (r: seq<string>)
    ensures |r| == |subs|
    ensures forall i :: 0 <= i < |subs| ==> r[i] == subs[i].plan
  {
    seq(|subs|, i requires 0 <= i < |subs| => subs[i].plan)
  }

  /** `planDistribution`: one (name, value) per plan. */
  function PlanDistribution(subs: seq<AdminSubscription>): seq<Entry>
  {
    Accumulated(Ones(PlansOf(subs)))
  }

  /** One entry per distinct plan, in the order the plans first occur, each
      with the number of subscriptions to it; the values add up to the
      number of subscriptions. */
  lemma PlanDistributionFacts(subs: seq<AdminSubscription>)
    ensures DistinctKeys(PlanDistribution(subs))
    ensures forall i :: 0 <= i < |subs| ==>
      exists j :: 0 <= j < |PlanDistribution(subs)| && PlanDistribution(subs)[j].key == subs[i].plan
    ensures forall j :: 0 <= j < |PlanDistribution(subs)| ==>
      PlanDistribution(subs)[j].value == multiset(PlansOf(subs))[PlanDistribution(subs)[j].key] as real
    ensures InFirstOrder(PlanDistribution(subs), PlansOf(subs))
    ensures SumValues(PlanDistribution(subs)) == |subs| as real
  {
    var items := Ones(PlansOf(subs));
    var r := Accumulated(items);
    OnesCount(PlansOf(subs), "");
    AccumulatedKeys(items);
    AccumulatedOrder(items);
    AccumulatedValues(items);
    AccumulatedTotal(items);
    forall j | 0 <= j < |r| ensures r[j].value == multiset(PlansOf(subs))[r[j].key] as real {
      OnesCount(PlansOf(subs), r[j].key);
    }
    forall i | 0 <= i < |subs| ensures exists j :: 0 <= j < |r| && r[j].key == subs[i].plan {
      assert items[i].0 == subs[i].plan;
    }
  }

  const Other := "Other"

  function ReasonsOf(reports: seq<AdminReport>): (r: seq<string>)
    ensures |r| == |reports|
    ensures forall i :: 0 <= i < |reports| ==> r[i] == reports[i].reason.GetOr(Other)
  {
    seq(|reports|, i requires 0 <= i < |reports| => reports[i].reason.GetOr(Other))
  }

  function KeysOf(es: seq<Entry>): (r: seq<string>)
    ensures |r| == |es|
    ensures forall i :: 0 <= i < |es| ==> r[i] == es[i].key
  {
    seq(|es|, i requires 0 <= i < |es| => es[i].key)
  }

  function ValuesOf(es: seq<Entry>): (r: seq<real>)
    ensures |r| == |es|
    ensures forall i :: 0 <= i < |es| ==> r[i] == es[i].value
  {
    seq(|es|, i requires 0 <= i < |es| => es[i].value)
  }

  /** `reportsByReason`: the reasons as categories, the counts as data. */
  function ReportsByReason(reports: seq<AdminReport>): Series
  {
    var es := Accumulated(Ones(ReasonsOf(reports)));
    Series(KeysOf(es), ValuesOf(es))
  }

  function Sum(xs: seq<real>): real
  {
    if |xs| == 0 then 0.0 else Sum(xs[..|xs| - 1]) + xs[|xs| - 1]
  }

  lemma {:induction false} SumOfValues(es: seq<Entry>)
    ensures Sum(ValuesOf(es)) == SumValues(es)
  {
    if |es| > 0 {
      assert ValuesOf(es)[..|es| - 1] == ValuesOf(es[..|es| - 1]);
      SumOfValues(es[..|es| - 1]);
    }
  }

  /** Categories and data have the same length and the data adds up to the
      number of reports; a report without a reason is counted under "Other". */
  lemma ReportsByReasonFacts(reports: seq<AdminReport>)
    ensures |ReportsByReason(reports).categories| == |ReportsByReason(reports).data|
    ensures Sum(ReportsByReason(reports).data) == |reports| as real
    ensures forall i :: 0 <= i < |reports| && reports[i].reason.None? ==> Other in ReportsByReason(reports).categories
    ensures forall k :: 0 <= k < |ReportsByReason(reports).categories| ==>
      ReportsByReason(reports).data[k] == multiset(ReasonsOf(reports))[ReportsByReason(reports).categories[k]] as real
  {
    var items := Ones(ReasonsOf(reports));
    var es := Accumulated(items);
    OnesCount(ReasonsOf(reports), "");
    AccumulatedKeys(items);
    AccumulatedValues(items);
    AccumulatedTotal(items);
    SumOfValues(es);
    forall i | 0 <= i < |reports| && reports[i].reason.None? ensures Other in KeysOf(es) {
      assert items[i].0 == Other;
      var t :| 0 <= t < |es| && es[t].key == Other;
      assert KeysOf(es)[t] == Other;
    }
    forall k | 0 <= k < |es| ensures es[k].value == multiset(ReasonsOf(reports))[es[k].key] as real {
      OnesCount(ReasonsOf(reports), es[k].key);
    }
  }

  // ---------------------------------------------------------------------------
  // revenue by month

  const Paid := "PAID"
  const Usd := "USD"

  /** Only paid payments in dollars count towards revenue. */
  predicate Counted(p: AdminPayment)
  {
    p.status == Paid && p.currency == Usd
  }

  function CountedPayments(payments: seq<AdminPayment>): (r: seq<AdminPayment>)
    ensures forall p :: p in r <==> p in payments && Counted(p)
  {
    Filter(payments, (p: AdminPayment) => Counted(p))
  }

  /** `date.slice(0, 7)`: the "YYYY-MM" of an ISO date. */
  function MonthKey(date: string): (r: string)
    ensures |date| >= 7 ==> r == date[..7]
    ensures |date| < 7 ==> r == date
  {
    if |date| >= 7 then date[..7] else date
  }

  /** The (month, amount) of each counted payment, in order. */
  function RevenueItems(payments: seq<AdminPayment>): (r: seq<(string, real)>)
    ensures |r| == |CountedPayments(payments)|
    ensures forall i :: 0 <= i < |r| ==>
      r[i] == (MonthKey(CountedPayments(payments)[i].date), CountedPayments(payments)[i].amount)
  {
    var c := CountedPayments(payments);
    seq(|c|, i requires 0 <= i < |c| => (MonthKey(c[i].date), c[i].amount))
  }

  predicate StrictlyAscending(s: seq<string>)
  {
    forall i, j :: 0 <= i < j < |s| ==> StrLt(s[i], s[j])
  }

  /** Puts `x` before the first string above it. */
  function InsertAsc(x: string, s: seq<string>): seq<string>
  {
    if |s| == 0 then [x]
    else if StrLe(x, s[0]) then [x] + s
    else [s[0]] + InsertAsc(x, s[1..])
  }

  /** `.sort()` of strings: ascending. */
  function SortAsc(s: seq<string>): seq<string>
  {
    if |s| == 0 then [] else InsertAsc(s[0], SortAsc(s[1..]))
  }

  lemma {:induction false} InsertAscCounts(x: string, s: seq<string>)
    ensures multiset(InsertAsc(x, s)) == multiset(s) + multiset{x}
  {
    if |s| > 0 && !StrLe(x, s[0]) {
      InsertAscCounts(x, s[1..]);
      assert s == [s[0]] + s[1..];
    }
  }

  lemma StrLtTransitive(a: string, b: string, c: string)
    requires StrLt(a, b) && StrLt(b, c)
    ensures StrLt(a, c)
  {
    StrLeTransitive(a, b, c);
    if a == c { StrLeAntisymmetric(a, b); }
  }

  /** A string below all of a strictly ascending list can go in front. */
  lemma ConsAscending(y: string, rest: seq<string>)
    requires StrictlyAscending(rest)
    requires forall z :: z in rest ==> StrLt(y, z)
    ensures StrictlyAscending([y] + rest)
  {
    var r := [y] + rest;
    forall i, j | 0 <= i < j < |r| ensures StrLt(r[i], r[j]) {
      assert r[j] == rest[j - 1];
      if i > 0 { assert r[i] == rest[i - 1]; }
    }
  }

  lemma {:induction false} InsertAscStrict(x: string, s: seq<string>)
    requires StrictlyAscending(s) && x !in s
    ensures StrictlyAscending(InsertAsc(x, s))
  {
    if |s| == 0 {
    } else if StrLe(x, s[0]) {
      forall z | z in s ensures StrLt(x, z) {
        var j :| 0 <= j < |s| && s[j] == z;
        if j > 0 { StrLtTransitive(x, s[0], s[j]); }
      }
      ConsAscending(x, s);
    } else {
      StrLeTotal(x, s[0]);
      var tail := s[1..];
      assert StrictlyAscending(tail) by {
        forall i, j | 0 <= i < j < |tail| ensures StrLt(tail[i], tail[j]) {
          assert tail[i] == s[i + 1] && tail[j] == s[j + 1];
        }
      }
      assert x !in tail;
      InsertAscStrict(x, tail);
      var rest := InsertAsc(x, tail);
      InsertAscCounts(x, tail);
      forall z | z in rest ensures StrLt(s[0], z) {
        assert z in multiset(rest);
        if z != x {
          assert z in tail;
          var j :| 0 <= j < |tail| && tail[j] == z;
          assert s[j + 1] == z;
        }
      }
      ConsAscending(s[0], rest);
    }
  }

  predicate Distinct(s: seq<string>)
  {
    forall i, j :: 0 <= i < j < |s| ==> s[i] != s[j]
  }

  /** Distinct strings sort into a strictly ascending list of the same
      strings. */
  lemma {:induction false} SortAscSorts(s: seq<string>)
    requires Distinct(s)
    ensures StrictlyAscending(SortAsc(s))
    ensures multiset(SortAsc(s)) == multiset(s)
  {
    if |s| > 0 {
      var tail := s[1..];
      assert Distinct(tail) by {
        forall i, j | 0 <= i < j < |tail| ensures tail[i] != tail[j] {
          assert tail[i] == s[i + 1] && tail[j] == s[j + 1];
        }
      }
      SortAscSorts(tail);
      assert s == [s[0]] + tail;
      assert s[0] !in tail by {
        forall j | 0 <= j < |tail| ensures tail[j] != s[0] { assert tail[j] == s[j + 1]; }
      }
      assert s[0] !in multiset(SortAsc(tail));
      InsertAscStrict(s[0], SortAsc(tail));
      InsertAscCounts(s[0], SortAsc(tail));
    }
  }

  /** `.slice(-6)` */
  function LastSix(s: seq<string>): (r: seq<string>)
    ensures |r| <= 6
    ensures |s| <= 6 ==> r == s
    ensures |s| > 6 ==> r == s[|s| - 6..]
  {
    if |s| <= 6 then s else s[|s| - 6..]
  }

  /** The last six of a strictly ascending list are strictly ascending, and
      every string left out is below all of them. */
  lemma LastSixFacts(s: seq<string>)
    requires StrictlyAscending(s)
    ensures StrictlyAscending(LastSix(s))
    ensures forall c :: c in LastSix(s) ==> c in s
    ensures forall m :: m in s ==> m in LastSix(s) || (|LastSix(s)| == 6 && forall c :: c in LastSix(s) ==> StrLt(m, c))
  {
    var r := LastSix(s);
    if |s| > 6 {
      var d := |s| - 6;
      forall i, j | 0 <= i < j < |r| ensures StrLt(r[i], r[j]) {
        assert r[i] == s[d + i] && r[j] == s[d + j];
      }
      forall m | m in s ensures m in r || forall c :: c in r ==> StrLt(m, c) {
        var q :| 0 <= q < |s| && s[q] == m;
        if q >= d {
          assert r[q - d] == m;
        } else {
          forall c | c in r ensures StrLt(m, c) {
            var t :| 0 <= t < |r| && r[t] == c;
            assert s[d + t] == c;
          }
        }
      }
    }
  }

  /** The map of counted revenue per month. */
  function RevenueMap(payments: seq<AdminPayment>): seq<Entry>
  {
    Accumulated(RevenueItems(payments))
  }

  /** `Array.from(map.keys()).sort().slice(-6)` */
  function RevenueMonths(payments: seq<AdminPayment>): seq<string>
  {
    LastSix(SortAsc(KeysOf(RevenueMap(payments))))
  }

  /** `revenueByMonth`: the last six months, ascending, and the revenue of
      each. */
  function RevenueByMonth(payments: seq<AdminPayment>): Series
  {
    var es := RevenueMap(payments);
    var months := RevenueMonths(payments);
    Series(months, seq(|months|, i requires 0 <= i < |months| => MapGet(es, months[i]).GetOr(0.0)))
  }

  /** The months of the map are the months of the counted payments. */
  lemma RevenueKeys(payments: seq<AdminPayment>)
    ensures forall c :: c in KeysOf(RevenueMap(payments)) <==>
      exists p :: p in payments && Counted(p) && MonthKey(p.date) == c
    ensures Distinct(KeysOf(RevenueMap(payments)))
  {
    var items := RevenueItems(payments);
    var es := Accumulated(items);
    var cp := CountedPayments(payments);
    AccumulatedKeys(items);
    forall c | c in KeysOf(es) ensures exists p :: p in payments && Counted(p) && MonthKey(p.date) == c {
      var j :| 0 <= j < |es| && KeysOf(es)[j] == c;
      assert es[j].key in ItemKeys(items);
      var t :| 0 <= t < |items| && ItemKeys(items)[t] == c;
      assert cp[t] in cp;
    }
    forall p | p in payments && Counted(p) ensures MonthKey(p.date) in KeysOf(es) {
      assert p in cp;
      var t :| 0 <= t < |cp| && cp[t] == p;
      assert MapGet(es, items[t].0).Some?;
      var j :| 0 <= j < |es| && es[j].key == MonthKey(p.date);
      assert KeysOf(es)[j] == MonthKey(p.date);
    }
  }

  /** The months shown are at most six, strictly ascending, each the month of
      a counted payment, and a counted month left out is before all of them. */
  lemma RevenueMonthsFacts(payments: seq<AdminPayment>)
    ensures |RevenueMonths(payments)| <= 6
    ensures StrictlyAscending(RevenueMonths(payments))
    ensures forall c :: c in RevenueMonths(payments) ==> c in KeysOf(RevenueMap(payments))
    ensures forall p :: p in payments && Counted(p) ==>
      MonthKey(p.date) in RevenueMonths(payments) ||
      (|RevenueMonths(payments)| == 6 && forall c :: c in RevenueMonths(payments) ==> StrLt(MonthKey(p.date), c))
  {
    var ks := KeysOf(RevenueMap(payments));
    var sorted := SortAsc(ks);
    RevenueKeys(payments);
    SortAscSorts(ks);
    LastSixFacts(sorted);
    forall c ensures c in sorted <==> c in ks {
      assert c in sorted <==> c in multiset(sorted);
      assert c in ks <==> c in multiset(ks);
    }
  }

  /** Each datum is the sum of the counted amounts of its month. */
  lemma RevenueDataFacts(payments: seq<AdminPayment>)
    ensures |RevenueByMonth(payments).data| == |RevenueMonths(payments)|
    ensures forall k :: 0 <= k < |RevenueMonths(payments)| ==>
      RevenueByMonth(payments).data[k] == SumFor(RevenueItems(payments), RevenueMonths(payments)[k])
  {
    var es := RevenueMap(payments);
    var months := RevenueMonths(payments);
    RevenueMonthsFacts(payments);
    AccumulatedValues(RevenueItems(payments));
    forall k | 0 <= k < |months|
      ensures RevenueByMonth(payments).data[k] == SumFor(RevenueItems(payments), months[k])
    {
      var m := months[k];
      assert m in months;
      var j :| 0 <= j < |es| && KeysOf(es)[j] == m;
      assert MapGet(es, m) == Some(es[KeyIndex(es, m)].value);
    }
  }

  /** Categories and data have the same length; the categories are at most six
      months, strictly ascending, each the month of some counted payment; a
      counted month left out is before every month shown; and each datum is
      the sum of the counted amounts of its month. */
  lemma RevenueByMonthFacts(payments: seq<AdminPayment>)
    ensures |RevenueByMonth(payments).categories| == |RevenueByMonth(payments).data| <= 6
    ensures StrictlyAscending(RevenueByMonth(payments).categories)
    ensures forall c :: c in RevenueByMonth(payments).categories ==>
      exists p :: p in payments && Counted(p) && MonthKey(p.date) == c
    ensures forall p :: p in payments && Counted(p) ==>
      MonthKey(p.date) in RevenueByMonth(payments).categories ||
      (|RevenueByMonth(payments).categories| == 6 &&
       forall c :: c in RevenueByMonth(payments).categories ==> StrLt(MonthKey(p.date), c))
    ensures forall k :: 0 <= k < |RevenueByMonth(payments).data| ==>
      RevenueByMonth(payments).data[k] == SumFor(RevenueItems(payments), RevenueByMonth(payments).categories[k])
  {
    RevenueMonthsFacts(payments);
    RevenueDataFacts(payments);
    RevenueKeys(payments);
    assert RevenueByMonth(payments).categories == RevenueMonths(payments);
  }

  /** A payment that is not paid in dollars does not move the chart. */
  lemma RevenueIgnoresUncounted(payments: seq<AdminPayment>, p: AdminPayment)
    requires !Counted(p)
    ensures RevenueByMonth(payments + [p]) == RevenueByMonth(payments)
  {
    FilterAppend(payments, [p], (x: AdminPayment) => Counted(x));
    assert CountedPayments(payments + [p]) == CountedPayments(payments);
  }

  /** `newUsersByMonth` is left empty. */
  function NewUsersByMonth(): (r: Series)
    ensures |r.categories| == 0 && |r.data| == 0
  {
    Series([], [])
  }
}
