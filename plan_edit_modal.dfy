/** The plan edit modal: a local copy of the plan that each control edits
    one field at a time, the features shown joined by ", " and read back
    from the comma-separated input, and the body handed to `onSave`. */
module PlanEditModal {
  import opened Base
  import opened DashboardAdmin

  /** The separator the features are shown with. */
  const Shown := ", "

  /** A feature as the input reads it back: non-empty, comma-free and
      trimmed. */
  predicate Tidy(f: string)
  {
    f != "" && Avoids(f, {Comma}) && Trim(f) == f
  }

  /** What the features input is read as: split on ',', trimmed, the empty
      pieces dropped. */
  function ParseFeatures(text: string): (r: seq<string>)
    ensures forall k :: 0 <= k < |r| ==> Tidy(r[k])
  {
    SplitAvoids(text, {Comma});
    CleanItems(Split(text, {Comma}), {Comma});
    Clean(Split(text, {Comma}))
  }

  /** `local.features.join(", ")` */
  function DisplayFeatures(fs: seq<string>): string
  {
    Join(fs, Shown)
  }

  /** A feature after a blank prefix ("" or " ") is free of commas and trims
      to the feature. */
  lemma PrefixedFeature(b: string, f: string)
    requires b == "" || b == " "
    requires Tidy(f)
    ensures Trim(b + f) == f && Avoids(b + f, {Comma})
  {
    if b == " " { TrimLeadingBlank(f); } else { assert b + f == f; }
    forall i | 0 <= i < |b + f| ensures (b + f)[i] !in {Comma} {
      if i >= |b| { assert (b + f)[i] == f[i - |b|]; }
    }
  }

  /** The display of two or more features is the first, a comma, and the
      rest after a blank. */
  lemma DisplayUnfold(b: string, fs: seq<string>)
    requires |fs| >= 2
    ensures b + DisplayFeatures(fs) == (b + fs[0]) + ([Comma] + (" " + DisplayFeatures(fs[1..])))
  {
    assert DisplayFeatures(fs) == fs[0] + Shown + DisplayFeatures(fs[1..]);
  }

  /** Splitting the display of two or more features cuts off the first. */
  lemma PiecesUnfold(b: string, fs: seq<string>)
    requires b == "" || b == " "
    requires |fs| >= 2 && Tidy(fs[0])
    ensures Split(b + DisplayFeatures(fs), {Comma}) == [b + fs[0]] + Split(" " + DisplayFeatures(fs[1..]), {Comma})
  {
    PrefixedFeature(b, fs[0]);
    DisplayUnfold(b, fs);
    SplitPrefix(b + fs[0], " " + DisplayFeatures(fs[1..]), Comma, {Comma});
  }

  lemma TrimAllCons(x: string, ys: seq<string>)
    ensures TrimAll([x] + ys) == [Trim(x)] + TrimAll(ys)
  {
    assert ([x] + ys)[1..] == ys;
  }

  /** The pieces of a blank prefix ("" or " ") followed by the display,
      once trimmed, are the features. */
  lemma {:induction false} TrimmedPieces(b: string, fs: seq<string>)
    requires b == "" || b == " "
    requires |fs| >= 1
    requires forall k :: 0 <= k < |fs| ==> Tidy(fs[k])
    ensures TrimAll(Split(b + DisplayFeatures(fs), {Comma})) == fs
    decreases |fs|
  {
    PrefixedFeature(b, fs[0]);
    if |fs| == 1 {
      assert DisplayFeatures(fs) == fs[0];
      SplitFree(b + fs[0], {Comma});
    } else {
      var tail := Split(" " + DisplayFeatures(fs[1..]), {Comma});
      PiecesUnfold(b, fs);
      assert forall k :: 0 <= k < |fs[1..]| ==> Tidy(fs[1..][k]) by {
        forall k | 0 <= k < |fs[1..]| ensures Tidy(fs[1..][k]) { assert fs[1..][k] == fs[k + 1]; }
      }
      TrimmedPieces(" ", fs[1..]);
      TrimAllCons(b + fs[0], tail);
      calc {
        TrimAll(Split(b + DisplayFeatures(fs), {Comma}));
        TrimAll([b + fs[0]] + tail);
        [Trim(b + fs[0])] + TrimAll(tail);
        [fs[0]] + fs[1..];
        fs;
      }
    }
  }

  /** Features that are trimmed, non-empty and free of commas are read back
      exactly from their display. */
  lemma FeaturesRoundTrip(fs: seq<string>)
    requires forall k :: 0 <= k < |fs| ==> Tidy(fs[k])
    ensures ParseFeatures(DisplayFeatures(fs)) == fs
  {
    if |fs| == 0 {
      assert DisplayFeatures(fs) == "";
      assert Split("", {Comma}) == [""];
      assert TrimAll([""]) == [""];
    } else {
      TrimmedPieces("", fs);
      assert "" + DisplayFeatures(fs) == DisplayFeatures(fs);
      NonEmptyKeeps(fs);
    }
  }

  /** The features typed reach the backend as typed: the CSV sent for them
      splits back into the same list. */
  lemma TypedFeaturesReachBackend(text: string)
    requires |ParseFeatures(text)| > 0
    ensures Split(ToCsv(ParseFeatures(text)), {Comma}) == ParseFeatures(text)
  {
    var fs := ParseFeatures(text);
    ToCsvSplit(fs);
    TrimAllKeeps(fs);
    NonEmptyKeeps(fs);
  }

  /** The body given to `onSave`: the local record's name, price, currency,
      features and active flag, with no id and no type. */
  function SaveBody(p: AdminPlan): (r: PlanInput)
    ensures r.id.None? && r.kind.None?
    ensures r.name == p.name && r.pricePerMonth == p.pricePerMonth && r.currency == p.currency
    ensures r.features == p.features && r.isActive == p.isActive
  {
    PlanInput(None, p.name, p.pricePerMonth, p.currency, p.features, p.isActive, None)
  }

  /** Saving the modal patches the plan without a type. */
  lemma SavedBodyHasNoType(p: AdminPlan)
    ensures UpdatePayload(SaveBody(p)).kind.None? && UpdatePayload(SaveBody(p)).id.None?
    ensures UpdatePayload(SaveBody(p)).featuresCsv == ToCsv(p.features)
  {
  }

  class PlanEditor {
    var open: bool
    /** the `plan` prop */
    var plan: Option<AdminPlan>
    /** the local copy the controls edit */
    var local: Option<AdminPlan>
    /** the bodies handed to `onSave`, in order */
    var saved: seq<PlanInput>
    /** how many times `onClose` was called */
    var closes: nat

    constructor (o: bool, p: Option<AdminPlan>)
      ensures open == o && plan == p && local == p && saved == [] && closes == 0
    {
      open := o;
      plan := p;
      local := p;
      saved := [];
      closes := 0;
    }

    /** Something is rendered only when the modal is open and has a plan. */
    predicate Rendered()
      reads this
    {
      open && local.Some?
    }

    /** The text of the features input. */
    function FeaturesText(): string
      reads this
      requires local.Some?
    {
      DisplayFeatures(local.value.features)
    }

    /** A new `plan` prop resets the local copy to it. */
    method SetPlan(p: Option<AdminPlan>)
      modifies this
      ensures plan == p && local == p
      ensures open == old(open) && saved == old(saved) && closes == old(closes)
    {
      plan := p;
      local := p;
    }

    method SetOpen(o: bool)
      modifies this
      ensures open == o
      ensures plan == old(plan) && local == old(local) && saved == old(saved) && closes == old(closes)
    {
      open := o;
    }

    method EditName(v: string)
      requires Rendered()
      modifies this
      ensures local == Some(old(local).value.(name := v))
      ensures open == old(open) && plan == old(plan) && saved == old(saved) && closes == old(closes)
    {
      local := Some(local.value.(name := v));
    }

    method EditPrice(v: real)
      requires Rendered()
      modifies this
      ensures local == Some(old(local).value.(pricePerMonth := v))
      ensures open == old(open) && plan == old(plan) && saved == old(saved) && closes == old(closes)
    {
      local := Some(local.value.(pricePerMonth := v));
    }

    method EditCurrency(v: string)
      requires Rendered()
      modifies this
      ensures local == Some(old(local).value.(currency := v))
      ensures open == old(open) && plan == old(plan) && saved == old(saved) && closes == old(closes)
    {
      local := Some(local.value.(currency := v));
    }

    /** The features input: the typed text is read as a list. */
    method EditFeatures(text: string)
      requires Rendered()
      modifies this
      ensures local == Some(old(local).value.(features := ParseFeatures(text)))
      ensures open == old(open) && plan == old(plan) && saved == old(saved) && closes == old(closes)
    {
      local := Some(local.value.(features := ParseFeatures(text)));
    }

    method EditActive(b: bool)
      requires Rendered()
      modifies this
      ensures local == Some(old(local).value.(isActive := b))
      ensures open == old(open) && plan == old(plan) && saved == old(saved) && closes == old(closes)
    {
      local := Some(local.value.(isActive := b));
    }

    method Save()
      requires Rendered()
      modifies this
      ensures local == old(local) && saved == old(saved) + [SaveBody(old(local).value)]
      ensures open == old(open) && plan == old(plan) && closes == old(closes)
    {
      saved := saved + [SaveBody(local.value)];
    }

    /** The close and cancel buttons. */
    method Close()
      requires Rendered()
      modifies this
      ensures closes == old(closes) + 1
      ensures open == old(open) && plan == old(plan) && local == old(local) && saved == old(saved)
    {
      closes := closes + 1;
    }
  }

  /** Opening a plan whose features are clean and saving without edits hands
      back the plan's own fields; the features the input shows read back as
      the same list. */
  method SaveUnedited(p: AdminPlan) returns (body: PlanInput, reread: seq<string>)
    requires forall k :: 0 <= k < |p.features| ==> Tidy(p.features[k])
    ensures body == PlanInput(None, p.name, p.pricePerMonth, p.currency, p.features, p.isActive, None)
    ensures reread == p.features
  {
    var m := new PlanEditor(true, Some(p));
    FeaturesRoundTrip(p.features);
    reread := ParseFeatures(m.FeaturesText());
    m.Save();
    body := m.saved[|m.saved| - 1];
  }
}
