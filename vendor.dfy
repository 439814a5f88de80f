/**
 * The vendor dashboard query `listAssignedForms` (convex/vendor.ts): the
 * forms on which the caller has vehicles, each with how many of those
 * vehicles there are and how many are submitted, newest form first.
 */
module Vendor {
  import opened Common
  import opened Tables
  import opened Sorting
  import opened Schema
  import opened Users

  /** One entry of the handler's `Map`: a form and its two counters. */
  datatype Tally = Tally(formId: Id, total: nat, submitted: nat)

  /** One row of the answer. */
  datatype AssignedForm = AssignedForm(formId: Id, refId: string, total: nat, submitted: nat, createdAt: int)

  function TallyForm(t: Tally): Id { t.formId }

  function TallyTotal(t: Tally): int { t.total }

  function FormOf(a: AssignedForm): Id { a.formId }

  function TotalOf(a: AssignedForm): int { a.total }

  function CreatedAtOf(a: AssignedForm): int { a.createdAt }

  /** How many of the vehicles `vs` belong to form `formId`. */
  function CountOf(vs: seq<Vehicle>, formId: Id): nat
  {
    if vs == [] then 0
    else CountOf(vs[..|vs| - 1], formId) + (if vs[|vs| - 1].formId == formId then 1 else 0)
  }

  /** How many of the vehicles `vs` belong to form `formId` and are submitted. */
  function SubmittedOf(vs: seq<Vehicle>, formId: Id): nat
  {
    if vs == [] then 0
    else
      var v := vs[|vs| - 1];
      SubmittedOf(vs[..|vs| - 1], formId) + (if v.formId == formId && v.status == Submitted then 1 else 0)
  }

  /** A form never has more submitted vehicles than vehicles. */
  lemma {:induction false} SubmittedAtMostCount(vs: seq<Vehicle>, formId: Id)
    ensures SubmittedOf(vs, formId) <= CountOf(vs, formId)
  {
    if vs != [] {
      SubmittedAtMostCount(vs[..|vs| - 1], formId);
    }
  }

  /** Every vehicle counts towards its own form. */
  lemma {:induction false} CountOfPositive(vs: seq<Vehicle>, i: nat)
    requires i < |vs|
    ensures CountOf(vs, vs[i].formId) >= 1
  {
    if i < |vs| - 1 {
      var init := vs[..|vs| - 1];
      assert init[i] == vs[i];
      CountOfPositive(init, i);
    }
  }

  /** `grouped.get(formId)`: the position of the form's entry, or `|g|` when it has none. */
  function Slot(g: seq<Tally>, formId: Id): (k: nat)
    ensures k <= |g|
    ensures k < |g| ==> g[k].formId == formId
  {
    if g == [] || g[0].formId == formId then 0 else 1 + Slot(g[1..], formId)
  }

  lemma {:induction false} SlotFound(g: seq<Tally>, j: nat)
    requires j < |g|
    ensures Slot(g, g[j].formId) <= j
  {
    if j > 0 && g[0].formId != g[j].formId {
      assert g[1..][j - 1] == g[j];
      SlotFound(g[1..], j - 1);
    }
  }

  /**
   * `g` holds one entry per form, whose counters are those of the vehicles
   * `vs` of that form, and every vehicle's form has an entry.
   */
  predicate GroupedBy(g: seq<Tally>, vs: seq<Vehicle>)
  {
    DistinctBy(g, TallyForm)
    && (forall k :: 0 <= k < |g| ==>
          && g[k].total == CountOf(vs, g[k].formId)
          && g[k].submitted == SubmittedOf(vs, g[k].formId)
          && g[k].total >= 1)
    && (forall i :: 0 <= i < |vs| ==> Slot(g, vs[i].formId) < |g|)
  }

  function Bump(v: Vehicle): nat
  {
    if v.status == Submitted then 1 else 0
  }

  /** Counting the last vehicle of `vs`, whose form already has an entry. */
  lemma {:induction false} CountExisting(g: seq<Tally>, vs: seq<Vehicle>, k: nat)
    requires vs != [] && GroupedBy(g, vs[..|vs| - 1])
    requires k == Slot(g, vs[|vs| - 1].formId) && k < |g|
    ensures GroupedBy(Counted(g, vs[|vs| - 1]), vs)
    ensures SumBy(Counted(g, vs[|vs| - 1]), TallyTotal) == SumBy(g, TallyTotal) + 1
  {
    var v := vs[|vs| - 1];
    var t := Tally(v.formId, g[k].total + 1, g[k].submitted + Bump(v));
    var h := g[k := t];
    assert Counted(g, v) == h;
    SumByUpdate(g, k, t, TallyTotal);
    forall i | 0 <= i < |vs| ensures Slot(h, vs[i].formId) < |h| {
      var j := if i < |vs| - 1 then Slot(g, vs[..|vs| - 1][i].formId) else k;
      assert h[j].formId == vs[i].formId;
      SlotFound(h, j);
    }
  }

  /** Counting the last vehicle of `vs`, the first of its form: a new entry goes at the end. */
  lemma {:induction false} CountNew(g: seq<Tally>, vs: seq<Vehicle>)
    requires vs != [] && GroupedBy(g, vs[..|vs| - 1])
    requires Slot(g, vs[|vs| - 1].formId) == |g|
    ensures GroupedBy(Counted(g, vs[|vs| - 1]), vs)
    ensures SumBy(Counted(g, vs[|vs| - 1]), TallyTotal) == SumBy(g, TallyTotal) + 1
  {
    var init := vs[..|vs| - 1];
    var v := vs[|vs| - 1];
    var t := Tally(v.formId, 1, Bump(v));
    var h := g + [t];
    assert Counted(g, v) == h;
    SumByAppend(g, t, TallyTotal);
    forall k | 0 <= k < |g| ensures CountOf(vs, g[k].formId) == CountOf(init, g[k].formId) {
      SlotFound(g, k);
    }
    assert CountOf(init, v.formId) == 0 by {
      if CountOf(init, v.formId) != 0 {
        CountedSomewhere(init, v.formId);
      }
    }
    SubmittedAtMostCount(init, v.formId);
    forall i | 0 <= i < |vs| ensures Slot(h, vs[i].formId) < |h| {
      var j := if i < |init| then Slot(g, init[i].formId) else |g|;
      assert h[j].formId == vs[i].formId;
      SlotFound(h, j);
    }
  }

  /** `grouped.set(fid, acc)` after counting vehicle `v`. */
  function Counted(g: seq<Tally>, v: Vehicle): seq<Tally>
  {
    var k := Slot(g, v.formId);
    if k < |g| then g[k := Tally(v.formId, g[k].total + 1, g[k].submitted + Bump(v))]
    else g + [Tally(v.formId, 1, Bump(v))]
  }

  /** The `Map` after counting the vehicles `vs` in order. */
  function Grouping(vs: seq<Vehicle>): seq<Tally>
  {
    if vs == [] then [] else Counted(Grouping(vs[..|vs| - 1]), vs[|vs| - 1])
  }

  /**
   * The aggregation groups the vehicles by form, once per form, with the
   * counters of each form's vehicles; every vehicle is counted once.
   */
  lemma {:induction false} GroupingCorrect(vs: seq<Vehicle>)
    ensures GroupedBy(Grouping(vs), vs)
    ensures SumBy(Grouping(vs), TallyTotal) == |vs|
  {
    if vs != [] {
      var init := vs[..|vs| - 1];
      var v := vs[|vs| - 1];
      var g := Grouping(init);
      GroupingCorrect(init);
      if Slot(g, v.formId) < |g| {
        CountExisting(g, vs, Slot(g, v.formId));
      } else {
        CountNew(g, vs);
      }
    }
  }

  /** A form with a positive count has a vehicle. */
  lemma {:induction false} CountedSomewhere(vs: seq<Vehicle>, formId: Id)
    requires CountOf(vs, formId) > 0
    ensures exists i :: 0 <= i < |vs| && vs[i].formId == formId
  {
    var init := vs[..|vs| - 1];
    if vs[|vs| - 1].formId != formId {
      CountedSomewhere(init, formId);
      var i :| 0 <= i < |init| && init[i].formId == formId;
      assert vs[i] == init[i];
    }
  }

  /**
   * The aggregation loop: one entry per form in order of first appearance,
   * `total` counting the form's vehicles and `submitted` the submitted ones.
   * Every vehicle is counted once.
   */
  method GroupByForm(vs: seq<Vehicle>) returns (g: seq<Tally>)
    ensures GroupedBy(g, vs)
    ensures SumBy(g, TallyTotal) == |vs|
  {
    g := [];
    var i := 0;
    while i < |vs|
      invariant i <= |vs|
      invariant g == Grouping(vs[..i])
    {
      var v := vs[i];
      assert vs[..i + 1][..i] == vs[..i];
      var k := Slot(g, v.formId);
      if k < |g| {
        g := g[k := Tally(v.formId, g[k].total + 1, g[k].submitted + Bump(v))];
      } else {
        g := g + [Tally(v.formId, 1, Bump(v))];
      }
      i := i + 1;
    }
    assert vs[..i] == vs;
    GroupingCorrect(vs);
  }

  /** The vehicles assigned to `userId`, in creation order. */
  function AssignedTo(t: seq<Row<Vehicle>>, userId: Id): seq<Vehicle>
  {
    Docs(Where(t, AssignedToUser(userId)))
  }

  function AssignedToUser(userId: Id): Vehicle -> bool
  {
    (v: Vehicle) => v.assignedTransporterId == Some(userId)
  }

  /** The user's active role is the vendor role. */
  predicate IsVendor(roles: seq<Row<UserRole>>, userId: Id)
  {
    var r := ActiveRole(roles, userId);
    r.Some? && r.value.role == Vendor
  }

  predicate LiveForm(forms: seq<Row<Form>>, formId: Id)
  {
    var f := Get(forms, formId);
    f.Some? && !f.value.isDeleted
  }

  /** `a` reports the live form `a.formId` with the counters of the vehicles `vs`. */
  predicate Reports(a: AssignedForm, forms: seq<Row<Form>>, vs: seq<Vehicle>)
  {
    && LiveForm(forms, a.formId)
    && a.refId == Get(forms, a.formId).value.refId
    && a.createdAt == Get(forms, a.formId).value.createdAt
    && a.total == CountOf(vs, a.formId)
    && a.submitted == SubmittedOf(vs, a.formId)
    && a.total >= 1
  }

  predicate Lists(results: seq<AssignedForm>, formId: Id)
  {
    exists q :: 0 <= q < |results| && results[q].formId == formId
  }

  /**
   * The answer for the vehicles `vs`: every live form of one of them,
   * reported once, newest first; the totals add up to at most `|vs|`.
   */
  predicate Answers(results: seq<AssignedForm>, forms: seq<Row<Form>>, vs: seq<Vehicle>)
  {
    && (forall k :: 0 <= k < |results| ==> Reports(results[k], forms, vs))
    && DistinctBy(results, FormOf)
    && (forall i :: 0 <= i < |vs| && LiveForm(forms, vs[i].formId) ==> Lists(results, vs[i].formId))
    && SortedDesc(results, CreatedAtOf)
    && SumBy(results, TotalOf) <= |vs|
  }

  /** Sorting the joined rows newest first gives the answer. */
  lemma {:induction false} SortedAnswers(found: seq<AssignedForm>, forms: seq<Row<Form>>, vs: seq<Vehicle>)
    requires forall k :: 0 <= k < |found| ==> Reports(found[k], forms, vs)
    requires DistinctBy(found, FormOf)
    requires forall i :: 0 <= i < |vs| && LiveForm(forms, vs[i].formId) ==> Lists(found, vs[i].formId)
    requires SumBy(found, TotalOf) <= |vs|
    ensures Answers(SortDesc(found, CreatedAtOf), forms, vs)
  {
    SortDescSorted(found, CreatedAtOf);
    SortDescDistinct(found, CreatedAtOf, FormOf);
    SortDescSum(found, CreatedAtOf, TotalOf);
    SortedReports(found, forms, vs);
    SortedLists(found, vs);
  }

  lemma SortedReports(found: seq<AssignedForm>, forms: seq<Row<Form>>, vs: seq<Vehicle>)
    requires forall k :: 0 <= k < |found| ==> Reports(found[k], forms, vs)
    ensures forall k :: 0 <= k < |SortDesc(found, CreatedAtOf)| ==> Reports(SortDesc(found, CreatedAtOf)[k], forms, vs)
  {
    var r := SortDesc(found, CreatedAtOf);
    forall k | 0 <= k < |r| ensures Reports(r[k], forms, vs) {
      assert r[k] in multiset(r);
      var q :| 0 <= q < |found| && found[q] == r[k];
    }
  }

  lemma SortedLists(found: seq<AssignedForm>, vs: seq<Vehicle>)
    ensures forall i :: 0 <= i < |vs| && Lists(found, vs[i].formId) ==> Lists(SortDesc(found, CreatedAtOf), vs[i].formId)
  {
    var r := SortDesc(found, CreatedAtOf);
    forall i | 0 <= i < |vs| && Lists(found, vs[i].formId) ensures Lists(r, vs[i].formId) {
      var q :| 0 <= q < |found| && found[q].formId == vs[i].formId;
      assert found[q] in multiset(r);
      var k :| 0 <= k < |r| && r[k] == found[q];
    }
  }

  /**
   * After joining the first `j` entries of `g`: each joined row reports a
   * live form of one of those entries, once, every live form among them is
   * joined, and the joined totals add up to at most those of the entries.
   */
  predicate JoinedUpTo(found: seq<AssignedForm>, g: seq<Tally>, j: nat, forms: seq<Row<Form>>, vs: seq<Vehicle>)
    requires j <= |g|
  {
    && (forall k :: 0 <= k < |found| ==> Reports(found[k], forms, vs))
    && (forall k :: 0 <= k < |found| ==> Slot(g, found[k].formId) < j)
    && DistinctBy(found, FormOf)
    && (forall m :: 0 <= m < j && LiveForm(forms, g[m].formId) ==> Lists(found, g[m].formId))
    && SumBy(found, TotalOf) <= SumBy(g[..j], TallyTotal)
  }

  /** The row `listAssignedForms` pushes for entry `t`, when its form is live. */
  function Joined(t: Tally, forms: seq<Row<Form>>): Option<AssignedForm>
  {
    var f := Get(forms, t.formId);
    if f.None? || f.value.isDeleted then None
    else Some(AssignedForm(t.formId, f.value.refId, t.total, t.submitted, f.value.createdAt))
  }

  /** In a grouping without repeated forms, each entry is where its form is found. */
  lemma SlotOfDistinct(g: seq<Tally>, j: nat)
    requires j < |g| && DistinctBy(g, TallyForm)
    ensures Slot(g, g[j].formId) == j
  {
    SlotFound(g, j);
  }

  /** An entry whose form is live is joined. */
  lemma {:induction false} JoinPush(found: seq<AssignedForm>, g: seq<Tally>, j: nat, forms: seq<Row<Form>>, vs: seq<Vehicle>, a: AssignedForm)
    requires j < |g| && DistinctBy(g, TallyForm) && JoinedUpTo(found, g, j, forms, vs)
    requires g[j].total == CountOf(vs, g[j].formId) && g[j].submitted == SubmittedOf(vs, g[j].formId) && g[j].total >= 1
    requires Joined(g[j], forms) == Some(a)
    ensures JoinedUpTo(found + [a], g, j + 1, forms, vs)
  {
    var found' := found + [a];
    assert a.formId == g[j].formId && Reports(a, forms, vs);
    SlotOfDistinct(g, j);
    PushReports(found, g, j, forms, vs, a);
    PushDistinct(found, g, j, a);
    assert SumBy(found', TotalOf) <= SumBy(g[..j + 1], TallyTotal) by {
      assert g[..j + 1] == g[..j] + [g[j]];
      SumByAppend(g[..j], g[j], TallyTotal);
      SumByAppend(found, a, TotalOf);
    }
    PushLists(found, g, j, forms, a);
  }

  lemma PushReports(found: seq<AssignedForm>, g: seq<Tally>, j: nat, forms: seq<Row<Form>>, vs: seq<Vehicle>, a: AssignedForm)
    requires j < |g| && Slot(g, a.formId) == j && Reports(a, forms, vs)
    requires forall k :: 0 <= k < |found| ==> Reports(found[k], forms, vs) && Slot(g, found[k].formId) < j
    ensures forall k :: 0 <= k < |found + [a]| ==> Reports((found + [a])[k], forms, vs) && Slot(g, (found + [a])[k].formId) < j + 1
  {
    var found' := found + [a];
    forall k | 0 <= k < |found'| ensures Reports(found'[k], forms, vs) && Slot(g, found'[k].formId) < j + 1 {
      if k < |found| {
        assert found'[k] == found[k];
      }
    }
  }

  lemma PushDistinct(found: seq<AssignedForm>, g: seq<Tally>, j: nat, a: AssignedForm)
    requires j < |g| && Slot(g, a.formId) == j
    requires DistinctBy(found, FormOf) && forall k :: 0 <= k < |found| ==> Slot(g, found[k].formId) < j
    ensures DistinctBy(found + [a], FormOf)
  {
    var found' := found + [a];
    forall x, y | 0 <= x < y < |found'| ensures FormOf(found'[x]) != FormOf(found'[y]) {
      assert found'[x] == found[x];
      if y == |found| {
        assert Slot(g, found[x].formId) < j;
      } else {
        assert found'[y] == found[y];
      }
    }
  }

  lemma PushLists(found: seq<AssignedForm>, g: seq<Tally>, j: nat, forms: seq<Row<Form>>, a: AssignedForm)
    requires j < |g| && a.formId == g[j].formId
    requires forall m :: 0 <= m < j && LiveForm(forms, g[m].formId) ==> Lists(found, g[m].formId)
    ensures forall m :: 0 <= m < j + 1 && LiveForm(forms, g[m].formId) ==> Lists(found + [a], g[m].formId)
  {
    var found' := found + [a];
    assert found'[|found|] == a;
    forall m | 0 <= m < j + 1 && LiveForm(forms, g[m].formId) ensures Lists(found', g[m].formId) {
      if m < j {
        var q :| 0 <= q < |found| && found[q].formId == g[m].formId;
        assert found'[q] == found[q];
      }
    }
  }

  /** An entry whose form is missing or deleted is skipped. */
  lemma {:induction false} JoinSkip(found: seq<AssignedForm>, g: seq<Tally>, j: nat, forms: seq<Row<Form>>, vs: seq<Vehicle>)
    requires j < |g| && JoinedUpTo(found, g, j, forms, vs)
    requires Joined(g[j], forms) == None
    ensures JoinedUpTo(found, g, j + 1, forms, vs)
  {
    assert g[..j + 1] == g[..j] + [g[j]];
    SumByAppend(g[..j], g[j], TallyTotal);
  }

  /** Joining every entry covers every live form of the vehicles. */
  lemma {:induction false} JoinDone(found: seq<AssignedForm>, g: seq<Tally>, forms: seq<Row<Form>>, vs: seq<Vehicle>)
    requires GroupedBy(g, vs) && SumBy(g, TallyTotal) == |vs| && JoinedUpTo(found, g, |g|, forms, vs)
    ensures Answers(SortDesc(found, CreatedAtOf), forms, vs)
  {
    assert g[..|g|] == g;
    forall i | 0 <= i < |vs| && LiveForm(forms, vs[i].formId) ensures Lists(found, vs[i].formId) {
      var m := Slot(g, vs[i].formId);
      assert g[m].formId == vs[i].formId;
    }
    SortedAnswers(found, forms, vs);
  }

  /**
   * `listAssignedForms`: nothing for a caller who is not signed in or whose
   * active role is not vendor; otherwise the forms of the caller's vehicles,
   * each with its counters, leaving out missing and deleted forms, newest
   * first.
   */
  method ListAssignedForms(db: Db, caller: Option<Id>) returns (results: seq<AssignedForm>)
    ensures caller.None? || !IsVendor(db.roles, caller.value) ==> results == []
    ensures caller.Some? && IsVendor(db.roles, caller.value) ==>
      Answers(results, db.forms, AssignedTo(db.vehicles, caller.value))
  {
    if caller.None? || !IsVendor(db.roles, caller.value) {
      return [];
    }
    var vs := AssignedTo(db.vehicles, caller.value);
    if |vs| == 0 {
      return [];
    }
    var g := GroupByForm(vs);
    var found: seq<AssignedForm> := [];
    var j := 0;
    while j < |g|
      invariant j <= |g|
      invariant JoinedUpTo(found, g, j, db.forms, vs)
    {
      var form := Get(db.forms, g[j].formId);
      if form.Some? && !form.value.isDeleted {
        var a := AssignedForm(g[j].formId, form.value.refId, g[j].total, g[j].submitted, form.value.createdAt);
        JoinPush(found, g, j, db.forms, vs, a);
        found := found + [a];
      } else {
        JoinSkip(found, g, j, db.forms, vs);
      }
      j := j + 1;
    }
    JoinDone(found, g, db.forms, vs);
    results := SortDesc(found, CreatedAtOf);
  }
}
