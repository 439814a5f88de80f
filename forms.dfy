/**
 * Transport forms (convex/forms.ts): the permission gate every mutation
 * starts from, reference ids numbered per working year, form creation with
 * draft vehicles, the form list, submission, and soft delete and restore.
 */
module Forms {
  import opened Common
  import opened Tables
  import opened Sorting
  import opened Schema
  import opened Users

  // ---------------------------------------------------------------------------
  // checkPermission
  // ---------------------------------------------------------------------------

  /** The signed-in caller together with its active role row. */
  datatype Caller = Caller(userId: Id, role: UserRole)

  /** A role row grants a permission when it lists it or lists the wildcard. */
  predicate Grants(u: UserRole, permission: string)
  {
    "*" in u.permissions || permission in u.permissions
  }

  /**
   * `checkPermission`: signed in, with an active role, whose permission list
   * holds `"*"` or the requested permission; each failure has its own error.
   */
  function CheckPermission(roles: seq<Row<UserRole>>, caller: Option<Id>, permission: string): (r: Result<Caller, Error>)
    ensures r.Ok? ==> caller == Some(r.value.userId) && ActiveRole(roles, r.value.userId) == Some(r.value.role)
  {
    if caller.None? then Err(NotAuthenticated)
    else match ActiveRole(roles, caller.value)
      case None => Err(NoRoleAssigned)
      case Some(u) => if Grants(u, permission) then Ok(Caller(caller.value, u)) else Err(InsufficientPermissions)
  }

  /** The gate passes exactly for a signed-in caller whose active role grants the permission. */
  lemma CheckPermissionOk(roles: seq<Row<UserRole>>, caller: Option<Id>, permission: string)
    ensures CheckPermission(roles, caller, permission).Ok?
      <==> caller.Some? && ActiveRole(roles, caller.value).Some? && Grants(ActiveRole(roles, caller.value).value, permission)
    ensures caller.None? ==> CheckPermission(roles, caller, permission) == Err(NotAuthenticated)
    ensures caller.Some? && ActiveRole(roles, caller.value).None?
      ==> CheckPermission(roles, caller, permission) == Err(NoRoleAssigned)
    ensures caller.Some? && ActiveRole(roles, caller.value).Some? && !Grants(ActiveRole(roles, caller.value).value, permission)
      ==> CheckPermission(roles, caller, permission) == Err(InsufficientPermissions)
  {
  }

  /**
   * With role rows taken from the permission table, the mutation gate of
   * convex/forms.ts and the `hasPermission` query of convex/users.ts agree:
   * the wildcard is held by admins alone.
   */
  lemma CheckPermissionAgreesWithHasPermission(roles: seq<Row<UserRole>>, caller: Option<Id>, permission: string)
    requires RolesFromTable(roles)
    ensures CheckPermission(roles, caller, permission).Ok? <==> HasPermission(roles, caller, permission)
  {
    if caller.Some? && ActiveRole(roles, caller.value).Some? {
      ActiveRoleIsRow(roles, caller.value);
    }
  }

  /** Where the rows are not from the table, a non-admin row holding `"*"` passes the gate but not the query. */
  lemma WildcardRowCounterexample()
    ensures var roles := [Row(0, UserRole(7, Employee, ["*"], None, true))];
      CheckPermission(roles, Some(7), "forms.delete").Ok? && !HasPermission(roles, Some(7), "forms.delete")
  {
    var roles := [Row(0, UserRole(7, Employee, ["*"], None, true))];
    assert ActiveRole(roles, 7) == Some(roles[0].doc);
    assert "forms.delete" != "*";
  }

  // ---------------------------------------------------------------------------
  // Working years and reference ids
  // ---------------------------------------------------------------------------

  /** The calendar year in which the working year of a date starts (April 1). */
  function WorkingYearStart(year: int, month0: int): int
  {
    if month0 >= 3 then year else year - 1
  }

  /** `"${start}-${(start + 1).toString().slice(-2)}"`, e.g. `"2024-25"`. */
  function WorkingYearLabel(start: int): string
  {
    IntToString(start) + "-" + LastN(IntToString(start + 1), 2)
  }

  /**
   * The working year of a date given as its year and zero-based month: from
   * April 1 of `Y` it is `"Y-yy"` with `yy` the last two digits of `Y + 1`,
   * before that `"(Y-1)-yy"` with `yy` the last two digits of `Y`.
   */
  function WorkingYear(year: int, month0: int): string
    requires 0 <= month0 < 12
  {
    WorkingYearLabel(WorkingYearStart(year, month0))
  }

  /** The two cases of the working year of a date, written out. */
  lemma WorkingYearCases(year: int, month0: int)
    requires 0 <= month0 < 12
    ensures month0 >= 3 ==> WorkingYear(year, month0) == IntToString(year) + "-" + LastN(IntToString(year + 1), 2)
    ensures month0 < 3 ==> WorkingYear(year, month0) == IntToString(year - 1) + "-" + LastN(IntToString(year), 2)
  {
  }

  /** April to December of `Y` and January to March of `Y + 1` share one working year. */
  lemma WorkingYearSpansAprilToMarch(year: int, m1: int, m2: int)
    requires 3 <= m1 < 12 && 0 <= m2 < 3
    ensures WorkingYear(year, m1) == WorkingYear(year + 1, m2)
  {
  }

  /** A string of digits followed by `'-'` splits at the same place as any other such string. */
  lemma DigitsBeforeDash(a: string, x: string, b: string, y: string)
    requires AllDigits(a) && AllDigits(b)
    requires a + "-" + x == b + "-" + y
    ensures a == b
  {
    assert a + "-" + x == a + ['-'] + x;
    assert b + "-" + y == b + ['-'] + y;
    LeadingDigitsStopAt(a, '-', x);
    LeadingDigitsStopAt(b, '-', y);
  }

  /** Working years that start in different (non-negative) years have different labels. */
  lemma WorkingYearLabelInjective(a: nat, b: nat)
    requires WorkingYearLabel(a) == WorkingYearLabel(b)
    ensures a == b
  {
    DigitsBeforeDash(NatToString(a), LastN(IntToString(a + 1), 2), NatToString(b), LastN(IntToString(b + 1), 2));
    DigitsValueOfNatToString(a);
    DigitsValueOfNatToString(b);
  }

  /** `"IFL" + workingYear + "-" + counter` with the counter zero-padded to five digits. */
  function RefId(workingYear: string, counter: int): string
  {
    "IFL" + workingYear + "-" + PadStart(IntToString(counter), 5, '0')
  }

  /** Within one working year, different counters give different reference ids. */
  lemma RefIdInjective(workingYear: string, a: nat, b: nat)
    requires RefId(workingYear, a) == RefId(workingYear, b)
    ensures a == b
  {
    var prefix := "IFL" + workingYear + "-";
    var pa := PadStart(NatToString(a), 5, '0');
    var pb := PadStart(NatToString(b), 5, '0');
    assert RefId(workingYear, a) == prefix + pa;
    assert RefId(workingYear, b) == prefix + pb;
    assert pa == (prefix + pa)[|prefix|..];
    assert pb == (prefix + pb)[|prefix|..];
    PaddedNumeralInjective(a, b, 5);
  }

  /** The first id of a working year ends in `00001`. */
  lemma FirstRefIdOfYear(workingYear: string)
    ensures RefId(workingYear, 0 + 1) == "IFL" + workingYear + "-00001"
  {
    assert NatToString(1) == "1";
    assert PadStart("1", 5, '0') == "00001";
  }

  /** The counter row of a working year: the first one in creation order. */
  function CounterIndex(counters: seq<Row<RefIdCounter>>, workingYear: string): (k: nat)
    ensures k <= |counters|
    ensures k < |counters| ==> counters[k].doc.workingYear == workingYear
  {
    if counters == [] || counters[0].doc.workingYear == workingYear then 0
    else 1 + CounterIndex(counters[1..], workingYear)
  }

  /** No row before the counter row belongs to that working year. */
  lemma {:induction false} CounterIndexFirst(counters: seq<Row<RefIdCounter>>, workingYear: string, i: nat)
    requires i < CounterIndex(counters, workingYear)
    ensures counters[i].doc.workingYear != workingYear
  {
    if i > 0 {
      CounterIndexFirst(counters[1..], workingYear, i - 1);
    }
  }

  /** The number last handed out in a working year; 0 before its first id. */
  function StoredCounter(counters: seq<Row<RefIdCounter>>, workingYear: string): int
  {
    var k := CounterIndex(counters, workingYear);
    if k < |counters| then counters[k].doc.counter else 0
  }

  /** Every counter is a count of ids handed out. */
  predicate CountersNonNegative(counters: seq<Row<RefIdCounter>>)
  {
    forall i :: 0 <= i < |counters| ==> counters[i].doc.counter >= 0
  }

  /**
   * The counter table after one `generateRefId` in `workingYear`: the row of
   * the year patched to the next number, or, for a year without a row, a new
   * row (created at 0, then patched to 1) under `freshId`.
   */
  function BumpCounter(counters: seq<Row<RefIdCounter>>, workingYear: string, now: int, freshId: Id): seq<Row<RefIdCounter>>
  {
    var k := CounterIndex(counters, workingYear);
    if k < |counters| then
      counters[k := Row(counters[k].id, RefIdCounter(workingYear, counters[k].doc.counter + 1, now))]
    else
      counters + [Row(freshId, RefIdCounter(workingYear, 1, now))]
  }

  /** Patching a row in place moves no other year's counter row. */
  lemma {:induction false} CounterIndexAfterUpdate(counters: seq<Row<RefIdCounter>>, k: nat, row: Row<RefIdCounter>, w: string)
    requires k < |counters| && row.doc.workingYear == counters[k].doc.workingYear
    ensures CounterIndex(counters[k := row], w) == CounterIndex(counters, w)
  {
    if counters != [] && k > 0 && counters[0].doc.workingYear != w {
      assert counters[k := row][1..] == counters[1..][k - 1 := row];
      CounterIndexAfterUpdate(counters[1..], k - 1, row, w);
    }
  }

  /** Appending a row moves no existing counter row. */
  lemma {:induction false} CounterIndexAfterAppend(counters: seq<Row<RefIdCounter>>, row: Row<RefIdCounter>, w: string)
    ensures CounterIndex(counters + [row], w) == if CounterIndex(counters, w) < |counters| then CounterIndex(counters, w)
      else if row.doc.workingYear == w then |counters| else |counters| + 1
  {
    if counters != [] && counters[0].doc.workingYear != w {
      assert (counters + [row])[1..] == counters[1..] + [row];
      CounterIndexAfterAppend(counters[1..], row, w);
    }
  }

  /**
   * Each `generateRefId` raises its working year's counter by exactly one and
   * leaves every other year's counter as it was.
   */
  lemma BumpCounterRaisesByOne(counters: seq<Row<RefIdCounter>>, workingYear: string, now: int, freshId: Id, w: string)
    ensures StoredCounter(BumpCounter(counters, workingYear, now, freshId), w)
      == if w == workingYear then StoredCounter(counters, w) + 1 else StoredCounter(counters, w)
  {
    var k := CounterIndex(counters, workingYear);
    if k < |counters| {
      var row := Row(counters[k].id, RefIdCounter(workingYear, counters[k].doc.counter + 1, now));
      CounterIndexAfterUpdate(counters, k, row, w);
    } else {
      CounterIndexAfterAppend(counters, Row(freshId, RefIdCounter(workingYear, 1, now)), w);
    }
  }

  /** A year's row is only created when the year has none, so each year keeps at most one row. */
  lemma BumpCounterKeepsOnePerYear(counters: seq<Row<RefIdCounter>>, workingYear: string, now: int, freshId: Id)
    requires OneCounterPerYear(counters) && CountersNonNegative(counters)
    ensures OneCounterPerYear(BumpCounter(counters, workingYear, now, freshId))
    ensures CountersNonNegative(BumpCounter(counters, workingYear, now, freshId))
  {
    var k := CounterIndex(counters, workingYear);
    var r := BumpCounter(counters, workingYear, now, freshId);
    if k == |counters| {
      forall i | 0 <= i < |counters| ensures counters[i].doc.workingYear != workingYear {
        CounterIndexFirst(counters, workingYear, i);
      }
      assert forall i :: 0 <= i < |counters| ==> r[i] == counters[i];
    }
  }

  /**
   * `generateRefId`: find the counter row of the working year (creating it
   * at 0 when missing), patch it to the next number and format that number
   * into the reference id. The working year is that of the current date,
   * `WorkingYear(year, month0)` of the clock's reading.
   */
  method GenerateRefId(db: Db, year: int, month0: int, now: int) returns (refId: string)
    requires db.Valid()
    requires 0 <= month0 < 12
    modifies db`counters, db`nextId
    ensures db.Valid()
    ensures db.counters == BumpCounter(old(db.counters), WorkingYear(year, month0), now, old(db.nextId))
    ensures db.nextId == old(db.nextId) + (if CounterIndex(old(db.counters), WorkingYear(year, month0)) < |old(db.counters)| then 0 else 1)
    ensures refId == RefId(WorkingYear(year, month0), StoredCounter(old(db.counters), WorkingYear(year, month0)) + 1)
  {
    var workingYear := WorkingYear(year, month0);
    ghost var before := db.counters;
    ghost var freshId := db.nextId;
    var k := CounterIndex(db.counters, workingYear);
    if k == |db.counters| {
      var doc := RefIdCounter(workingYear, 0, now);
      var id := db.InsertCounter(doc);
      var newCounter := doc.counter + 1;
      var patched := RefIdCounter(workingYear, newCounter, now);
      PutLast(before, db.nextId, Row(id, doc), patched);
      db.PutCounter(id, patched);
      assert db.counters == BumpCounter(before, workingYear, now, freshId);
      refId := RefId(workingYear, newCounter);
    } else {
      var row := db.counters[k];
      var newCounter := row.doc.counter + 1;
      var patched := RefIdCounter(workingYear, newCounter, now);
      PutAt(db.counters, db.nextId, k, patched);
      db.PutCounter(row.id, patched);
      assert db.counters == BumpCounter(before, workingYear, now, freshId);
      refId := RefId(workingYear, newCounter);
    }
  }
}
