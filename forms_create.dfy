/**
 * Form creation (convex/forms.ts `createForm` and `createFormV2`): the
 * permission and input checks, the new form row, and the draft vehicles
 * that `createFormV2` pre-assigns to transporters.
 */
module FormsCreate {
  import opened Common
  import opened Tables
  import opened Schema
  import opened Users
  import opened Forms

  /** The completion flags of a form that has just been created. */
  function NewCompletion(transportDetailsComplete: bool): Completion
  {
    Completion(transportDetailsComplete, true, false, false, false)
  }

  /** A pending, not deleted, never submitted form created at `now`. */
  function NewForm(refId: string, employeeId: Id, td: Option<TransportDetails>, booking: BookingDetails,
                   allocations: seq<Allocation>, now: int): Form
  {
    Form(refId, employeeId, Pending, td, booking, allocations, NewCompletion(td.Some?), now, now, None, false, None, None, None)
  }

  // ---------------------------------------------------------------------------
  // createForm
  // ---------------------------------------------------------------------------

  /**
   * The checks of `createForm`: the `forms.create` permission, then either
   * transport details or at least one vehicle; without explicit transport
   * details those of the first vehicle are used.
   */
  function CreateFormCheck(roles: seq<Row<UserRole>>, caller: Option<Id>, td: Option<TransportDetails>,
                           vehicles: seq<TransportDetails>): (r: Result<(Caller, TransportDetails), Error>)
    ensures r.Ok? ==> caller == Some(r.value.0.userId)
  {
    match CheckPermission(roles, caller, "forms.create")
    case Err(e) => Err(e)
    case Ok(c) =>
      if td.None? && vehicles == [] then Err(NoTransportDetails)
      else Ok((c, if td.Some? then td.value else vehicles[0]))
  }

  /** Creation is refused exactly without permission or without any transport details. */
  lemma CreateFormCheckOk(roles: seq<Row<UserRole>>, caller: Option<Id>, td: Option<TransportDetails>,
                          vehicles: seq<TransportDetails>)
    ensures CreateFormCheck(roles, caller, td, vehicles).Ok?
      <==> CheckPermission(roles, caller, "forms.create").Ok? && (td.Some? || vehicles != [])
    ensures CheckPermission(roles, caller, "forms.create").Ok? && td.None? && vehicles == []
      ==> CreateFormCheck(roles, caller, td, vehicles) == Err(NoTransportDetails)
    ensures CreateFormCheck(roles, caller, td, vehicles).Ok? ==>
      var (c, details) := CreateFormCheck(roles, caller, td, vehicles).value;
      caller == Some(c.userId) && details == (if td.Some? then td.value else vehicles[0])
  {
  }

  /**
   * `createForm`: after the checks, number the form in the working year of
   * the date and insert it, pending, with its transport details and the
   * allocation snapshot (empty when none is given).
   */
  method CreateForm(db: Db, caller: Option<Id>, td: Option<TransportDetails>, vehicles: seq<TransportDetails>,
                    allocations: Option<seq<Allocation>>, booking: BookingDetails,
                    year: int, month0: int, now: int) returns (r: Result<(Id, string), Error>)
    requires db.Valid()
    requires 0 <= month0 < 12
    modifies db`forms, db`counters, db`nextId
    ensures db.Valid()
    ensures r.Ok? <==> CreateFormCheck(db.roles, caller, td, vehicles).Ok?
    ensures r.Err? ==> (r.error == CreateFormCheck(db.roles, caller, td, vehicles).error
      && db.forms == old(db.forms) && db.counters == old(db.counters) && db.nextId == old(db.nextId))
    ensures r.Ok? ==>
      && db.counters == BumpCounter(old(db.counters), WorkingYear(year, month0), now, old(db.nextId))
      && r.value.1 == RefId(WorkingYear(year, month0), StoredCounter(old(db.counters), WorkingYear(year, month0)) + 1)
      && db.forms == old(db.forms) + [Row(r.value.0, NewForm(r.value.1, caller.value, Some(CreateFormCheck(db.roles, caller, td, vehicles).value.1), booking,
                                           if allocations.Some? then allocations.value else [], now))]
  {
    var check := CreateFormCheck(db.roles, caller, td, vehicles);
    if check.Err? {
      return Err(check.error);
    }
    var (c, details) := check.value;
    var refId := GenerateRefId(db, year, month0, now);
    var snapshot := if allocations.Some? then allocations.value else [];
    var formId := db.InsertForm(NewForm(refId, c.userId, Some(details), booking, snapshot, now));
    r := Ok((formId, refId));
  }

  // ---------------------------------------------------------------------------
  // createFormV2
  // ---------------------------------------------------------------------------

  /** One line of the allocation table: a transporter and how many vehicles it gets. */
  datatype V2Allocation = V2Allocation(
    id: Option<string>,
    transporterUserId: Id,
    transporterName: Option<string>,
    contactPerson: Option<string>,
    contactMobile: Option<string>,
    count: int)

  /** The allocation as kept in the form's snapshot. */
  function Snapshot(a: V2Allocation): Allocation
  {
    Allocation(a.id, None, Some(a.transporterUserId), a.transporterName, a.contactPerson, a.contactMobile, a.count)
  }

  function Snapshots(allocs: seq<V2Allocation>): seq<Allocation>
  {
    if allocs == [] then [] else [Snapshot(allocs[0])] + Snapshots(allocs[1..])
  }

  /** `allocations.reduce((s, a) => s + a.count, 0)`. */
  function Allocated(allocs: seq<V2Allocation>): int
  {
    if allocs == [] then 0 else Allocated(allocs[..|allocs| - 1]) + allocs[|allocs| - 1].count
  }

  /** `parseInt(vehicalQty || "0", 10) || 0`. */
  function TotalVehicles(vehicalQty: string): int
  {
    ParseIntOrZero(vehicalQty)
  }

  /** Only admins and employees create forms this way. */
  predicate MayCreateV2(role: Option<UserRole>)
  {
    role.Some? && (role.value.role == Admin || role.value.role == Employee)
  }

  /**
   * The checks of `createFormV2` as written: signed in, an admin or employee,
   * and a non-zero total equal to the sum of the allocated counts.
   */
  function V2CheckAsWritten(roles: seq<Row<UserRole>>, caller: Option<Id>, vehicalQty: string,
                            allocs: seq<V2Allocation>): (r: Result<Id, Error>)
    ensures r.Ok? ==> caller == Some(r.value)
  {
    if caller.None? then Err(NotAuthenticated)
    else if !MayCreateV2(ActiveRole(roles, caller.value)) then Err(InsufficientPermissions)
    else
      var total := TotalVehicles(vehicalQty);
      var sum := Allocated(allocs);
      if total == 0 || total != sum then Err(AllocationMismatch(sum, total))
      else Ok(caller.value)
  }

  /** Every allocated count is a number of vehicles. */
  predicate CountsNonNegative(allocs: seq<V2Allocation>)
  {
    forall i :: 0 <= i < |allocs| ==> allocs[i].count >= 0
  }

  /**
   * The checks of `createFormV2` with a negative count refused: the sum check
   * alone lets a negative count cancel vehicles that are still created.
   */
  function V2Check(roles: seq<Row<UserRole>>, caller: Option<Id>, vehicalQty: string,
                   allocs: seq<V2Allocation>): (r: Result<Id, Error>)
    ensures r.Ok? ==> V2CheckAsWritten(roles, caller, vehicalQty, allocs).Ok? && caller == Some(r.value)
  {
    match V2CheckAsWritten(roles, caller, vehicalQty, allocs)
    case Err(e) => Err(e)
    case Ok(u) => if CountsNonNegative(allocs) then Ok(u) else Err(InvalidAllocationCount)
  }

  /** The placeholder vehicle created for one allocated slot. */
  function DraftFor(formId: Id, a: V2Allocation, userId: Id, now: int): Vehicle
  {
    Vehicle(formId, a.id, Some(a.transporterUserId),
            if a.transporterName.Some? then a.transporterName.value else "",
            a.contactPerson, a.contactMobile, None, None, None, Draft, now, now, Some(userId))
  }

  /** `n` copies of a document, for `for (let i = 0; i < n; i++)`. */
  function Copies<T>(doc: T, n: int): (r: seq<T>)
    ensures |r| == if n < 0 then 0 else n
  {
    if n <= 0 then [] else Copies(doc, n - 1) + [doc]
  }

  /** The drafts of all allocations, in allocation order. */
  function Drafts(formId: Id, allocs: seq<V2Allocation>, userId: Id, now: int): seq<Vehicle>
  {
    if allocs == [] then []
    else
      var last := allocs[|allocs| - 1];
      Drafts(formId, allocs[..|allocs| - 1], userId, now) + Copies(DraftFor(formId, last, userId, now), last.count)
  }

  /** Documents inserted one after the other from id `start`. */
  function Numbered<T>(start: Id, docs: seq<T>): (r: seq<Row<T>>)
    ensures |r| == |docs|
  {
    if docs == [] then [] else Numbered(start, docs[..|docs| - 1]) + [Row(start + |docs| - 1, docs[|docs| - 1])]
  }

  lemma NumberedSnoc<T>(start: Id, docs: seq<T>, d: T)
    ensures Numbered(start, docs + [d]) == Numbered(start, docs) + [Row(start + |docs|, d)]
  {
    assert (docs + [d])[..|docs|] == docs;
  }

  lemma {:induction false} NumberedAppend<T>(start: Id, a: seq<T>, b: seq<T>)
    ensures Numbered(start, a + b) == Numbered(start, a) + Numbered(start + |a|, b)
  {
    if b != [] {
      var b' := b[..|b| - 1];
      assert (a + b)[..|a + b| - 1] == a + b';
      NumberedAppend(start, a, b');
    } else {
      assert a + b == a;
    }
  }

  /** Sum of the counts with negative counts read as zero: the iterations of the inner loop. */
  function Iterations(allocs: seq<V2Allocation>): nat
  {
    if allocs == [] then 0
    else
      var c := allocs[|allocs| - 1].count;
      Iterations(allocs[..|allocs| - 1]) + (if c < 0 then 0 else c)
  }

  /** The drafts of one more allocation follow those of the earlier ones. */
  lemma DraftsSnoc(formId: Id, allocs: seq<V2Allocation>, j: nat, userId: Id, now: int)
    requires j < |allocs|
    ensures Drafts(formId, allocs[..j + 1], userId, now)
      == Drafts(formId, allocs[..j], userId, now) + Copies(DraftFor(formId, allocs[j], userId, now), allocs[j].count)
  {
    assert allocs[..j + 1][..j] == allocs[..j];
  }

  lemma {:induction false} DraftsLength(formId: Id, allocs: seq<V2Allocation>, userId: Id, now: int)
    ensures |Drafts(formId, allocs, userId, now)| == Iterations(allocs)
  {
    if allocs != [] {
      DraftsLength(formId, allocs[..|allocs| - 1], userId, now);
    }
  }

  lemma {:induction false} IterationsOfNonNegative(allocs: seq<V2Allocation>)
    requires CountsNonNegative(allocs)
    ensures Iterations(allocs) == Allocated(allocs)
  {
    if allocs != [] {
      IterationsOfNonNegative(allocs[..|allocs| - 1]);
    }
  }

  /**
   * With the corrected checks passed, exactly as many drafts are created as
   * the booking's total number of vehicles, and that total is positive.
   */
  lemma V2CheckDraftsMatchTotal(roles: seq<Row<UserRole>>, caller: Option<Id>, vehicalQty: string,
                                allocs: seq<V2Allocation>, formId: Id, now: int)
    requires V2Check(roles, caller, vehicalQty, allocs).Ok?
    ensures TotalVehicles(vehicalQty) > 0
    ensures |Drafts(formId, allocs, caller.value, now)| == TotalVehicles(vehicalQty)
  {
    DraftsLength(formId, allocs, caller.value, now);
    IterationsOfNonNegative(allocs);
  }

  /** How many of the drafts are assigned to a transporter. */
  function AssignedTo(vs: seq<Vehicle>, transporter: Id): nat
  {
    if vs == [] then 0
    else AssignedTo(vs[..|vs| - 1], transporter) + (if vs[|vs| - 1].assignedTransporterId == Some(transporter) then 1 else 0)
  }

  lemma {:induction false} AssignedToAppend(a: seq<Vehicle>, b: seq<Vehicle>, transporter: Id)
    ensures AssignedTo(a + b, transporter) == AssignedTo(a, transporter) + AssignedTo(b, transporter)
  {
    if b != [] {
      assert (a + b)[..|a + b| - 1] == a + b[..|b| - 1];
      AssignedToAppend(a, b[..|b| - 1], transporter);
    } else {
      assert a + b == a;
    }
  }

  lemma {:induction false} AssignedToCopies(v: Vehicle, n: int, transporter: Id)
    ensures AssignedTo(Copies(v, n), transporter) == if v.assignedTransporterId == Some(transporter) && n > 0 then n else 0
  {
    if n > 0 {
      AssignedToCopies(v, n - 1, transporter);
    }
  }

  /** The vehicles allocated to a transporter: its counts summed, negative ones read as zero. */
  function IterationsFor(allocs: seq<V2Allocation>, transporter: Id): nat
  {
    if allocs == [] then 0
    else
      var a := allocs[|allocs| - 1];
      IterationsFor(allocs[..|allocs| - 1], transporter) + (if a.transporterUserId == transporter && a.count > 0 then a.count else 0)
  }

  /** Each transporter gets one draft per vehicle allocated to it. */
  lemma {:induction false} DraftsPerTransporter(formId: Id, allocs: seq<V2Allocation>, userId: Id, now: int, transporter: Id)
    ensures AssignedTo(Drafts(formId, allocs, userId, now), transporter) == IterationsFor(allocs, transporter)
  {
    if allocs != [] {
      var last := allocs[|allocs| - 1];
      DraftsPerTransporter(formId, allocs[..|allocs| - 1], userId, now, transporter);
      AssignedToAppend(Drafts(formId, allocs[..|allocs| - 1], userId, now), Copies(DraftFor(formId, last, userId, now), last.count), transporter);
      AssignedToCopies(DraftFor(formId, last, userId, now), last.count, transporter);
    }
  }

  /** A booking of two vehicles allocated as 3 and -1 passes the checks as written and creates three drafts. */
  lemma NegativeCountCounterexample()
    ensures var roles := [Row(0, UserRole(1, Admin, ["*"], None, true))];
      var allocs := [V2Allocation(None, 5, None, None, None, 3), V2Allocation(None, 6, None, None, None, -1)];
      && V2CheckAsWritten(roles, Some(1), "2", allocs).Ok?
      && |Drafts(10, allocs, 1, 0)| == 3
      && TotalVehicles("2") == 2
      && V2Check(roles, Some(1), "2", allocs) == Err(InvalidAllocationCount)
  {
    var roles := [Row(0, UserRole(1, Admin, ["*"], None, true))];
    var allocs := [V2Allocation(None, 5, None, None, None, 3), V2Allocation(None, 6, None, None, None, -1)];
    assert ActiveRole(roles, 1) == Some(roles[0].doc);
    assert NatToString(2) == "2";
    ParseIntOfNatToString(2);
    assert allocs[..1] == [allocs[0]];
    assert Allocated(allocs) == 2;
    DraftsLength(10, allocs, 1, 0);
    assert Iterations(allocs) == 3;
    assert !CountsNonNegative(allocs) by { assert allocs[1].count < 0; }
  }

  /** The vehicle table after inserting `n` copies of `doc`, numbered from `start`. */
  function WithCopies(vehicles: seq<Row<Vehicle>>, start: Id, doc: Vehicle, n: int): seq<Row<Vehicle>>
  {
    if n <= 0 then vehicles else WithCopies(vehicles, start, doc, n - 1) + [Row(start + n - 1, doc)]
  }

  lemma {:induction false} WithCopiesNumbered(vehicles: seq<Row<Vehicle>>, start: Id, doc: Vehicle, n: int)
    ensures WithCopies(vehicles, start, doc, n) == vehicles + Numbered(start, Copies(doc, n))
  {
    if n > 0 {
      WithCopiesNumbered(vehicles, start, doc, n - 1);
      NumberedSnoc(start, Copies(doc, n - 1), doc);
      assert Copies(doc, n) == Copies(doc, n - 1) + [doc];
      var done := Numbered(start, Copies(doc, n - 1));
      AppendAssoc(vehicles, done, [Row(start + n - 1, doc)]);
    }
  }

  /** The vehicle table after the drafts of `allocs`, numbered from `start`. */
  function WithDrafts(vehicles: seq<Row<Vehicle>>, start: Id, formId: Id, allocs: seq<V2Allocation>, userId: Id, now: int): seq<Row<Vehicle>>
  {
    if allocs == [] then vehicles
    else
      var init := allocs[..|allocs| - 1];
      var last := allocs[|allocs| - 1];
      WithCopies(WithDrafts(vehicles, start, formId, init, userId, now), start + Iterations(init),
                 DraftFor(formId, last, userId, now), last.count)
  }

  /** Copies inserted after numbered rows continue the numbering. */
  lemma WithCopiesAfter(vehicles: seq<Row<Vehicle>>, start: Id, done: seq<Vehicle>, doc: Vehicle, n: int)
    ensures WithCopies(vehicles + Numbered(start, done), start + |done|, doc, n)
      == vehicles + Numbered(start, done + Copies(doc, n))
  {
    var a := Numbered(start, done);
    var b := Numbered(start + |done|, Copies(doc, n));
    WithCopiesNumbered(vehicles + a, start + |done|, doc, n);
    NumberedAppend(start, done, Copies(doc, n));
    AppendAssoc(vehicles, a, b);
  }

  lemma {:induction false} WithDraftsNumbered(vehicles: seq<Row<Vehicle>>, start: Id, formId: Id, allocs: seq<V2Allocation>, userId: Id, now: int)
    ensures WithDrafts(vehicles, start, formId, allocs, userId, now) == vehicles + Numbered(start, Drafts(formId, allocs, userId, now))
  {
    if allocs != [] {
      var init := allocs[..|allocs| - 1];
      var last := allocs[|allocs| - 1];
      var done := Drafts(formId, init, userId, now);
      WithDraftsNumbered(vehicles, start, formId, init, userId, now);
      DraftsLength(formId, init, userId, now);
      WithCopiesAfter(vehicles, start, done, DraftFor(formId, last, userId, now), last.count);
    }
  }

  /** The inner loop: `count` drafts of one allocation, numbered from the next id. */
  method InsertCopies(db: Db, doc: Vehicle, count: int)
    requires db.Valid()
    modifies db`vehicles, db`nextId
    ensures db.Valid()
    ensures db.vehicles == WithCopies(old(db.vehicles), old(db.nextId), doc, count)
    ensures db.nextId == old(db.nextId) + (if count < 0 then 0 else count)
  {
    var i := 0;
    while i < count
      invariant db.Valid()
      invariant 0 <= i && (count > 0 ==> i <= count) && (count <= 0 ==> i == 0)
      invariant db.vehicles == WithCopies(old(db.vehicles), old(db.nextId), doc, i)
      invariant db.nextId == old(db.nextId) + i
    {
      var id := db.InsertVehicle(doc);
      i := i + 1;
    }
  }

  /** The outer loop: the drafts of every allocation, in order. */
  method InsertDrafts(db: Db, formId: Id, allocs: seq<V2Allocation>, userId: Id, now: int)
    requires db.Valid()
    modifies db`vehicles, db`nextId
    ensures db.Valid()
    ensures db.vehicles == WithDrafts(old(db.vehicles), old(db.nextId), formId, allocs, userId, now)
    ensures db.nextId == old(db.nextId) + Iterations(allocs)
  {
    var j := 0;
    while j < |allocs|
      invariant db.Valid()
      invariant 0 <= j <= |allocs|
      invariant db.vehicles == WithDrafts(old(db.vehicles), old(db.nextId), formId, allocs[..j], userId, now)
      invariant db.nextId == old(db.nextId) + Iterations(allocs[..j])
    {
      var a := allocs[j];
      assert allocs[..j + 1][..j] == allocs[..j];
      InsertCopies(db, DraftFor(formId, a, userId, now), a.count);
      j := j + 1;
    }
    assert allocs[..|allocs|] == allocs;
  }

  /** The rows `createFormV2` inserts once the reference id is known: the form, then its drafts. */
  method InsertFormWithDrafts(db: Db, refId: string, userId: Id, booking: BookingDetails,
                              allocs: seq<V2Allocation>, now: int) returns (formId: Id)
    requires db.Valid()
    modifies db`forms, db`vehicles, db`nextId
    ensures db.Valid()
    ensures formId == old(db.nextId)
    ensures db.forms == old(db.forms) + [Row(formId, NewForm(refId, userId, None, booking, Snapshots(allocs), now))]
    ensures db.vehicles == WithDrafts(old(db.vehicles), formId + 1, formId, allocs, userId, now)
  {
    formId := db.InsertForm(NewForm(refId, userId, None, booking, Snapshots(allocs), now));
    InsertDrafts(db, formId, allocs, userId, now);
  }

  /**
   * `createFormV2`, with negative counts refused: after the checks, number
   * the form, insert it without transport details and with the allocations
   * as its snapshot, then insert one draft vehicle per allocated slot.
   */
  method CreateFormV2(db: Db, caller: Option<Id>, booking: BookingDetails, allocs: seq<V2Allocation>,
                      year: int, month0: int, now: int) returns (r: Result<(Id, string), Error>)
    requires db.Valid()
    requires 0 <= month0 < 12
    modifies db`forms, db`counters, db`vehicles, db`nextId
    ensures db.Valid()
    ensures r.Ok? <==> V2Check(db.roles, caller, booking.vehicalQty, allocs).Ok?
    ensures r.Err? ==> (r.error == V2Check(db.roles, caller, booking.vehicalQty, allocs).error
      && db.forms == old(db.forms) && db.counters == old(db.counters) && db.vehicles == old(db.vehicles)
      && db.nextId == old(db.nextId))
    ensures r.Ok? ==>
      && db.counters == BumpCounter(old(db.counters), WorkingYear(year, month0), now, old(db.nextId))
      && r.value.1 == RefId(WorkingYear(year, month0), StoredCounter(old(db.counters), WorkingYear(year, month0)) + 1)
      && db.forms == old(db.forms) + [Row(r.value.0, NewForm(r.value.1, caller.value, None, booking, Snapshots(allocs), now))]
      && db.vehicles == WithDrafts(old(db.vehicles), r.value.0 + 1, r.value.0, allocs, caller.value, now)
  {
    var check := V2Check(db.roles, caller, booking.vehicalQty, allocs);
    if check.Err? {
      return Err(check.error);
    }
    var refId := GenerateRefId(db, year, month0, now);
    var formId := InsertFormWithDrafts(db, refId, caller.value, booking, allocs, now);
    r := Ok((formId, refId));
  }
}
