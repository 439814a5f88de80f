/**
 * The one-off data repairs of convex/maintenance.ts. Each collects the
 * `transportVehicles` table once, walks the collected rows in order and
 * patches some of them, returning how many it patched.
 */
module Maintenance {
  import opened Common
  import opened Tables
  import opened Schema

  /** The rows `t` with `f` applied to every document; ids and order are kept. */
  function Rewritten(t: seq<Row<Vehicle>>, f: Vehicle -> Vehicle): (r: seq<Row<Vehicle>>)
    ensures |r| == |t|
    ensures forall i :: 0 <= i < |t| ==> r[i] == Row(t[i].id, f(t[i].doc))
  {
    seq(|t|, i requires 0 <= i < |t| => Row(t[i].id, f(t[i].doc)))
  }

  /** How many of the first `n` documents of `t` satisfy `p`. */
  function CountFirst(t: seq<Row<Vehicle>>, p: Vehicle -> bool, n: nat): nat
    requires n <= |t|
  {
    if n == 0 then 0 else CountFirst(t, p, n - 1) + (if p(t[n - 1].doc) then 1 else 0)
  }

  /** How many documents of `t` satisfy `p`. */
  function CountRows(t: seq<Row<Vehicle>>, p: Vehicle -> bool): nat
  {
    CountFirst(t, p, |t|)
  }

  lemma {:induction false} CountFirstAtMost(t: seq<Row<Vehicle>>, p: Vehicle -> bool, n: nat)
    requires n <= |t|
    ensures CountFirst(t, p, n) <= n
  {
    if n > 0 {
      CountFirstAtMost(t, p, n - 1);
    }
  }

  lemma {:induction false} CountFirstNone(t: seq<Row<Vehicle>>, p: Vehicle -> bool, n: nat)
    requires n <= |t|
    requires forall i :: 0 <= i < |t| ==> !p(t[i].doc)
    ensures CountFirst(t, p, n) == 0
  {
    if n > 0 {
      CountFirstNone(t, p, n - 1);
    }
  }

  /** The rows `t` with `f` applied to the first `n` documents. */
  function RewrittenFirst(t: seq<Row<Vehicle>>, f: Vehicle -> Vehicle, n: nat): (r: seq<Row<Vehicle>>)
    ensures |r| == |t|
  {
    seq(|t|, k requires 0 <= k < |t| => if k < n then Row(t[k].id, f(t[k].doc)) else t[k])
  }

  /** One turn of a repair loop: rewriting row `i` extends the rewritten prefix by one. */
  lemma RewriteStep(t: seq<Row<Vehicle>>, i: nat, f: Vehicle -> Vehicle)
    requires i < |t|
    ensures RewrittenFirst(t, f, i)[i := Row(t[i].id, f(t[i].doc))] == RewrittenFirst(t, f, i + 1)
    ensures RewrittenFirst(t, f, i)[i] == t[i]
  {
  }

  lemma RewriteAll(t: seq<Row<Vehicle>>, f: Vehicle -> Vehicle)
    ensures RewrittenFirst(t, f, |t|) == Rewritten(t, f)
    ensures RewrittenFirst(t, f, 0) == t
  {
  }

  // ---------------------------------------------------------------------------
  // cleanupLegacyContactFields
  // ---------------------------------------------------------------------------

  /** The vehicle still carries one of the retired contact fields. */
  predicate HasLegacyContact(v: Vehicle)
  {
    v.contactPerson.Some? || v.contactMobile.Some?
  }

  /** The patch `{contactPerson: undefined, contactMobile: undefined}`. */
  function Stripped(v: Vehicle): (r: Vehicle)
    ensures !HasLegacyContact(r)
    ensures r.(contactPerson := v.contactPerson, contactMobile := v.contactMobile) == v
    ensures !HasLegacyContact(v) ==> r == v
  {
    v.(contactPerson := None, contactMobile := None)
  }

  /** One turn of the cleanup loop, on the collected row `rows[i]`. */
  method StripRow(db: Db, rows: seq<Row<Vehicle>>, i: nat) returns (patched: bool)
    requires db.Valid() && i < |rows|
    requires i < |db.vehicles| && db.vehicles[i] == rows[i]
    modifies db`vehicles
    ensures db.Valid()
    ensures db.vehicles == old(db.vehicles)[i := Row(rows[i].id, Stripped(rows[i].doc))]
    ensures patched == HasLegacyContact(rows[i].doc)
  {
    var doc := rows[i].doc;
    patched := false;
    if doc.contactPerson.Some? || doc.contactMobile.Some? {
      PutAt(db.vehicles, db.nextId, i, Stripped(doc));
      db.PutVehicle(rows[i].id, Stripped(doc));
      patched := true;
    } else {
      assert db.vehicles[i := Row(rows[i].id, Stripped(doc))] == db.vehicles;
    }
  }

  /**
   * `cleanupLegacyContactFields`: every vehicle that has a contact person
   * or a contact mobile loses both; the answer counts those vehicles.
   */
  method CleanupLegacyContactFields(db: Db) returns (updated: nat)
    requires db.Valid()
    modifies db`vehicles
    ensures db.Valid()
    ensures db.vehicles == Rewritten(old(db.vehicles), Stripped)
    ensures updated == CountRows(old(db.vehicles), HasLegacyContact)
  {
    var rows := db.vehicles;
    RewriteAll(rows, Stripped);
    updated := 0;
    var i := 0;
    while i < |rows|
      invariant db.Valid()
      invariant i <= |rows|
      invariant db.vehicles == RewrittenFirst(rows, Stripped, i)
      invariant updated == CountFirst(rows, HasLegacyContact, i)
    {
      RewriteStep(rows, i, Stripped);
      var patched := StripRow(db, rows, i);
      if patched {
        updated := updated + 1;
      }
      i := i + 1;
    }
  }

  /**
   * After the cleanup no vehicle has a contact field, so a second run
   * patches nothing and leaves the table as it is.
   */
  lemma CleanupSecondRun(t: seq<Row<Vehicle>>)
    ensures CountRows(Rewritten(t, Stripped), HasLegacyContact) == 0
    ensures Rewritten(Rewritten(t, Stripped), Stripped) == Rewritten(t, Stripped)
  {
    CountFirstNone(Rewritten(t, Stripped), HasLegacyContact, |t|);
  }

  /** The cleanup reports at most one patch per vehicle. */
  lemma CleanupCountBound(t: seq<Row<Vehicle>>)
    ensures CountRows(t, HasLegacyContact) <= |t|
    ensures (forall i :: 0 <= i < |t| ==> !HasLegacyContact(t[i].doc)) ==> CountRows(t, HasLegacyContact) == 0
  {
    CountFirstAtMost(t, HasLegacyContact, |t|);
    if forall i :: 0 <= i < |t| ==> !HasLegacyContact(t[i].doc) {
      CountFirstNone(t, HasLegacyContact, |t|);
    }
  }

  // ---------------------------------------------------------------------------
  // populateTransporterNames
  // ---------------------------------------------------------------------------

  /**
   * The name `populateTransporterNames` writes into vehicle `v`: none when
   * its transporter name is already set (not blank once trimmed); otherwise
   * the name of the assigned vendor's user record, when there is one and it
   * is not empty.
   */
  function NameFor(users: seq<Row<User>>, v: Vehicle): (r: Option<string>)
    ensures r.Some? <==> (
      && IsBlank(v.transporterName)
      && v.assignedTransporterId.Some?
      && Get(users, v.assignedTransporterId.value).Some?
      && Get(users, v.assignedTransporterId.value).value.name.Some?
      && Get(users, v.assignedTransporterId.value).value.name.value != "")
    ensures r.Some? ==> Get(users, v.assignedTransporterId.value).value.name == r
  {
    if !IsBlank(v.transporterName) then None
    else match v.assignedTransporterId
      case None => None
      case Some(userId) =>
        var u := Get(users, userId);
        if u.Some? && u.value.name.Some? && u.value.name.value != "" then u.value.name else None
  }

  /** The vehicle gets a name from its vendor. */
  function GetsName(users: seq<Row<User>>): Vehicle -> bool
  {
    (v: Vehicle) => NameFor(users, v).Some?
  }

  /** The patch `{transporterName: vendorUser.name}`, where one applies. */
  function Named(users: seq<Row<User>>): Vehicle -> Vehicle
  {
    (v: Vehicle) => if NameFor(users, v).Some? then v.(transporterName := NameFor(users, v).value) else v
  }

  lemma NamedApplied(users: seq<Row<User>>, v: Vehicle)
    ensures GetsName(users)(v) == NameFor(users, v).Some?
    ensures Named(users)(v) == if NameFor(users, v).Some? then v.(transporterName := NameFor(users, v).value) else v
  {
  }

  /** One turn of the naming loop, on the collected row `vehicles[i]`. */
  method NameRow(db: Db, vehicles: seq<Row<Vehicle>>, i: nat) returns (patched: bool)
    requires db.Valid() && i < |vehicles|
    requires i < |db.vehicles| && db.vehicles[i] == vehicles[i]
    modifies db`vehicles
    ensures db.Valid()
    ensures db.vehicles == old(db.vehicles)[i := Row(vehicles[i].id, Named(db.users)(vehicles[i].doc))]
    ensures patched == GetsName(db.users)(vehicles[i].doc)
  {
    var vehicle := vehicles[i];
    NamedApplied(db.users, vehicle.doc);
    patched := false;
    if !IsBlank(vehicle.doc.transporterName) {
      assert db.vehicles[i := vehicle] == db.vehicles;
      return;
    }
    if vehicle.doc.assignedTransporterId.Some? {
      var vendorUser := Get(db.users, vehicle.doc.assignedTransporterId.value);
      if vendorUser.Some? && vendorUser.value.name.Some? && vendorUser.value.name.value != "" {
        var doc := vehicle.doc.(transporterName := vendorUser.value.name.value);
        PutAt(db.vehicles, db.nextId, i, doc);
        db.PutVehicle(vehicle.id, doc);
        patched := true;
        return;
      }
    }
    assert db.vehicles[i := vehicle] == db.vehicles;
  }

  /**
   * `populateTransporterNames`: every vehicle without a transporter name
   * whose assigned vendor has a name takes that name; the answer counts
   * those vehicles and the vehicles collected.
   */
  method PopulateTransporterNames(db: Db) returns (updated: nat, total: nat)
    requires db.Valid()
    modifies db`vehicles
    ensures db.Valid()
    ensures db.vehicles == Rewritten(old(db.vehicles), Named(db.users))
    ensures updated == CountRows(old(db.vehicles), GetsName(db.users))
    ensures total == |old(db.vehicles)|
  {
    var vehicles := db.vehicles;
    RewriteAll(vehicles, Named(db.users));
    updated := 0;
    var i := 0;
    while i < |vehicles|
      invariant db.Valid()
      invariant i <= |vehicles|
      invariant db.vehicles == RewrittenFirst(vehicles, Named(db.users), i)
      invariant updated == CountFirst(vehicles, GetsName(db.users), i)
    {
      RewriteStep(vehicles, i, Named(db.users));
      var patched := NameRow(db, vehicles, i);
      if patched {
        updated := updated + 1;
      }
      i := i + 1;
    }
    total := |vehicles|;
  }

  /**
   * What the repair changes: only the transporter name of a vehicle whose
   * name was blank, and only to the non-empty name of its assigned vendor.
   */
  lemma PopulateEffect(t: seq<Row<Vehicle>>, users: seq<Row<User>>, i: nat)
    requires i < |t|
    ensures var v := t[i].doc;
      var w := Rewritten(t, Named(users))[i].doc;
      && w.(transporterName := v.transporterName) == v
      && (w != v ==> (
            && IsBlank(v.transporterName) && v.assignedTransporterId.Some?
            && Get(users, v.assignedTransporterId.value).Some?
            && Get(users, v.assignedTransporterId.value).value.name == Some(w.transporterName)
            && w.transporterName != ""))
      && (!IsBlank(v.transporterName) ==> w == v)
  {
  }

  /** Running the repair again leaves the table as the first run left it. */
  lemma PopulateSecondRun(t: seq<Row<Vehicle>>, users: seq<Row<User>>)
    ensures Rewritten(Rewritten(t, Named(users)), Named(users)) == Rewritten(t, Named(users))
  {
    var once := Rewritten(t, Named(users));
    var twice := Rewritten(once, Named(users));
    forall i | 0 <= i < |t| ensures twice[i] == once[i] {
      var v := t[i].doc;
      if NameFor(users, v).Some? {
        var w := once[i].doc;
        assert w.assignedTransporterId == v.assignedTransporterId;
        assert IsBlank(w.transporterName) ==> NameFor(users, w) == NameFor(users, v);
      }
    }
  }

  /**
   * The count is not a count of vehicles still missing a name: a vendor
   * whose name is only blanks is written again, and counted, on every run.
   */
  lemma BlankVendorNameRecounted()
    ensures var users := [Row(1, User(Some(" "), None))];
      var t := [Row(2, Vehicle(7, None, Some(1), "", None, None, None, None, None, Draft, 0, 0, None))];
      CountRows(t, GetsName(users)) == 1
      && CountRows(Rewritten(t, Named(users)), GetsName(users)) == 1
  {
    var users := [Row(1, User(Some(" "), None))];
    var t := [Row(2, Vehicle(7, None, Some(1), "", None, None, None, None, None, Draft, 0, 0, None))];
    assert IsWhitespace(' ');
    var once := Rewritten(t, Named(users));
    assert once[0].doc.transporterName == " ";
    assert once[..0] == [] && t[..0] == [];
  }
}
