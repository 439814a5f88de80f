/**
 * The form detail screen (src/components/FormViewer.tsx): whether every
 * vehicle of a form is submitted, the Submitted/Pending status of each
 * allocation (found through a three-level vehicle-matching fallback), the
 * vendor shown for a vehicle in the Excel export, the export's grouped
 * "Vendor Transport Details" sheet, and the download and submit flags.
 *
 * Vehicles and allocations are the stored documents of the `transportVehicles`
 * table and of a form's `allocations` list. The screen also reads an
 * allocation's `vendorName` and a vehicle's `containerNumber` and
 * `sealNumber`; neither table has those columns, so they are always absent.
 */
module FormViewer {
  import opened Common
  import opened Tables
  import opened Schema
  import opened Sorting
  import Users
  import FormsLifecycle

  /** The signed-in user's role as the screen sees it, including the legacy "transporter". */
  datatype ViewerRole = AsRole(role: Role) | Transporter | NoRole

  // ---------------------------------------------------------------------------
  // All vehicles submitted
  // ---------------------------------------------------------------------------

  predicate IsSubmitted(v: Vehicle)
  {
    v.status == Submitted
  }

  /** `allVehiclesSubmittedForForm`: false for no vehicles, else every one is submitted. */
  predicate AllSubmitted(vs: seq<Vehicle>)
  {
    |vs| > 0 && forall i :: 0 <= i < |vs| ==> vs[i].status == Submitted
  }

  /** A filter that drops nothing had only passing elements. */
  lemma {:induction false} FilterDroppedNone<T>(xs: seq<T>, p: T -> bool)
    requires |Filter(xs, p)| == |xs|
    ensures forall i :: 0 <= i < |xs| ==> p(xs[i])
  {
    if xs != [] {
      assert Filter(xs, p) == (if p(xs[0]) then [xs[0]] else []) + Filter(xs[1..], p);
      FilterDroppedNone(xs[1..], p);
      forall i | 1 <= i < |xs|
        ensures p(xs[i])
      {
        assert xs[i] == xs[1..][i - 1];
      }
    }
  }

  /** All submitted means there is a vehicle and counting the submitted ones counts them all. */
  lemma AllSubmittedCount(vs: seq<Vehicle>)
    ensures AllSubmitted(vs) <==> 0 < Count(vs, IsSubmitted) == |vs|
  {
    if 0 < Count(vs, IsSubmitted) == |vs| {
      FilterDroppedNone(vs, IsSubmitted);
    }
    if AllSubmitted(vs) {
      FilterAll(vs, IsSubmitted);
    }
  }

  // ---------------------------------------------------------------------------
  // Allocation status
  // ---------------------------------------------------------------------------

  /** `a.transporterName || a.vendorName` (the latter is never stored). */
  function AllocName(a: Allocation): string
  {
    if a.transporterName.Some? then a.transporterName.value else ""
  }

  predicate HasAllocationId(a: Allocation)
  {
    a.id.Some? && a.id.value != ""
  }

  function WithAllocationId(id: string): Vehicle -> bool
  {
    (v: Vehicle) => v.allocationId == Some(id)
  }

  function AssignedTo(vendorUserId: Id): Vehicle -> bool
  {
    (v: Vehicle) => v.assignedTransporterId == Some(vendorUserId)
  }

  /** `(v.transporterName || "").toLowerCase() === name.toLowerCase()`. */
  function NamedLike(name: string): Vehicle -> bool
  {
    (v: Vehicle) => ToLower(v.transporterName) == ToLower(name)
  }

  /** Rule 1: the vehicles carrying the allocation's id (none when it has no id). */
  function ByIdMatches(vs: seq<Vehicle>, a: Allocation): seq<Vehicle>
  {
    if HasAllocationId(a) then Filter(vs, WithAllocationId(a.id.value)) else []
  }

  /** Rule 2: the vehicles assigned to the allocation's vendor (none when it has no vendor). */
  function ByVendorMatches(vs: seq<Vehicle>, a: Allocation): seq<Vehicle>
  {
    if a.vendorUserId.Some? then Filter(vs, AssignedTo(a.vendorUserId.value)) else []
  }

  /** Rule 3: the vehicles whose transporter name equals the allocation's, ignoring case (none when it has no name). */
  function ByNameMatches(vs: seq<Vehicle>, a: Allocation): seq<Vehicle>
  {
    if AllocName(a) != "" then Filter(vs, NamedLike(AllocName(a))) else []
  }

  /** The vehicles counted for an allocation: by allocation id, else by vendor, else by name. */
  function MatchVehicles(vs: seq<Vehicle>, a: Allocation): (r: seq<Vehicle>)
    ensures forall i :: 0 <= i < |r| ==> r[i] in vs
  {
    var first := ByIdMatches(vs, a);
    var second := if first == [] then ByVendorMatches(vs, a) else first;
    if second == [] then ByNameMatches(vs, a) else second
  }

  predicate MatchesById(vs: seq<Vehicle>, a: Allocation)
  {
    HasAllocationId(a) && exists i :: 0 <= i < |vs| && vs[i].allocationId == a.id
  }

  predicate MatchesByVendor(vs: seq<Vehicle>, a: Allocation)
  {
    a.vendorUserId.Some? && exists i :: 0 <= i < |vs| && vs[i].assignedTransporterId == a.vendorUserId
  }

  predicate MatchesByName(vs: seq<Vehicle>, a: Allocation)
  {
    AllocName(a) != "" && exists i :: 0 <= i < |vs| && ToLower(vs[i].transporterName) == ToLower(AllocName(a))
  }

  /** A filter is empty exactly when nothing passes. */
  lemma FilterEmpty<T>(xs: seq<T>, p: T -> bool)
    ensures Filter(xs, p) == [] <==> forall i :: 0 <= i < |xs| ==> !p(xs[i])
  {
    var r := Filter(xs, p);
    if r != [] {
      var i :| 0 <= i < |xs| && xs[i] == r[0];
      assert p(xs[i]);
    }
  }

  lemma ByIdEmpty(vs: seq<Vehicle>, a: Allocation)
    ensures ByIdMatches(vs, a) == [] <==> !MatchesById(vs, a)
  {
    if HasAllocationId(a) {
      FilterEmpty(vs, WithAllocationId(a.id.value));
    }
  }

  lemma ByVendorEmpty(vs: seq<Vehicle>, a: Allocation)
    ensures ByVendorMatches(vs, a) == [] <==> !MatchesByVendor(vs, a)
  {
    if a.vendorUserId.Some? {
      FilterEmpty(vs, AssignedTo(a.vendorUserId.value));
    }
  }

  lemma ByNameEmpty(vs: seq<Vehicle>, a: Allocation)
    ensures ByNameMatches(vs, a) == [] <==> !MatchesByName(vs, a)
  {
    if AllocName(a) != "" {
      FilterEmpty(vs, NamedLike(AllocName(a)));
    }
  }

  /** Each rule decides only when every earlier rule matches no vehicle; with no match anywhere, none is counted. */
  lemma MatchOrder(vs: seq<Vehicle>, a: Allocation)
    ensures MatchesById(vs, a) ==> MatchVehicles(vs, a) == ByIdMatches(vs, a)
    ensures (!MatchesById(vs, a) && MatchesByVendor(vs, a)) ==> MatchVehicles(vs, a) == ByVendorMatches(vs, a)
    ensures (!MatchesById(vs, a) && !MatchesByVendor(vs, a) && MatchesByName(vs, a))
            ==> MatchVehicles(vs, a) == ByNameMatches(vs, a)
    ensures (!MatchesById(vs, a) && !MatchesByVendor(vs, a) && !MatchesByName(vs, a))
            ==> MatchVehicles(vs, a) == []
  {
    ByIdEmpty(vs, a);
    ByVendorEmpty(vs, a);
    ByNameEmpty(vs, a);
  }

  /** `haveAllCreated`: at least as many matched vehicles as the allocation's positive count. */
  predicate HaveAllCreated(matched: seq<Vehicle>, count: int)
  {
    |matched| >= count && count > 0
  }

  /** The allocation shows "Submitted": a vendor needs its matched vehicles all submitted, other roles also all created. */
  predicate ShowsSubmitted(viewer: ViewerRole, vs: seq<Vehicle>, a: Allocation)
  {
    var matched := MatchVehicles(vs, a);
    if viewer == AsRole(Vendor) then AllSubmitted(matched)
    else HaveAllCreated(matched, a.count) && AllSubmitted(matched)
  }

  /**
   * "Submitted" means some matched vehicles, all of them submitted; for
   * staff also at least `count` of them, so it is never shown for a zero
   * count, and whatever staff see as submitted a vendor would too.
   */
  lemma SubmittedStatus(viewer: ViewerRole, vs: seq<Vehicle>, a: Allocation)
    requires ShowsSubmitted(viewer, vs, a)
    ensures MatchVehicles(vs, a) != []
    ensures forall v :: v in MatchVehicles(vs, a) ==> v in vs && v.status == Submitted
    ensures viewer != AsRole(Vendor) ==> 0 < a.count <= Count(MatchVehicles(vs, a), IsSubmitted)
    ensures ShowsSubmitted(AsRole(Vendor), vs, a)
  {
    var matched := MatchVehicles(vs, a);
    AllSubmittedCount(matched);
  }

  /** The allocations listed: all of them, except that a vendor sees only its own. */
  function VisibleAllocations(viewer: ViewerRole, userId: Id, allocs: seq<Allocation>): (r: seq<Allocation>)
    ensures forall a :: a in r <==> a in allocs && (viewer != AsRole(Vendor) || a.vendorUserId == Some(userId))
  {
    Filter(allocs, (a: Allocation) => viewer != AsRole(Vendor) || a.vendorUserId == Some(userId))
  }

  // ---------------------------------------------------------------------------
  // The vendor shown for a vehicle
  // ---------------------------------------------------------------------------

  /** `vendorMap.get(id)`, `""` when absent or unnamed; a later vendor with the same id wins. */
  function VendorName(vendors: seq<Users.VendorOption>, id: Id): (r: string)
    ensures r != "" ==> exists i :: 0 <= i < |vendors| && vendors[i].id == id && vendors[i].name == Some(r)
  {
    if vendors == [] then ""
    else
      var last := vendors[|vendors| - 1];
      if last.id == id then (if last.name.Some? then last.name.value else "")
      else VendorName(vendors[..|vendors| - 1], id)
  }

  /** `allocationsForLookup.find(a => a.id === id)`. */
  function FindAllocation(allocs: seq<Allocation>, id: string): (r: Option<Allocation>)
    ensures r.Some? ==> r.value in allocs && r.value.id == Some(id)
    ensures r.None? ==> forall i :: 0 <= i < |allocs| ==> allocs[i].id != Some(id)
  {
    if allocs == [] then None
    else if allocs[0].id == Some(id) then Some(allocs[0])
    else FindAllocation(allocs[1..], id)
  }

  /** `x || y` on strings. */
  function Or(x: string, y: string): string
  {
    if x != "" then x else y
  }

  /** `getVendorNameForVehicle`. */
  function VendorNameForVehicle(v: Vehicle, allocs: seq<Allocation>, vendors: seq<Users.VendorOption>): string
  {
    var viaId := if v.assignedTransporterId.Some? then VendorName(vendors, v.assignedTransporterId.value) else "";
    if viaId != "" then viaId
    else
      var alloc := if v.allocationId.Some? && v.allocationId.value != "" then FindAllocation(allocs, v.allocationId.value) else None;
      if alloc.Some? then
        Or(if alloc.value.vendorUserId.Some? then VendorName(vendors, alloc.value.vendorUserId.value) else "",
           AllocName(alloc.value))
      else v.transporterName
  }

  /** `find` returns the first allocation carrying the id. */
  lemma {:induction false} FindAllocationFirst(allocs: seq<Allocation>, id: string, j: int)
    requires 0 <= j < |allocs| && allocs[j].id == Some(id)
    requires forall k :: 0 <= k < j ==> allocs[k].id != Some(id)
    ensures FindAllocation(allocs, id) == Some(allocs[j])
    decreases j
  {
    if j > 0 {
      assert allocs[0].id != Some(id);
      FindAllocationFirst(allocs[1..], id, j - 1);
    }
  }

  /**
   * The vendor shown for a vehicle is the named vendor it is assigned to;
   * failing that, for the first allocation carrying its allocation id, that
   * allocation's vendor name or else its transporter name; failing that,
   * its own transporter name; it is always one of those or empty.
   */
  lemma VendorNameOrder(v: Vehicle, allocs: seq<Allocation>, vendors: seq<Users.VendorOption>)
    ensures var r := VendorNameForVehicle(v, allocs, vendors);
            && ((v.assignedTransporterId.Some? && VendorName(vendors, v.assignedTransporterId.value) != "")
                ==> r == VendorName(vendors, v.assignedTransporterId.value))
            && (forall j :: 0 <= j < |allocs|
                  && (v.assignedTransporterId.None? || VendorName(vendors, v.assignedTransporterId.value) == "")
                  && v.allocationId.Some? && v.allocationId.value != "" && allocs[j].id == v.allocationId
                  && (forall k :: 0 <= k < j ==> allocs[k].id != v.allocationId)
                  ==> r == Or(if allocs[j].vendorUserId.Some? then VendorName(vendors, allocs[j].vendorUserId.value) else "",
                              AllocName(allocs[j])))
            && (((v.assignedTransporterId.None? || VendorName(vendors, v.assignedTransporterId.value) == "")
                 && (v.allocationId.None? || forall i :: 0 <= i < |allocs| ==> allocs[i].id != v.allocationId))
                ==> r == v.transporterName)
            && (r == "" || r == v.transporterName
                || (exists i :: 0 <= i < |vendors| && vendors[i].name == Some(r))
                || (exists j :: 0 <= j < |allocs| && allocs[j].transporterName == Some(r)))
  {
    var r := VendorNameForVehicle(v, allocs, vendors);
    var viaId := if v.assignedTransporterId.Some? then VendorName(vendors, v.assignedTransporterId.value) else "";
    if viaId == "" && v.allocationId.Some? && v.allocationId.value != "" {
      var alloc := FindAllocation(allocs, v.allocationId.value);
      forall j | 0 <= j < |allocs| && allocs[j].id == v.allocationId && (forall k :: 0 <= k < j ==> allocs[k].id != v.allocationId)
        ensures alloc == Some(allocs[j])
      {
        FindAllocationFirst(allocs, v.allocationId.value, j);
      }
      if alloc.Some? {
        var j :| 0 <= j < |allocs| && allocs[j] == alloc.value;
        assert r == "" || (exists i :: 0 <= i < |vendors| && vendors[i].name == Some(r)) || allocs[j].transporterName == Some(r);
      }
    }
  }

  // ---------------------------------------------------------------------------
  // The Excel rows and the grouped sheet
  // ---------------------------------------------------------------------------

  datatype VehicleRow = VehicleRow(
    vendorName: string,
    transporterName: string,
    vehicleNumber: string,
    driverName: string,
    driverMobile: string,
    containerNumber: string,
    sealNumber: string,
    status: string)

  function OrEmpty(o: Option<string>): string
  {
    if o.Some? then o.value else ""
  }

  function StatusText(s: VehicleStatus): string
  {
    match s
    case Draft => "draft"
    case Submitted => "submitted"
  }

  /** A vehicle's export row; a vehicle with no vendor found is filed under "Unassigned". */
  function RowOf(v: Vehicle, allocs: seq<Allocation>, vendors: seq<Users.VendorOption>): (r: VehicleRow)
    ensures r.vendorName != ""
    ensures VendorNameForVehicle(v, allocs, vendors) != "" ==> r.vendorName == VendorNameForVehicle(v, allocs, vendors)
  {
    VehicleRow(Or(VendorNameForVehicle(v, allocs, vendors), "Unassigned"), v.transporterName,
               OrEmpty(v.vehicleNumber), OrEmpty(v.driverName), OrEmpty(v.driverMobile), "", "",
               StatusText(v.status))
  }

  /** `vehicleRows`: one row per vehicle, in order. */
  function VehicleRows(vs: seq<Vehicle>, allocs: seq<Allocation>, vendors: seq<Users.VendorOption>): (rows: seq<VehicleRow>)
    ensures |rows| == |vs|
    ensures forall i :: 0 <= i < |vs| ==> rows[i] == RowOf(vs[i], allocs, vendors)
  {
    seq(|vs|, i requires 0 <= i < |vs| => RowOf(vs[i], allocs, vendors))
  }

  /** The eight cells of a row. */
  function Cells(r: VehicleRow): seq<string>
  {
    [r.vendorName, r.transporterName, r.vehicleNumber, r.driverName, r.driverMobile,
     r.containerNumber, r.sealNumber, r.status]
  }

  const Headers: seq<string> :=
    ["Vendor", "Transporter Name", "Vehicle Number", "Driver Name", "Driver Mobile",
     "Container Number", "Seal Number", "Status"]

  /** `row.vendorName || "Unassigned"`. */
  function GroupKey(r: VehicleRow): string
  {
    Or(r.vendorName, "Unassigned")
  }

  function KeyIs(k: string): VehicleRow -> bool
  {
    (r: VehicleRow) => GroupKey(r) == k
  }

  datatype Group = Group(vendor: string, rows: seq<VehicleRow>)

  /** The position of the group for `k`, or `|gs|`. */
  function GroupIndex(gs: seq<Group>, k: string): (i: nat)
    ensures i <= |gs|
    ensures i < |gs| ==> gs[i].vendor == k
  {
    if gs == [] || gs[0].vendor == k then 0 else 1 + GroupIndex(gs[1..], k)
  }

  lemma {:induction false} GroupIndexFirst(gs: seq<Group>, k: string)
    ensures forall j :: 0 <= j < GroupIndex(gs, k) ==> gs[j].vendor != k
  {
    if gs != [] && gs[0].vendor != k {
      GroupIndexFirst(gs[1..], k);
    }
  }

  /** One row pushed into the `grouped` Map: onto its vendor's list, or a new list at the end. */
  function AddRow(gs: seq<Group>, r: VehicleRow): seq<Group>
  {
    var i := GroupIndex(gs, GroupKey(r));
    if i < |gs| then gs[i := Group(gs[i].vendor, gs[i].rows + [r])] else gs + [Group(GroupKey(r), [r])]
  }

  /** The Map after the first `n` rows. */
  function GroupedFirst(rows: seq<VehicleRow>, n: nat): seq<Group>
    requires n <= |rows|
  {
    if n == 0 then [] else AddRow(GroupedFirst(rows, n - 1), rows[n - 1])
  }

  function Grouped(rows: seq<VehicleRow>): seq<Group>
  {
    GroupedFirst(rows, |rows|)
  }

  predicate VendorsDistinct(gs: seq<Group>)
  {
    forall i, j :: 0 <= i < j < |gs| ==> gs[i].vendor != gs[j].vendor
  }

  /** What pushing one row does to the groups. */
  lemma AddRowFacts(gs: seq<Group>, r: VehicleRow)
    ensures var i, gs' := GroupIndex(gs, GroupKey(r)), AddRow(gs, r);
            && (i < |gs| ==> |gs'| == |gs| && gs'[i] == Group(GroupKey(r), gs[i].rows + [r]))
            && (i == |gs| ==> |gs'| == |gs| + 1 && gs'[i] == Group(GroupKey(r), [r])
                              && forall j :: 0 <= j < |gs| ==> gs[j].vendor != GroupKey(r))
            && (forall j :: 0 <= j < |gs| && j != i ==> gs'[j] == gs[j])
  {
    GroupIndexFirst(gs, GroupKey(r));
  }

  /** An existing group keeps its place and vendor; it gains the row when the row is its vendor's. */
  lemma AddRowKeeps(gs: seq<Group>, r: VehicleRow, j: nat)
    requires j < |gs|
    ensures j < |AddRow(gs, r)| && AddRow(gs, r)[j].vendor == gs[j].vendor
    ensures gs[j].vendor != GroupKey(r) ==> AddRow(gs, r)[j] == gs[j]
    ensures gs[j].vendor == GroupKey(r) && VendorsDistinct(gs) ==> AddRow(gs, r)[j].rows == gs[j].rows + [r]
  {
    GroupIndexFirst(gs, GroupKey(r));
  }

  /** A row with no group yet opens one at the end holding just that row. */
  lemma AddRowNew(gs: seq<Group>, r: VehicleRow)
    ensures GroupIndex(gs, GroupKey(r)) < |gs| ==> |AddRow(gs, r)| == |gs|
    ensures GroupIndex(gs, GroupKey(r)) == |gs|
            ==> |AddRow(gs, r)| == |gs| + 1 && AddRow(gs, r)[|gs|] == Group(GroupKey(r), [r])
  {
  }

  /** A group for `k` at position `p` is found no later than `p`. */
  lemma GroupIndexAtMost(gs: seq<Group>, k: string, p: nat)
    requires p < |gs| && gs[p].vendor == k
    ensures GroupIndex(gs, k) <= p
  {
    GroupIndexFirst(gs, k);
  }

  /** Every row read so far has its group. */
  lemma {:induction false} GroupedCovers(rows: seq<VehicleRow>, n: nat, t: nat)
    requires t < n <= |rows|
    ensures GroupIndex(GroupedFirst(rows, n), GroupKey(rows[t])) < |GroupedFirst(rows, n)|
  {
    var prev, gs := GroupedFirst(rows, n - 1), GroupedFirst(rows, n);
    AddRowFacts(prev, rows[n - 1]);
    if t < n - 1 {
      GroupedCovers(rows, n - 1, t);
      var p := GroupIndex(prev, GroupKey(rows[t]));
      assert gs[p].vendor == GroupKey(rows[t]);
      GroupIndexAtMost(gs, GroupKey(rows[t]), p);
    } else {
      GroupIndexAtMost(gs, GroupKey(rows[t]), GroupIndex(prev, GroupKey(rows[t])));
    }
  }

  /** No two groups share a vendor. */
  lemma {:induction false} GroupedDistinct(rows: seq<VehicleRow>, n: nat)
    requires n <= |rows|
    ensures VendorsDistinct(GroupedFirst(rows, n))
  {
    if n > 0 {
      GroupedDistinct(rows, n - 1);
      AddRowFacts(GroupedFirst(rows, n - 1), rows[n - 1]);
    }
  }

  /** Filtering a sequence whose last element alone has key `k`. */
  lemma FilterOnlyLast(pre: seq<VehicleRow>, r: VehicleRow, k: string)
    requires GroupKey(r) == k
    requires forall t :: 0 <= t < |pre| ==> GroupKey(pre[t]) != k
    ensures Filter(pre + [r], KeyIs(k)) == [r]
  {
    FilterEmpty(pre, KeyIs(k));
    FilterAppend(pre, [r], KeyIs(k));
  }

  /** An existing group after row `n - 1`: it gains the row exactly when the row is its vendor's. */
  lemma GroupedRowsOld(rows: seq<VehicleRow>, n: nat, j: nat)
    requires 0 < n <= |rows| && j < |GroupedFirst(rows, n - 1)|
    requires VendorsDistinct(GroupedFirst(rows, n - 1))
    requires GroupedFirst(rows, n - 1)[j].rows == Filter(rows[..n - 1], KeyIs(GroupedFirst(rows, n - 1)[j].vendor))
    ensures j < |GroupedFirst(rows, n)|
    ensures GroupedFirst(rows, n)[j].rows == Filter(rows[..n], KeyIs(GroupedFirst(rows, n)[j].vendor))
  {
    var prev := GroupedFirst(rows, n - 1);
    AddRowKeeps(prev, rows[n - 1], j);
    FilterSnoc(rows, n - 1, KeyIs(prev[j].vendor));
  }

  /** The group opened by row `n - 1` holds just that row, as no earlier row has its vendor. */
  lemma GroupedRowsNew(rows: seq<VehicleRow>, n: nat, j: nat)
    requires 0 < n <= |rows| && j == |GroupedFirst(rows, n - 1)|
    requires GroupIndex(GroupedFirst(rows, n - 1), GroupKey(rows[n - 1])) == j
    requires forall t :: 0 <= t < n - 1 ==> GroupKey(rows[t]) != GroupKey(rows[n - 1])
    ensures j < |GroupedFirst(rows, n)|
    ensures GroupedFirst(rows, n)[j].rows == Filter(rows[..n], KeyIs(GroupedFirst(rows, n)[j].vendor))
  {
    var r := rows[n - 1];
    AddRowNew(GroupedFirst(rows, n - 1), r);
    var pre := rows[..n - 1];
    forall t | 0 <= t < |pre|
      ensures GroupKey(pre[t]) != GroupKey(r)
    {
      assert pre[t] == rows[t];
    }
    assert rows[..n] == pre + [r];
    FilterOnlyLast(pre, r, GroupKey(r));
  }

  /** A row that opens a group has a vendor no earlier row has. */
  lemma NewVendorIsFresh(rows: seq<VehicleRow>, n: nat)
    requires 0 < n <= |rows|
    requires GroupIndex(GroupedFirst(rows, n - 1), GroupKey(rows[n - 1])) == |GroupedFirst(rows, n - 1)|
    ensures forall t :: 0 <= t < n - 1 ==> GroupKey(rows[t]) != GroupKey(rows[n - 1])
  {
    forall t | 0 <= t < n - 1
      ensures GroupKey(rows[t]) != GroupKey(rows[n - 1])
    {
      GroupedCovers(rows, n - 1, t);
    }
  }

  /** Each group holds exactly the rows with its vendor, in their original order. */
  lemma {:induction false} GroupedRows(rows: seq<VehicleRow>, n: nat, j: nat)
    requires n <= |rows| && j < |GroupedFirst(rows, n)|
    ensures GroupedFirst(rows, n)[j].rows == Filter(rows[..n], KeyIs(GroupedFirst(rows, n)[j].vendor))
  {
    var prev := GroupedFirst(rows, n - 1);
    AddRowNew(prev, rows[n - 1]);
    if j < |prev| {
      GroupedRows(rows, n - 1, j);
      GroupedDistinct(rows, n - 1);
      GroupedRowsOld(rows, n, j);
    } else {
      NewVendorIsFresh(rows, n);
      GroupedRowsNew(rows, n, j);
    }
  }

  /** Each group's vendor comes from some row read so far. */
  lemma {:induction false} GroupHasRow(rows: seq<VehicleRow>, n: nat, j: nat)
    requires n <= |rows| && j < |GroupedFirst(rows, n)|
    ensures exists t :: 0 <= t < n && GroupKey(rows[t]) == GroupedFirst(rows, n)[j].vendor
  {
    var prev := GroupedFirst(rows, n - 1);
    AddRowNew(prev, rows[n - 1]);
    if j < |prev| {
      GroupHasRow(rows, n - 1, j);
      AddRowKeeps(prev, rows[n - 1], j);
    } else {
      assert GroupKey(rows[n - 1]) == GroupedFirst(rows, n)[j].vendor;
    }
  }

  /** The group of a row read before row `n - 1` already existed before it. */
  lemma GroupOfEarlierRow(rows: seq<VehicleRow>, n: nat, t: nat, j: nat)
    requires t < n - 1 && n <= |rows| && j < |GroupedFirst(rows, n)|
    requires GroupKey(rows[t]) == GroupedFirst(rows, n)[j].vendor
    ensures j < |GroupedFirst(rows, n - 1)|
    ensures GroupedFirst(rows, n - 1)[j].vendor == GroupedFirst(rows, n)[j].vendor
  {
    var prev := GroupedFirst(rows, n - 1);
    AddRowNew(prev, rows[n - 1]);
    GroupedCovers(rows, n - 1, t);
    if j < |prev| {
      AddRowKeeps(prev, rows[n - 1], j);
    }
  }

  /**
   * Groups come in the order their vendors first appear: wherever a later
   * group's vendor occurs, an earlier group's vendor has already occurred.
   */
  lemma {:induction false} GroupedOrder(rows: seq<VehicleRow>, n: nat, j1: nat, j2: nat, t: nat)
    requires n <= |rows| && j1 < j2 < |GroupedFirst(rows, n)| && t < n
    requires GroupKey(rows[t]) == GroupedFirst(rows, n)[j2].vendor
    ensures exists s :: 0 <= s < t && GroupKey(rows[s]) == GroupedFirst(rows, n)[j1].vendor
  {
    var prev, r := GroupedFirst(rows, n - 1), rows[n - 1];
    AddRowNew(prev, r);
    AddRowKeeps(prev, r, j1);
    if t == n - 1 {
      GroupHasRow(rows, n - 1, j1);
    } else {
      GroupOfEarlierRow(rows, n, t, j2);
      GroupedOrder(rows, n - 1, j1, j2, t);
    }
  }

  function GroupSize(g: Group): int
  {
    |g.rows|
  }

  /** The groups hold the rows once each: their sizes add up to the number of rows. */
  lemma {:induction false} GroupedTotal(rows: seq<VehicleRow>, n: nat)
    requires n <= |rows|
    ensures SumBy(GroupedFirst(rows, n), GroupSize) == n
  {
    if n > 0 {
      GroupedTotal(rows, n - 1);
      var prev := GroupedFirst(rows, n - 1);
      var r := rows[n - 1];
      var i := GroupIndex(prev, GroupKey(r));
      if i < |prev| {
        SumByUpdate(prev, i, Group(prev[i].vendor, prev[i].rows + [r]), GroupSize);
      } else {
        SumByAppend(prev, Group(GroupKey(r), [r]), GroupSize);
      }
    }
  }

  /** The loop that fills the `grouped` Map. */
  method GroupRows(rows: seq<VehicleRow>) returns (groups: seq<Group>)
    ensures groups == Grouped(rows)
  {
    groups := [];
    var n := 0;
    while n < |rows|
      invariant n <= |rows|
      invariant groups == GroupedFirst(rows, n)
    {
      var row := rows[n];
      var key := GroupKey(row);
      var i := GroupIndex(groups, key);
      ghost var before := groups;
      if i == |groups| {
        groups := groups + [Group(key, [])];
      }
      groups := groups[i := Group(key, groups[i].rows + [row])];
      assert groups == AddRow(before, row) by {
        if i == |before| {
          assert [] + [row] == [row];
        }
      }
      n := n + 1;
    }
  }

  function Title(vendor: string): seq<string>
  {
    ["Vendor: " + vendor, "", "", "", "", "", "", ""]
  }

  const Blank: seq<string> := ["", "", "", "", "", "", "", ""]

  /** The first `k` rows of a group's cells. */
  function RowCells(rows: seq<VehicleRow>, k: nat): seq<seq<string>>
    requires k <= |rows|
  {
    if k == 0 then [] else RowCells(rows, k - 1) + [Cells(rows[k - 1])]
  }

  /** A group's block: its title line, its rows, then a blank line. */
  function Block(g: Group): seq<seq<string>>
  {
    [Title(g.vendor)] + RowCells(g.rows, |g.rows|) + [Blank]
  }

  /** `vendorAoA` after the first `n` groups. */
  function SheetFirst(gs: seq<Group>, n: nat): seq<seq<string>>
    requires n <= |gs|
  {
    if n == 0 then [Headers] else SheetFirst(gs, n - 1) + Block(gs[n - 1])
  }

  lemma {:induction false} RowCellsSize(rows: seq<VehicleRow>, k: nat)
    requires k <= |rows|
    ensures |RowCells(rows, k)| == k
  {
    if k > 0 {
      RowCellsSize(rows, k - 1);
    }
  }

  /** The sheet has the header, then each group's rows plus two lines. */
  lemma {:induction false} SheetSize(gs: seq<Group>, n: nat)
    requires n <= |gs|
    ensures |SheetFirst(gs, n)| == 1 + SumBy(gs[..n], GroupSize) + 2 * n
  {
    if n > 0 {
      SheetSize(gs, n - 1);
      RowCellsSize(gs[n - 1].rows, |gs[n - 1].rows|);
      assert gs[..n] == gs[..n - 1] + [gs[n - 1]];
      SumByAppend(gs[..n - 1], gs[n - 1], GroupSize);
    }
  }

  /** The grouped sheet of the vehicle rows has `1 + rows + 2 * groups` lines. */
  lemma GroupedSheetSize(rows: seq<VehicleRow>)
    ensures |SheetFirst(Grouped(rows), |Grouped(rows)|)| == 1 + |rows| + 2 * |Grouped(rows)|
  {
    var gs := Grouped(rows);
    SheetSize(gs, |gs|);
    assert gs[..|gs|] == gs;
    GroupedTotal(rows, |rows|);
  }

  /** The loop that writes `vendorAoA`. */
  method VendorSheet(groups: seq<Group>) returns (aoa: seq<seq<string>>)
    ensures aoa == SheetFirst(groups, |groups|)
  {
    aoa := [Headers];
    var n := 0;
    while n < |groups|
      invariant n <= |groups|
      invariant aoa == SheetFirst(groups, n)
    {
      var g := groups[n];
      aoa := aoa + [Title(g.vendor)];
      var k := 0;
      while k < |g.rows|
        invariant k <= |g.rows|
        invariant aoa == SheetFirst(groups, n) + [Title(g.vendor)] + RowCells(g.rows, k)
      {
        assert RowCells(g.rows, k + 1) == RowCells(g.rows, k) + [Cells(g.rows[k])];
        aoa := aoa + [Cells(g.rows[k])];
        k := k + 1;
      }
      aoa := aoa + [Blank];
      n := n + 1;
    }
  }

  // ---------------------------------------------------------------------------
  // Download and submit flags
  // ---------------------------------------------------------------------------

  predicate IsStaff(viewer: ViewerRole)
  {
    viewer == AsRole(Admin) || viewer == AsRole(Employee)
  }

  /** `canDownloadExcel`: staff, a loaded form, and a finished form or fully submitted vehicles. */
  predicate CanDownloadExcel(viewer: ViewerRole, form: Option<Form>, vehicles: seq<Vehicle>)
  {
    IsStaff(viewer) && form.Some?
    && (form.value.status == Completed || form.value.completion.overallComplete || AllSubmitted(vehicles))
  }

  /** `canEdit`. */
  predicate ViewerCanEdit(viewer: ViewerRole, userId: Id, f: Form)
  {
    viewer == AsRole(Admin) || (viewer == AsRole(Employee) && f.employeeId == userId)
  }

  /** `canSubmit`: an editor, a pending form, and a complete one. */
  predicate CanSubmit(viewer: ViewerRole, userId: Id, f: Form)
  {
    ViewerCanEdit(viewer, userId, f) && f.status == Pending && f.completion.overallComplete
  }

  /** The screen's edit rule is the one `submitForm` enforces; the transporter and role-less views never edit. */
  lemma CanEditAgrees(viewer: ViewerRole, userId: Id, f: Form)
    ensures ViewerCanEdit(viewer, userId, f) <==> viewer.AsRole? && FormsLifecycle.CanEdit(viewer.role, userId, f)
  {
  }

  /** A form the screen offers to submit can also be downloaded. */
  lemma SubmittableIsDownloadable(viewer: ViewerRole, userId: Id, f: Form, vehicles: seq<Vehicle>)
    requires CanSubmit(viewer, userId, f)
    ensures CanDownloadExcel(viewer, Some(f), vehicles)
  {
  }
}
