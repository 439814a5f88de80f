/**
 * The booking form's client-side state (src/components/FormCreator.tsx):
 * the transporter allocations, the vehicles added against them in batches,
 * the auto-numbering of vehicle numbers, draft and image validation, and the
 * readiness check. The component's `allocations` and `vehicles` state lists
 * are the fields of `Creator`; each handler replaces them.
 */
module FormCreator {
  import opened Common
  import opened Sorting

  /** One allocation row; `id` is a random local id, `vendorUserId` is "" until a vendor is chosen. */
  datatype Allocation = Allocation(id: string, vendorUserId: string, count: int)

  /** The bulk-add panel's text fields. */
  datatype Draft = Draft(
    transporterName: string,
    containerNumber: string,
    sealNumber: string,
    vehicleNumber: string,
    driverName: string,
    driverMobile: string)

  /** A vehicle added on the form, before the form is created. */
  datatype DraftVehicle = DraftVehicle(
    allocationId: string,
    transporterName: string,
    containerNumber: string,
    sealNumber: string,
    vehicleNumber: string,
    driverName: string,
    driverMobile: string)

  function AllocId(a: Allocation): string { a.id }

  function CountOf(a: Allocation): int { a.count }

  // ---------------------------------------------------------------------------
  // Auto-numbering: "MH12AB##" becomes "MH12AB01", "MH12AB02", ...
  // ---------------------------------------------------------------------------

  /** Where the regular expression `/(#+)/` starts matching: the first `#`, or `|s|`. */
  function FirstHash(s: string): (p: nat)
    ensures p <= |s|
  {
    if s == [] || s[0] == '#' then 0 else 1 + FirstHash(s[1..])
  }

  /** How far the greedy `#+` extends from `p`. */
  function HashRun(s: string, p: nat): (n: nat)
    requires p <= |s|
    ensures p + n <= |s|
    decreases |s| - p
  {
    if p == |s| || s[p] != '#' then 0 else 1 + HashRun(s, p + 1)
  }

  /** The match of `/(#+)/` is the leftmost `#` and the whole run of `#` that follows it. */
  lemma {:induction false} FirstHashMatches(s: string)
    ensures forall i :: 0 <= i < FirstHash(s) ==> s[i] != '#'
    ensures FirstHash(s) < |s| ==> s[FirstHash(s)] == '#'
  {
    if s != [] && s[0] != '#' {
      FirstHashMatches(s[1..]);
    }
  }

  lemma {:induction false} HashRunMatches(s: string, p: nat)
    requires p <= |s|
    ensures forall i :: p <= i < p + HashRun(s, p) ==> s[i] == '#'
    ensures p + HashRun(s, p) == |s| || s[p + HashRun(s, p)] != '#'
    decreases |s| - p
  {
    if p < |s| && s[p] == '#' {
      HashRunMatches(s, p + 1);
    }
  }

  /** The zero-padded numeral that replaces a run of `width` hashes. */
  function Numeral(idx: nat, width: nat): (r: string)
    ensures |r| >= width
  {
    PadStart(NatToString(idx + 1), width, '0')
  }

  /** `withAutoNumber`: the first run of `#` becomes idx + 1, padded with zeros to the run's length. */
  function WithAutoNumber(template: string, idx: nat): (r: string)
    ensures |r| >= |template|
  {
    var p := FirstHash(template);
    if p == |template| then template else Replaced(template, p, HashRun(template, p), idx)
  }

  /** The template with its `n` characters from `p` on replaced by the numeral. */
  function Replaced(template: string, p: nat, n: nat, idx: nat): string
    requires p + n <= |template|
  {
    template[..p] + Numeral(idx, n) + template[p + n..]
  }

  /** A template without `#` is left as it is. */
  lemma AutoNumberWithoutHash(template: string, idx: nat)
    requires forall i :: 0 <= i < |template| ==> template[i] != '#'
    ensures WithAutoNumber(template, idx) == template
  {
    FirstHashMatches(template);
  }

  /**
   * The text before the first `#` and after its run is kept; in between
   * stands a numeral at least as long as the run that reads back as idx + 1.
   */
  lemma AutoNumberReadsBack(template: string, idx: nat)
    requires FirstHash(template) < |template|
    ensures var p := FirstHash(template);
            var n := HashRun(template, p);
            var w := |Numeral(idx, n)|;
            var r := WithAutoNumber(template, idx);
            p + w <= |r| && r[..p] == template[..p] && r[p + w..] == template[p + n..]
            && AllDigits(r[p..p + w]) && DigitsValue(r[p..p + w]) == idx + 1
  {
    var p := FirstHash(template);
    ReplacedReadsBack(template, p, HashRun(template, p), idx);
  }

  lemma ReplacedReadsBack(template: string, p: nat, n: nat, idx: nat)
    requires p + n <= |template|
    ensures var w := |Numeral(idx, n)|;
            var r := Replaced(template, p, n, idx);
            p + w <= |r| && r[..p] == template[..p] && r[p + w..] == template[p + n..]
            && AllDigits(r[p..p + w]) && DigitsValue(r[p..p + w]) == idx + 1
  {
    SpliceNumeral(template[..p], template[p + n..], idx, n);
  }

  /** The run found at the first `#` holds at least that `#`. */
  lemma FirstRunNonEmpty(template: string)
    requires FirstHash(template) < |template|
    ensures HashRun(template, FirstHash(template)) >= 1
  {
    FirstHashMatches(template);
  }

  /** A numeral spliced between two strings is found again, and read back, at its place. */
  lemma SpliceNumeral(a: string, b: string, idx: nat, n: nat)
    ensures var x := Numeral(idx, n);
            var r := a + x + b;
            r[..|a|] == a && r[|a| + |x|..] == b
            && AllDigits(r[|a|..|a| + |x|]) && DigitsValue(r[|a|..|a| + |x|]) == idx + 1
  {
    var x := Numeral(idx, n);
    Splice(a, x, b);
    PaddedNumeralValue(idx + 1, n);
  }

  /** The three parts of a concatenation are its slices. */
  lemma Splice(a: string, x: string, b: string)
    ensures (a + x + b)[..|a|] == a
    ensures (a + x + b)[|a|..|a| + |x|] == x
    ensures (a + x + b)[|a| + |x|..] == b
  {
  }

  /** Equal strings around the same context are equal. */
  lemma SpliceCancel(a: string, x: string, y: string, b: string)
    requires a + x + b == a + y + b
    ensures x == y
  {
    assert |x| == |y|;
    Splice(a, x, b);
    Splice(a, y, b);
  }

  /** `template.includes("#")`: the template has a first `#`. */
  lemma {:induction false} IncludesHash(template: string)
    requires Includes(template, "#")
    ensures FirstHash(template) < |template|
  {
    if !StartsWith(template, "#") {
      IncludesHash(template[1..]);
    }
  }

  /** Two indices never produce the same vehicle number from a template with a `#`. */
  lemma AutoNumberInjective(template: string, i: nat, j: nat)
    requires FirstHash(template) < |template|
    requires i != j
    ensures WithAutoNumber(template, i) != WithAutoNumber(template, j)
  {
    var p := FirstHash(template);
    ReplacedDiffer(template, p, HashRun(template, p), i, j);
  }

  lemma ReplacedDiffer(template: string, p: nat, n: nat, i: nat, j: nat)
    requires p + n <= |template| && i != j
    ensures Replaced(template, p, n, i) != Replaced(template, p, n, j)
  {
    NumeralsDiffer(i, j, n);
    SpliceDiffers(template[..p], Numeral(i, n), Numeral(j, n), template[p + n..]);
  }

  lemma NumeralsDiffer(i: nat, j: nat, n: nat)
    requires i != j
    ensures Numeral(i, n) != Numeral(j, n)
  {
    if Numeral(i, n) == Numeral(j, n) {
      NumeralInjective(i, j, n);
    }
  }

  lemma SpliceDiffers(a: string, x: string, y: string, b: string)
    requires x != y
    ensures a + x + b != a + y + b
  {
    if a + x + b == a + y + b {
      SpliceCancel(a, x, y, b);
    }
  }

  lemma NumeralInjective(i: nat, j: nat, n: nat)
    requires Numeral(i, n) == Numeral(j, n)
    ensures i == j
  {
    PaddedNumeralInjective(i + 1, j + 1, n);
  }

  // ---------------------------------------------------------------------------
  // Validation
  // ---------------------------------------------------------------------------

  datatype Field = VehicleNumber | DriverName | DriverMobile

  /** `validateVehicleDraft`: one message per required field that is blank after trimming. */
  function ValidateVehicleDraft(d: Draft): (e: map<Field, string>)
    ensures VehicleNumber in e <==> IsBlank(d.vehicleNumber)
    ensures DriverName in e <==> IsBlank(d.driverName)
    ensures DriverMobile in e <==> IsBlank(d.driverMobile)
  {
    var e1: map<Field, string> := if IsBlank(d.vehicleNumber) then map[VehicleNumber := "Vehicle number is required"] else map[];
    var e2: map<Field, string> := if IsBlank(d.driverName) then map[DriverName := "Driver name is required"] else map[];
    var e3: map<Field, string> := if IsBlank(d.driverMobile) then map[DriverMobile := "Driver mobile is required"] else map[];
    e1 + e2 + e3
  }

  const MaxImageBytes: int := 10 * 1024 * 1024

  /** `validateImage`: a message for a file that is not an image or is over 10 MB, else none. */
  function ValidateImage(mimeType: string, size: int): (r: Option<string>)
    ensures r == None <==> StartsWith(mimeType, "image/") && size <= MaxImageBytes
    ensures !StartsWith(mimeType, "image/") ==> r == Some("Please select an image file (JPEG/PNG/WebP)")
  {
    if !StartsWith(mimeType, "image/") then Some("Please select an image file (JPEG/PNG/WebP)")
    else if size > MaxImageBytes then Some("Image must be 10MB or smaller")
    else None
  }

  // ---------------------------------------------------------------------------
  // Totals
  // ---------------------------------------------------------------------------

  /** `allocatedCount`: the sum of the allocation counts. */
  function Allocated(allocs: seq<Allocation>): int
  {
    SumBy(allocs, CountOf)
  }

  /** `remainingToAllocate`: how many of the total vehicles no allocation covers yet, never negative. */
  function Remaining(total: int, allocs: seq<Allocation>): (r: nat)
    ensures r >= total - Allocated(allocs)
    ensures r == 0 <==> Allocated(allocs) >= total
    ensures r > 0 ==> r == total - Allocated(allocs)
  {
    Max(0, total - Allocated(allocs))
  }

  /** The number of vehicles among the first `n` that belong to allocation `id`. */
  function VehiclesInFirst(vs: seq<DraftVehicle>, id: string, n: nat): nat
    requires n <= |vs|
  {
    if n == 0 then 0 else VehiclesInFirst(vs, id, n - 1) + (if vs[n - 1].allocationId == id then 1 else 0)
  }

  /** The number of vehicles that belong to allocation `id`. */
  function VehiclesIn(vs: seq<DraftVehicle>, id: string): nat
  {
    VehiclesInFirst(vs, id, |vs|)
  }

  /** `counts[id] || 0` on the counts dictionary. */
  function Lookup(counts: map<string, nat>, id: string): nat
  {
    if id in counts then counts[id] else 0
  }

  /**
   * `vehicleCountByAllocation`: one pass over the vehicles, bumping the
   * counter of each vehicle's allocation.
   */
  method VehicleCountByAllocation(vs: seq<DraftVehicle>) returns (counts: map<string, nat>)
    ensures forall id :: Lookup(counts, id) == VehiclesIn(vs, id)
    ensures forall id :: id in counts <==> VehiclesIn(vs, id) > 0
  {
    counts := map[];
    var i := 0;
    while i < |vs|
      invariant i <= |vs|
      invariant forall id :: Lookup(counts, id) == VehiclesInFirst(vs, id, i)
      invariant forall id :: id in counts ==> counts[id] > 0
    {
      var a := vs[i].allocationId;
      counts := counts[a := Lookup(counts, a) + 1];
      i := i + 1;
    }
  }

  lemma {:induction false} VehiclesInFirstAppend(vs: seq<DraftVehicle>, extra: seq<DraftVehicle>, id: string, n: nat)
    requires n <= |vs|
    ensures VehiclesInFirst(vs + extra, id, n) == VehiclesInFirst(vs, id, n)
  {
    if n > 0 {
      VehiclesInFirstAppend(vs, extra, id, n - 1);
    }
  }

  /** The vehicles of an allocation are counted over a concatenation part by part. */
  lemma {:induction false} VehiclesInAppend(vs: seq<DraftVehicle>, extra: seq<DraftVehicle>, id: string)
    ensures VehiclesIn(vs + extra, id) == VehiclesIn(vs, id) + VehiclesIn(extra, id)
    decreases |extra|
  {
    if extra == [] {
      assert vs + extra == vs;
    } else {
      var init := extra[..|extra| - 1];
      VehiclesInAppend(vs, init, id);
      assert (vs + extra)[..|vs + extra| - 1] == vs + init;
      VehiclesInFirstAppend(vs + init, [extra[|extra| - 1]], id, |vs + init|);
      assert vs + init + [extra[|extra| - 1]] == vs + extra;
      VehiclesInFirstAppend(init, [extra[|extra| - 1]], id, |init|);
      assert init + [extra[|extra| - 1]] == extra;
    }
  }

  /** No vehicle of allocation `id` is counted only when none refers to it. */
  lemma {:induction false} VehiclesInZero(vs: seq<DraftVehicle>, id: string, n: nat)
    requires n <= |vs|
    ensures VehiclesInFirst(vs, id, n) == 0 <==> forall i :: 0 <= i < n ==> vs[i].allocationId != id
  {
    if n > 0 {
      VehiclesInZero(vs, id, n - 1);
    }
  }

  // ---------------------------------------------------------------------------
  // Allocation rows
  // ---------------------------------------------------------------------------

  /**
   * `addAllocationRow`: refused without a positive total or with nothing
   * left to allocate; otherwise one row with count 1 and no vendor is appended.
   */
  function AddRow(total: int, allocs: seq<Allocation>, newId: string): (r: Result<seq<Allocation>, string>)
    ensures r.Ok? <==> total > 0 && Allocated(allocs) < total
    ensures r.Ok? ==> r.value == allocs + [Allocation(newId, "", 1)]
  {
    if total <= 0 then Err("Please set Total Vehicles first.")
    else if Remaining(total, allocs) <= 0 then Err("All vehicles are already allocated.")
    else Ok(allocs + [Allocation(newId, "", Min(Remaining(total, allocs), 1))])
  }

  /** A new row never takes the allocated count over the total. */
  lemma AddRowWithinTotal(total: int, allocs: seq<Allocation>, newId: string)
    requires AddRow(total, allocs, newId).Ok?
    ensures Allocated(AddRow(total, allocs, newId).value) == Allocated(allocs) + 1 <= total
  {
    SumByAppend(allocs, Allocation(newId, "", 1), CountOf);
  }

  /** A fresh row id keeps the row ids distinct. */
  lemma AddRowDistinct(total: int, allocs: seq<Allocation>, newId: string)
    requires DistinctBy(allocs, AllocId)
    requires forall i :: 0 <= i < |allocs| ==> allocs[i].id != newId
    requires AddRow(total, allocs, newId).Ok?
    ensures DistinctBy(AddRow(total, allocs, newId).value, AllocId)
  {
  }

  /** `prev.filter(a => a.id !== id).reduce((s, a) => s + a.count, 0)`. */
  function OthersSum(allocs: seq<Allocation>, id: string): int
  {
    if allocs == [] then 0
    else (if allocs[0].id != id then allocs[0].count else 0) + OthersSum(allocs[1..], id)
  }

  /** The count typed in: `Math.max(0, parseInt(raw || "0", 10) || 0)`. */
  function ParsedCount(raw: string): nat
  {
    Max(0, ParseIntOrZero(raw))
  }

  /**
   * `updateAllocationCount`: every row with the given id gets the typed
   * count, cut to what the total leaves after the other rows; other rows are
   * untouched.
   */
  function WithCount(total: int, allocs: seq<Allocation>, id: string, raw: string): (r: seq<Allocation>)
    ensures |r| == |allocs|
    ensures forall i :: 0 <= i < |allocs| && allocs[i].id != id ==> r[i] == allocs[i]
    ensures forall i :: 0 <= i < |allocs| && allocs[i].id == id ==>
              r[i].id == id && r[i].vendorUserId == allocs[i].vendorUserId
              && 0 <= r[i].count <= Max(0, total - OthersSum(allocs, id))
  {
    var next := Min(ParsedCount(raw), Max(0, total - OthersSum(allocs, id)));
    seq(|allocs|, i requires 0 <= i < |allocs| => if allocs[i].id == id then allocs[i].(count := next) else allocs[i])
  }

  /** The typed count is taken as it is when it fits, and cut to the room left when it does not. */
  lemma WithCountTakesRequest(total: int, allocs: seq<Allocation>, id: string, raw: string, k: nat)
    requires k < |allocs| && allocs[k].id == id
    ensures ParsedCount(raw) <= total - OthersSum(allocs, id) ==> WithCount(total, allocs, id, raw)[k].count == ParsedCount(raw)
    ensures ParsedCount(raw) > total - OthersSum(allocs, id) ==> WithCount(total, allocs, id, raw)[k].count == Max(0, total - OthersSum(allocs, id))
  {
  }

  /** With distinct ids, the other rows sum to the total minus the row's own count. */
  lemma {:induction false} OthersSumOfDistinct(allocs: seq<Allocation>, k: nat)
    requires k < |allocs| && DistinctBy(allocs, AllocId)
    ensures OthersSum(allocs, allocs[k].id) == Allocated(allocs) - allocs[k].count
  {
    var id := allocs[k].id;
    if k == 0 {
      OthersSumNone(allocs[1..], id);
    } else {
      assert allocs[1..][k - 1] == allocs[k];
      assert allocs[0].id != id by { assert AllocId(allocs[0]) != AllocId(allocs[k]); }
      OthersSumOfDistinct(allocs[1..], k - 1);
    }
  }

  lemma {:induction false} OthersSumNone(allocs: seq<Allocation>, id: string)
    requires forall i :: 0 <= i < |allocs| ==> allocs[i].id != id
    ensures OthersSum(allocs, id) == Allocated(allocs)
  {
    if allocs != [] {
      OthersSumNone(allocs[1..], id);
    }
  }

  /** Changing one count keeps the allocated count within the total once it is. */
  lemma WithCountWithinTotal(total: int, allocs: seq<Allocation>, id: string, raw: string)
    requires DistinctBy(allocs, AllocId)
    requires forall i :: 0 <= i < |allocs| ==> allocs[i].count >= 0
    requires Allocated(allocs) <= total
    ensures Allocated(WithCount(total, allocs, id, raw)) <= total
  {
    var r := WithCount(total, allocs, id, raw);
    if k :| 0 <= k < |allocs| && allocs[k].id == id {
      OthersSumOfDistinct(allocs, k);
      assert forall i :: 0 <= i < |allocs| && i != k ==> allocs[i].id != id by {
        forall i | 0 <= i < |allocs| && i != k
          ensures allocs[i].id != id
        {
          assert AllocId(allocs[i]) != AllocId(allocs[k]);
        }
      }
      assert r == allocs[k := r[k]];
      SumByUpdate(allocs, k, r[k], CountOf);
    } else {
      assert r == allocs;
    }
  }

  /** The filter in `removeAllocation`. */
  function NotId(id: string): Allocation -> bool
  {
    (a: Allocation) => a.id != id
  }

  /** The rows left once allocation `id` is removed: all others, in order. */
  function WithoutAllocation(allocs: seq<Allocation>, id: string): (r: seq<Allocation>)
    ensures forall i :: 0 <= i < |r| ==> r[i].id != id && r[i] in allocs
    ensures forall i :: 0 <= i < |allocs| && allocs[i].id != id ==> allocs[i] in r
  {
    Filter(allocs, NotId(id))
  }

  /** Every vehicle names an allocation that is still there. */
  predicate Referenced(allocs: seq<Allocation>, vs: seq<DraftVehicle>)
  {
    forall i :: 0 <= i < |vs| ==> exists j :: 0 <= j < |allocs| && allocs[j].id == vs[i].allocationId
  }

  /**
   * Removal is refused while a vehicle refers to the allocation, so it never
   * leaves a vehicle pointing at a removed row.
   */
  lemma RemoveKeepsReferences(allocs: seq<Allocation>, vs: seq<DraftVehicle>, id: string)
    requires Referenced(allocs, vs)
    requires VehiclesIn(vs, id) == 0
    ensures Referenced(WithoutAllocation(allocs, id), vs)
  {
    VehiclesInZero(vs, id, |vs|);
    var r := WithoutAllocation(allocs, id);
    forall i | 0 <= i < |vs|
      ensures exists j :: 0 <= j < |r| && r[j].id == vs[i].allocationId
    {
      var j :| 0 <= j < |allocs| && allocs[j].id == vs[i].allocationId;
      assert allocs[j] in r;
      var m :| 0 <= m < |r| && r[m] == allocs[j];
    }
  }

  /** Removing rows with non-negative counts never raises the allocated count. */
  lemma {:induction false} WithoutAllocationSum(allocs: seq<Allocation>, id: string)
    requires forall i :: 0 <= i < |allocs| ==> allocs[i].count >= 0
    ensures Allocated(WithoutAllocation(allocs, id)) <= Allocated(allocs)
  {
    if allocs != [] {
      WithoutAllocationSum(allocs[1..], id);
      var f := Filter(allocs[1..], NotId(id));
      var h := if allocs[0].id != id then [allocs[0]] else [];
      assert Filter(allocs, NotId(id)) == h + f;
      if allocs[0].id != id {
        assert (h + f)[1..] == f;
      } else {
        assert h + f == f;
      }
    }
  }

  // ---------------------------------------------------------------------------
  // Adding vehicles in a batch
  // ---------------------------------------------------------------------------

  /** `allocations.find(a => a.id === id)`. */
  function FindAllocation(allocs: seq<Allocation>, id: string): (r: Option<Allocation>)
    ensures r.Some? ==> r.value in allocs && r.value.id == id
    ensures r.None? <==> forall i :: 0 <= i < |allocs| ==> allocs[i].id != id
  {
    if allocs == [] then None
    else if allocs[0].id == id then Some(allocs[0])
    else FindAllocation(allocs[1..], id)
  }

  /**
   * `handleOpenAddVehiclesForAllocation`: refused without a total, a vendor,
   * a positive count, or room left; otherwise the panel opens proposing to
   * add exactly the vehicles still missing.
   */
  function OpenAddVehicles(total: int, a: Allocation, already: nat): (r: Result<int, string>)
    ensures r.Ok? <==> total > 0 && a.vendorUserId != "" && a.count > already
    ensures r.Ok? ==> r.value == a.count - already && r.value >= 1
  {
    if total <= 0 then Err("Please enter a valid Total Vehicles first.")
    else if a.vendorUserId == "" then Err("Please select a transporter before adding vehicles.")
    else if a.count <= 0 then Err("Set vehicles count for this transporter.")
    else if a.count - already <= 0 then Err("All vehicles for this transporter are already added.")
    else Ok(a.count - already)
  }

  /** `Math.max(1, Math.min(addCount || 1, remainingHere))`. */
  function BatchSize(addCount: int, remainingHere: int): (n: nat)
    ensures n >= 1
    ensures remainingHere >= 1 ==> n <= remainingHere
    ensures 1 <= addCount <= remainingHere ==> n == addCount
  {
    Max(1, Min(if addCount == 0 then 1 else addCount, remainingHere))
  }

  /** The vehicle number of the `i`-th vehicle of a batch: auto-numbered when the draft holds a `#`. */
  function BatchNumber(d: Draft, already: nat, i: nat): string
  {
    if Includes(d.vehicleNumber, "#") then WithAutoNumber(d.vehicleNumber, i + already) else d.vehicleNumber
  }

  /** The `Array.from({ length: n }, ...)` batch: n copies of the draft under allocation `id`. */
  function Batch(id: string, transporterName: string, d: Draft, already: nat, n: nat): (r: seq<DraftVehicle>)
    ensures |r| == n
    ensures forall i :: 0 <= i < n ==>
              r[i] == DraftVehicle(id, transporterName, d.containerNumber, d.sealNumber,
                                   BatchNumber(d, already, i), d.driverName, d.driverMobile)
  {
    seq(n, i requires 0 <= i < n =>
      DraftVehicle(id, transporterName, d.containerNumber, d.sealNumber,
                   BatchNumber(d, already, i), d.driverName, d.driverMobile))
  }

  datatype SaveOutcome =
    | NoPanel
    | Invalid(errors: map<Field, string>)
    | NoSuchAllocation
    | AlreadyFull
    | Added(batch: seq<DraftVehicle>)

  /** The transporter name written on the batch: the vendor's name, or "Unknown". */
  function NameOf(vendorNames: map<string, string>, vendorUserId: string): string
  {
    if vendorUserId in vendorNames && vendorNames[vendorUserId] != "" then vendorNames[vendorUserId] else "Unknown"
  }

  /**
   * `handleSaveVehicles`: with the panel open and the draft valid, appends a
   * batch for the open allocation of between 1 and the vehicles it still
   * misses; nothing when it is full.
   */
  function Save(allocs: seq<Allocation>, vs: seq<DraftVehicle>, active: Option<string>, d: Draft,
                addCount: int, vendorNames: map<string, string>): (r: SaveOutcome)
    ensures r.Added? ==> active.Some? && ValidateVehicleDraft(d) == map[]
    ensures r.Added? ==> FindAllocation(allocs, active.value).Some?
    ensures r.Added? ==> 1 <= |r.batch| <= FindAllocation(allocs, active.value).value.count - VehiclesIn(vs, active.value)
  {
    match active
    case None => NoPanel
    case Some(id) =>
      var e := ValidateVehicleDraft(d);
      if e != map[] then Invalid(e)
      else match FindAllocation(allocs, id)
        case None => NoSuchAllocation
        case Some(a) =>
          var already := VehiclesIn(vs, id);
          var remainingHere := a.count - already;
          if remainingHere <= 0 then AlreadyFull
          else Added(Batch(id, NameOf(vendorNames, a.vendorUserId), d, already, BatchSize(addCount, remainingHere)))
  }

  /** The vehicles appended by a save. */
  function Appended(r: SaveOutcome): seq<DraftVehicle>
  {
    if r.Added? then r.batch else []
  }

  /** A batch only goes to its own allocation and never takes it past its count. */
  lemma SaveWithinAllocation(allocs: seq<Allocation>, vs: seq<DraftVehicle>, active: Option<string>, d: Draft,
                             addCount: int, vendorNames: map<string, string>, id: string)
    requires FindAllocation(allocs, id).Some?
    requires VehiclesIn(vs, id) <= FindAllocation(allocs, id).value.count
    ensures VehiclesIn(vs + Appended(Save(allocs, vs, active, d, addCount, vendorNames)), id)
            <= FindAllocation(allocs, id).value.count
  {
    var r := Save(allocs, vs, active, d, addCount, vendorNames);
    VehiclesInAppend(vs, Appended(r), id);
    if r.Added? {
      BatchVehiclesIn(r.batch, active.value, id);
    }
  }

  /** The vehicles of a batch for allocation `a` counted under allocation `id`. */
  lemma {:induction false} BatchVehiclesIn(batch: seq<DraftVehicle>, a: string, id: string)
    requires forall i :: 0 <= i < |batch| ==> batch[i].allocationId == a
    ensures VehiclesIn(batch, id) == if a == id then |batch| else 0
  {
    BatchVehiclesInFirst(batch, a, id, |batch|);
  }

  lemma {:induction false} BatchVehiclesInFirst(batch: seq<DraftVehicle>, a: string, id: string, n: nat)
    requires n <= |batch|
    requires forall i :: 0 <= i < |batch| ==> batch[i].allocationId == a
    ensures VehiclesInFirst(batch, id, n) == if a == id then n else 0
  {
    if n > 0 {
      BatchVehiclesInFirst(batch, a, id, n - 1);
    }
  }

  /** Saving after opening the panel, with the proposed count, fills the allocation exactly. */
  lemma OpenThenSaveFills(total: int, allocs: seq<Allocation>, vs: seq<DraftVehicle>, id: string, d: Draft,
                          vendorNames: map<string, string>)
    requires FindAllocation(allocs, id).Some?
    requires OpenAddVehicles(total, FindAllocation(allocs, id).value, VehiclesIn(vs, id)).Ok?
    requires ValidateVehicleDraft(d) == map[]
    ensures var r := Save(allocs, vs, Some(id), d,
                          OpenAddVehicles(total, FindAllocation(allocs, id).value, VehiclesIn(vs, id)).value, vendorNames);
            r.Added? && VehiclesIn(vs + r.batch, id) == FindAllocation(allocs, id).value.count
  {
    var a := FindAllocation(allocs, id).value;
    var r := Save(allocs, vs, Some(id), d, a.count - VehiclesIn(vs, id), vendorNames);
    VehiclesInAppend(vs, r.batch, id);
    BatchVehiclesIn(r.batch, id, id);
  }

  /** Saving never leaves a vehicle without its allocation. */
  lemma SaveKeepsReferences(allocs: seq<Allocation>, vs: seq<DraftVehicle>, active: Option<string>, d: Draft,
                            addCount: int, vendorNames: map<string, string>)
    requires Referenced(allocs, vs)
    ensures Referenced(allocs, vs + Appended(Save(allocs, vs, active, d, addCount, vendorNames)))
  {
    var r := Save(allocs, vs, active, d, addCount, vendorNames);
    var all := vs + Appended(r);
    if r.Added? {
      var a := FindAllocation(allocs, active.value).value;
      var j :| 0 <= j < |allocs| && allocs[j] == a;
      forall i | 0 <= i < |all|
        ensures exists j :: 0 <= j < |allocs| && allocs[j].id == all[i].allocationId
      {
        if i >= |vs| {
          assert all[i] == r.batch[i - |vs|];
          assert allocs[j].id == all[i].allocationId;
        } else {
          assert all[i] == vs[i];
        }
      }
    } else {
      assert all == vs;
    }
  }

  /** The vehicles of one auto-numbered batch carry pairwise different numbers. */
  lemma BatchNumbersDistinct(d: Draft, already: nat, i: nat, j: nat)
    requires Includes(d.vehicleNumber, "#")
    requires i != j
    ensures BatchNumber(d, already, i) != BatchNumber(d, already, j)
  {
    IncludesHash(d.vehicleNumber);
    AutoNumberInjective(d.vehicleNumber, i + already, j + already);
  }

  // ---------------------------------------------------------------------------
  // Readiness
  // ---------------------------------------------------------------------------

  /**
   * `isReadyToSubmit`: a positive total, fully allocated, every allocation
   * holding exactly its count of vehicles, and as many vehicles as the total.
   */
  predicate ReadyToSubmit(total: int, allocs: seq<Allocation>, vs: seq<DraftVehicle>)
  {
    total > 0 && Allocated(allocs) == total
    && (forall i :: 0 <= i < |allocs| ==> VehiclesIn(vs, allocs[i].id) == allocs[i].count)
    && |vs| == total
  }

  /** The vehicles of allocation `a`, as a measure of allocations. */
  function InAlloc(vs: seq<DraftVehicle>): Allocation -> int
  {
    (a: Allocation) => VehiclesIn(vs, a.id)
  }

  function Ids(allocs: seq<Allocation>): set<string>
  {
    set i | 0 <= i < |allocs| :: allocs[i].id
  }

  /** The vehicles among the first `n` whose allocation id is outside `ids`. */
  function OutsideFirst(vs: seq<DraftVehicle>, ids: set<string>, n: nat): nat
    requires n <= |vs|
  {
    if n == 0 then 0 else OutsideFirst(vs, ids, n - 1) + (if vs[n - 1].allocationId in ids then 0 else 1)
  }

  lemma {:induction false} OutsideNone(vs: seq<DraftVehicle>, n: nat)
    requires n <= |vs|
    ensures OutsideFirst(vs, {}, n) == n
  {
    if n > 0 {
      OutsideNone(vs, n - 1);
    }
  }

  /** Adding an id to the set moves that allocation's vehicles out of the outside count. */
  lemma {:induction false} OutsideSplit(vs: seq<DraftVehicle>, ids: set<string>, x: string, n: nat)
    requires n <= |vs| && x !in ids
    ensures OutsideFirst(vs, ids, n) == VehiclesInFirst(vs, x, n) + OutsideFirst(vs, ids + {x}, n)
  {
    if n > 0 {
      OutsideSplit(vs, ids, x, n - 1);
    }
  }

  lemma {:induction false} OutsideZero(vs: seq<DraftVehicle>, ids: set<string>, n: nat)
    requires n <= |vs|
    requires OutsideFirst(vs, ids, n) == 0
    ensures forall i :: 0 <= i < n ==> vs[i].allocationId in ids
  {
    if n > 0 {
      OutsideZero(vs, ids, n - 1);
    }
  }

  /** With distinct ids, each vehicle is counted by at most one allocation or as outside. */
  lemma {:induction false} VehiclesPartition(allocs: seq<Allocation>, vs: seq<DraftVehicle>)
    requires DistinctBy(allocs, AllocId)
    ensures SumBy(allocs, InAlloc(vs)) + OutsideFirst(vs, Ids(allocs), |vs|) == |vs|
    decreases |allocs|
  {
    if allocs == [] {
      assert Ids(allocs) == {};
      OutsideNone(vs, |vs|);
    } else {
      var init := allocs[..|allocs| - 1];
      var a := allocs[|allocs| - 1];
      assert allocs == init + [a];
      VehiclesPartition(init, vs);
      SumByAppend(init, a, InAlloc(vs));
      assert Ids(allocs) == Ids(init) + {a.id};
      assert a.id !in Ids(init) by {
        forall i | 0 <= i < |init|
          ensures init[i].id != a.id
        {
          assert AllocId(allocs[i]) != AllocId(allocs[|allocs| - 1]);
        }
      }
      OutsideSplit(vs, Ids(init), a.id, |vs|);
    }
  }

  lemma {:induction false} SumByInAlloc(allocs: seq<Allocation>, vs: seq<DraftVehicle>)
    requires forall i :: 0 <= i < |allocs| ==> VehiclesIn(vs, allocs[i].id) == allocs[i].count
    ensures SumBy(allocs, InAlloc(vs)) == Allocated(allocs)
  {
    if allocs != [] {
      SumByInAlloc(allocs[1..], vs);
    }
  }

  /** A form ready to submit has every vehicle under one of its (distinct) allocations. */
  lemma ReadyMeansAllAllocated(total: int, allocs: seq<Allocation>, vs: seq<DraftVehicle>)
    requires ReadyToSubmit(total, allocs, vs)
    requires DistinctBy(allocs, AllocId)
    ensures Referenced(allocs, vs)
  {
    VehiclesPartition(allocs, vs);
    SumByInAlloc(allocs, vs);
    OutsideZero(vs, Ids(allocs), |vs|);
    forall i | 0 <= i < |vs|
      ensures exists j :: 0 <= j < |allocs| && allocs[j].id == vs[i].allocationId
    {
      assert vs[i].allocationId in Ids(allocs);
    }
  }

  // ---------------------------------------------------------------------------
  // The component's state
  // ---------------------------------------------------------------------------

  class Creator {
    /** The "Total Vehicles" booking field, as typed. */
    var vehicalQty: string
    var allocations: seq<Allocation>
    var vehicles: seq<DraftVehicle>

    constructor ()
      ensures vehicalQty == "" && allocations == [] && vehicles == []
    {
      vehicalQty := "";
      allocations := [];
      vehicles := [];
    }

    /** `totalVehicles`: `parseInt(vehicalQty || "0", 10) || 0`. */
    function TotalVehicles(): int
      reads this
    {
      ParseIntOrZero(vehicalQty)
    }

    method SetVehicleQty(qty: string)
      modifies this`vehicalQty
      ensures vehicalQty == qty
    {
      vehicalQty := qty;
    }

    /** `addAllocationRow`, with the random row id as a parameter; a refusal returns its warning. */
    method AddAllocationRow(newId: string) returns (warning: Option<string>)
      modifies this`allocations
      ensures var r := AddRow(TotalVehicles(), old(allocations), newId);
              if r.Ok? then allocations == r.value && warning == None
              else allocations == old(allocations) && warning == Some(r.error)
    {
      var r := AddRow(TotalVehicles(), allocations, newId);
      if r.Ok? {
        allocations := r.value;
        warning := None;
      } else {
        warning := Some(r.error);
      }
    }

    method UpdateAllocationCount(id: string, raw: string)
      modifies this`allocations
      ensures allocations == WithCount(TotalVehicles(), old(allocations), id, raw)
    {
      allocations := WithCount(TotalVehicles(), allocations, id, raw);
    }

    /** `removeAllocation`: refused while a vehicle refers to the allocation. */
    method RemoveAllocation(id: string) returns (refused: bool)
      modifies this`allocations
      ensures refused <==> VehiclesIn(vehicles, id) > 0
      ensures refused ==> allocations == old(allocations)
      ensures !refused ==> allocations == WithoutAllocation(old(allocations), id)
    {
      var counts := VehicleCountByAllocation(vehicles);
      refused := Lookup(counts, id) > 0;
      if !refused {
        allocations := WithoutAllocation(allocations, id);
      }
    }

    /** `handleSaveVehicles` for the open panel `active`, with the vendors' names. */
    method SaveVehicles(active: Option<string>, d: Draft, addCount: int, vendorNames: map<string, string>)
      returns (outcome: SaveOutcome)
      modifies this`vehicles
      ensures outcome == Save(allocations, old(vehicles), active, d, addCount, vendorNames)
      ensures vehicles == old(vehicles) + Appended(outcome)
    {
      if active.None? {
        return NoPanel;
      }
      var id := active.value;
      var e := ValidateVehicleDraft(d);
      if e != map[] {
        return Invalid(e);
      }
      var found := FindAllocation(allocations, id);
      if found.None? {
        return NoSuchAllocation;
      }
      var counts := VehicleCountByAllocation(vehicles);
      var already := Lookup(counts, id);
      var remainingHere := found.value.count - already;
      if remainingHere <= 0 {
        return AlreadyFull;
      }
      var batch := Batch(id, NameOf(vendorNames, found.value.vendorUserId), d, already, BatchSize(addCount, remainingHere));
      vehicles := vehicles + batch;
      outcome := Added(batch);
    }

    /** `isReadyToSubmit`, over the counts dictionary. */
    method IsReadyToSubmit() returns (ready: bool)
      ensures ready <==> ReadyToSubmit(TotalVehicles(), allocations, vehicles)
    {
      var counts := VehicleCountByAllocation(vehicles);
      var total := TotalVehicles();
      var every := forall j :: 0 <= j < |allocations| ==> Lookup(counts, allocations[j].id) == allocations[j].count;
      ready := total > 0 && Allocated(allocations) == total && every && |vehicles| == total;
    }
  }
}
