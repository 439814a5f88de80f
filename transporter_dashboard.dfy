/**
 * The transporter's booking screen (src/components/TransporterDashboard.tsx):
 * the overview counts over the bookings, and the vendor allocation editor,
 * whose values live in one flat dictionary keyed `${bookingId}_${vendorId}`
 * and which locks a booking once its allocations are saved.
 *
 * A JavaScript object keeps its string keys in insertion order and holds
 * each key once, so the dictionary is a sequence of entries with distinct
 * keys; writing an existing key keeps its place, a new key is appended.
 */
module TransporterDashboard {
  import opened Common
  import opened Sorting

  datatype VendorAllocation = VendorAllocation(vendorId: string, vendorName: string, vehicleCount: int)

  datatype Booking = Booking(id: string, vehicalQty: int, vendorAllocations: seq<VendorAllocation>)

  datatype Vendor = Vendor(id: string, name: string)

  // ---------------------------------------------------------------------------
  // Overview
  // ---------------------------------------------------------------------------

  function VehicleCount(va: VendorAllocation): int { va.vehicleCount }

  /** The vehicles a booking's stored allocations hand out. */
  function AllocatedFor(b: Booking): int
  {
    SumBy(b.vendorAllocations, VehicleCount)
  }

  /** "Allocation already completed": a positive quantity, fully handed out. */
  predicate AllocationCompleted(b: Booking)
  {
    b.vehicalQty > 0 && AllocatedFor(b) >= b.vehicalQty
  }

  predicate AllocationOpen(b: Booking)
  {
    !AllocationCompleted(b)
  }

  /** `completedAllocations`: the reduce over the bookings. */
  function CompletedAllocations(bookings: seq<Booking>): (n: nat)
    ensures n <= |bookings|
  {
    if bookings == [] then 0
    else (if AllocationCompleted(bookings[0]) then 1 else 0) + CompletedAllocations(bookings[1..])
  }

  /** `pendingAllocations`: `Math.max(0, totalForms - completedAllocations)`. */
  function PendingAllocations(bookings: seq<Booking>): nat
  {
    Max(0, |bookings| - CompletedAllocations(bookings))
  }

  /** The completed count is the number of completed bookings, the pending count the number of the others. */
  lemma {:induction false} OverviewCounts(bookings: seq<Booking>)
    ensures CompletedAllocations(bookings) == Count(bookings, AllocationCompleted)
    ensures PendingAllocations(bookings) == Count(bookings, AllocationOpen)
  {
    if bookings != [] {
      OverviewCounts(bookings[1..]);
      var b := bookings[0];
      assert Filter(bookings, AllocationCompleted)
          == (if AllocationCompleted(b) then [b] else []) + Filter(bookings[1..], AllocationCompleted);
      assert Filter(bookings, AllocationOpen)
          == (if AllocationOpen(b) then [b] else []) + Filter(bookings[1..], AllocationOpen);
    }
  }

  // ---------------------------------------------------------------------------
  // The allocation dictionary
  // ---------------------------------------------------------------------------

  datatype Entry = Entry(key: string, value: int)

  /** `${bookingId}_${vendorId}`. */
  function Key(bookingId: string, vendorId: string): string
  {
    bookingId + "_" + vendorId
  }

  /** The prefix shared by every key of one booking. */
  function Prefix(bookingId: string): string
  {
    bookingId + "_"
  }

  lemma KeyHasPrefix(bookingId: string, vendorId: string)
    ensures StartsWith(Key(bookingId, vendorId), Prefix(bookingId))
  {
    assert Key(bookingId, vendorId)[..|Prefix(bookingId)|] == Prefix(bookingId);
  }

  /** Two vendors of one booking never share a key. */
  lemma KeyInjective(bookingId: string, v1: string, v2: string)
    requires Key(bookingId, v1) == Key(bookingId, v2)
    ensures v1 == v2
  {
    var p := Prefix(bookingId);
    assert Key(bookingId, v1) == p + v1 && Key(bookingId, v2) == p + v2;
    assert v1 == (p + v1)[|p|..];
    assert v2 == (p + v2)[|p|..];
  }

  predicate KeysDistinct(m: seq<Entry>)
  {
    forall i, j :: 0 <= i < j < |m| ==> m[i].key != m[j].key
  }

  predicate NonNegative(m: seq<Entry>)
  {
    forall i :: 0 <= i < |m| ==> m[i].value >= 0
  }

  /** The position of key `k`, or `|m|`. */
  function Find(m: seq<Entry>, k: string): (i: nat)
    ensures i <= |m|
    ensures i < |m| ==> m[i].key == k
  {
    if m == [] || m[0].key == k then 0 else 1 + Find(m[1..], k)
  }

  lemma {:induction false} FindFirst(m: seq<Entry>, k: string)
    ensures forall j :: 0 <= j < Find(m, k) ==> m[j].key != k
  {
    if m != [] && m[0].key != k {
      FindFirst(m[1..], k);
    }
  }

  /** With distinct keys, a key is found exactly where it is. */
  lemma FindAt(m: seq<Entry>, j: nat)
    requires KeysDistinct(m) && j < |m|
    ensures Find(m, m[j].key) == j
  {
    FindFirst(m, m[j].key);
  }

  /** `m[k] || 0`. */
  function Get(m: seq<Entry>, k: string): int
  {
    var i := Find(m, k);
    if i < |m| then m[i].value else 0
  }

  /** `{ ...m, [k]: v }`. */
  function Set(m: seq<Entry>, k: string, v: int): (r: seq<Entry>)
    ensures Find(m, k) < |m| ==> |r| == |m|
    ensures Find(m, k) == |m| ==> |r| == |m| + 1
  {
    var i := Find(m, k);
    if i < |m| then m[i := Entry(k, v)] else m + [Entry(k, v)]
  }

  /** A position holding the key with no earlier occurrence is where `Find` stops. */
  lemma {:induction false} FindIs(m: seq<Entry>, k: string, i: nat)
    requires i <= |m| && (i < |m| ==> m[i].key == k)
    requires forall t :: 0 <= t < i ==> m[t].key != k
    ensures Find(m, k) == i
  {
    if i > 0 {
      FindIs(m[1..], k, i - 1);
    }
  }

  /** After writing a key, reading it gives the value written. */
  lemma SetGet(m: seq<Entry>, k: string, v: int)
    ensures Get(Set(m, k, v), k) == v
  {
    FindFirst(m, k);
    FindIs(Set(m, k, v), k, Find(m, k));
  }

  /** Writing a key leaves every other key's value as it was. */
  lemma SetOthers(m: seq<Entry>, k: string, v: int, k': string)
    requires k' != k
    ensures Get(Set(m, k, v), k') == Get(m, k')
  {
    var r := Set(m, k, v);
    FindFirst(m, k');
    if Find(m, k') < |m| {
      FindIs(r, k', Find(m, k'));
    } else {
      FindIs(r, k', |r|);
    }
  }

  lemma SetDistinct(m: seq<Entry>, k: string, v: int)
    requires KeysDistinct(m)
    ensures KeysDistinct(Set(m, k, v))
  {
    FindFirst(m, k);
  }

  lemma SetNonNegative(m: seq<Entry>, k: string, v: int)
    requires NonNegative(m) && v >= 0
    ensures NonNegative(Set(m, k, v))
  {
  }

  /** The sum of the first `n` values whose key starts with `prefix`. */
  function BookingSumFirst(m: seq<Entry>, prefix: string, n: nat): int
    requires n <= |m|
  {
    if n == 0 then 0
    else BookingSumFirst(m, prefix, n - 1) + (if StartsWith(m[n - 1].key, prefix) then m[n - 1].value else 0)
  }

  /** The booking's allocated total, as the save bar sums it. */
  function BookingSum(m: seq<Entry>, prefix: string): int
  {
    BookingSumFirst(m, prefix, |m|)
  }

  /** The sum of the first `n` values under `prefix` other than key `key`'s. */
  function OthersSumFirst(m: seq<Entry>, prefix: string, key: string, n: nat): int
    requires n <= |m|
  {
    if n == 0 then 0
    else OthersSumFirst(m, prefix, key, n - 1)
         + (if StartsWith(m[n - 1].key, prefix) && m[n - 1].key != key then m[n - 1].value else 0)
  }

  /** `othersSum` of `handleAllocationChange`. */
  function OthersSum(m: seq<Entry>, prefix: string, key: string): int
  {
    OthersSumFirst(m, prefix, key, |m|)
  }

  /** The sum of the first `n` values stored under key `key`. */
  function KeySumFirst(m: seq<Entry>, key: string, n: nat): int
    requires n <= |m|
  {
    if n == 0 then 0 else KeySumFirst(m, key, n - 1) + (if m[n - 1].key == key then m[n - 1].value else 0)
  }

  /** A booking's total is its other keys' total plus the key's own value. */
  lemma {:induction false} BookingSplit(m: seq<Entry>, prefix: string, key: string, n: nat)
    requires n <= |m| && StartsWith(key, prefix)
    ensures BookingSumFirst(m, prefix, n) == OthersSumFirst(m, prefix, key, n) + KeySumFirst(m, key, n)
  {
    if n > 0 {
      BookingSplit(m, prefix, key, n - 1);
    }
  }

  /** With distinct keys, summing one key's values is reading it. */
  lemma {:induction false} KeySumIsGet(m: seq<Entry>, key: string, n: nat)
    requires n <= |m| && KeysDistinct(m)
    ensures KeySumFirst(m, key, n) == if Find(m, key) < n then m[Find(m, key)].value else 0
  {
    if n > 0 {
      KeySumIsGet(m, key, n - 1);
      if m[n - 1].key == key {
        FindAt(m, n - 1);
      }
    }
  }

  lemma {:induction false} OthersSumUpdate(m: seq<Entry>, prefix: string, key: string, i: nat, v: int, n: nat)
    requires i < |m| && m[i].key == key && n <= |m|
    ensures OthersSumFirst(m[i := Entry(key, v)], prefix, key, n) == OthersSumFirst(m, prefix, key, n)
  {
    if n > 0 {
      OthersSumUpdate(m, prefix, key, i, v, n - 1);
    }
  }

  lemma {:induction false} OthersSumAppend(m: seq<Entry>, prefix: string, key: string, e: Entry, n: nat)
    requires n <= |m|
    ensures OthersSumFirst(m + [e], prefix, key, n) == OthersSumFirst(m, prefix, key, n)
  {
    if n > 0 {
      OthersSumAppend(m, prefix, key, e, n - 1);
    }
  }

  /** Writing a key under the prefix makes the booking's total its other keys' total plus the new value. */
  lemma SetBookingSum(m: seq<Entry>, prefix: string, key: string, v: int)
    requires KeysDistinct(m) && StartsWith(key, prefix)
    ensures BookingSum(Set(m, key, v), prefix) == OthersSum(m, prefix, key) + v
  {
    var r := Set(m, key, v);
    SetDistinct(m, key, v);
    SetGet(m, key, v);
    BookingSplit(r, prefix, key, |r|);
    KeySumIsGet(r, key, |r|);
    var i := Find(m, key);
    if i < |m| {
      OthersSumUpdate(m, prefix, key, i, v, |m|);
    } else {
      OthersSumAppend(m, prefix, key, Entry(key, v), |m|);
    }
  }

  // ---------------------------------------------------------------------------
  // Editing one vendor's count
  // ---------------------------------------------------------------------------

  /** `Math.max(0, Math.min(count || 0, maxForThis))`. */
  function Clamp(count: int, cap: int): (r: int)
    ensures 0 <= r
    ensures cap >= 0 ==> r <= cap
    ensures 0 <= count <= cap ==> r == count
  {
    Max(0, Min(count, cap))
  }

  /** The room left for one vendor: `Math.max(0, totalAllowed - othersSum)`. */
  function Room(m: seq<Entry>, bookingId: string, vendorId: string, totalAllowed: int): nat
  {
    Max(0, totalAllowed - OthersSum(m, Prefix(bookingId), Key(bookingId, vendorId)))
  }

  /**
   * The dictionary after `handleAllocationChange`: unchanged for a locked
   * booking, otherwise the vendor's key holds the count cut to the room left.
   */
  function Changed(m: seq<Entry>, locked: set<string>, bookingId: string, vendorId: string,
                   count: int, totalAllowed: int): seq<Entry>
  {
    if bookingId in locked then m
    else Set(m, Key(bookingId, vendorId), Clamp(count, Room(m, bookingId, vendorId, totalAllowed)))
  }

  /**
   * On an unlocked booking the vendor's value becomes the count when it fits
   * the room left and the room otherwise; every other key keeps its value.
   */
  lemma ChangeEffect(m: seq<Entry>, locked: set<string>, bookingId: string, vendorId: string,
                     count: int, totalAllowed: int, k: string)
    requires bookingId !in locked
    ensures var r := Changed(m, locked, bookingId, vendorId, count, totalAllowed);
            var room := Room(m, bookingId, vendorId, totalAllowed);
            && (0 <= count <= room ==> Get(r, Key(bookingId, vendorId)) == count)
            && (count > room ==> Get(r, Key(bookingId, vendorId)) == room)
            && (count < 0 ==> Get(r, Key(bookingId, vendorId)) == 0)
            && (k != Key(bookingId, vendorId) ==> Get(r, k) == Get(m, k))
  {
    SetGet(m, Key(bookingId, vendorId), Clamp(count, Room(m, bookingId, vendorId, totalAllowed)));
    if k != Key(bookingId, vendorId) {
      SetOthers(m, Key(bookingId, vendorId), Clamp(count, Room(m, bookingId, vendorId, totalAllowed)), k);
    }
  }

  /** Edits keep a booking's allocated total within its quantity once it is. */
  lemma ChangeWithinQty(m: seq<Entry>, locked: set<string>, bookingId: string, vendorId: string,
                        count: int, qty: int)
    requires KeysDistinct(m) && NonNegative(m)
    requires BookingSum(m, Prefix(bookingId)) <= qty
    ensures BookingSum(Changed(m, locked, bookingId, vendorId, count, qty), Prefix(bookingId)) <= qty
    ensures NonNegative(Changed(m, locked, bookingId, vendorId, count, qty))
    ensures KeysDistinct(Changed(m, locked, bookingId, vendorId, count, qty))
  {
    if bookingId !in locked {
      var key, prefix := Key(bookingId, vendorId), Prefix(bookingId);
      var v := Clamp(count, Room(m, bookingId, vendorId, qty));
      KeyHasPrefix(bookingId, vendorId);
      SetBookingSum(m, prefix, key, v);
      BookingSplit(m, prefix, key, |m|);
      KeySumIsGet(m, key, |m|);
      SetNonNegative(m, key, v);
      SetDistinct(m, key, v);
    }
  }

  /** The booking a change refers to: the open one if it matches, else the first in the list. */
  function FindBooking(bookings: seq<Booking>, bookingId: string): (r: Option<Booking>)
    ensures r.Some? ==> r.value in bookings && r.value.id == bookingId
    ensures r.None? ==> forall i :: 0 <= i < |bookings| ==> bookings[i].id != bookingId
  {
    if bookings == [] then None
    else if bookings[0].id == bookingId then Some(bookings[0])
    else FindBooking(bookings[1..], bookingId)
  }

  /** `totalAllowed`: the quantity of the booking being edited, 0 when it is not found. */
  function TotalAllowed(selected: Option<Booking>, bookings: seq<Booking>, bookingId: string): (q: int)
    ensures selected.Some? && selected.value.id == bookingId ==> q == selected.value.vehicalQty
    ensures (selected.None? || selected.value.id != bookingId) && FindBooking(bookings, bookingId).None? ==> q == 0
  {
    if selected.Some? && selected.value.id == bookingId then selected.value.vehicalQty
    else match FindBooking(bookings, bookingId)
      case Some(b) => b.vehicalQty
      case None => 0
  }

  // ---------------------------------------------------------------------------
  // Prefill and save
  // ---------------------------------------------------------------------------

  /** The dictionary after the first `n` stored allocations are copied in, skipping empty vendor ids. */
  function PrefilledFirst(m: seq<Entry>, bookingId: string, vas: seq<VendorAllocation>, n: nat): seq<Entry>
    requires n <= |vas|
  {
    if n == 0 then m
    else
      var r := PrefilledFirst(m, bookingId, vas, n - 1);
      if vas[n - 1].vendorId == "" then r else Set(r, Key(bookingId, vas[n - 1].vendorId), vas[n - 1].vehicleCount)
  }

  /** A key no prefilled allocation writes keeps its value; in particular the empty vendor id is skipped. */
  lemma {:induction false} PrefillKeeps(m: seq<Entry>, bookingId: string, vas: seq<VendorAllocation>, n: nat, k: string)
    requires n <= |vas|
    requires forall j :: 0 <= j < n && vas[j].vendorId != "" ==> Key(bookingId, vas[j].vendorId) != k
    ensures Get(PrefilledFirst(m, bookingId, vas, n), k) == Get(m, k)
  {
    if n > 0 {
      PrefillKeeps(m, bookingId, vas, n - 1, k);
      if vas[n - 1].vendorId != "" {
        SetOthers(PrefilledFirst(m, bookingId, vas, n - 1), Key(bookingId, vas[n - 1].vendorId),
                  vas[n - 1].vehicleCount, k);
      }
    }
  }

  /** With distinct vendor ids, every stored allocation with a vendor is readable under its key. */
  lemma {:induction false} PrefillSets(m: seq<Entry>, bookingId: string, vas: seq<VendorAllocation>, n: nat, j: nat)
    requires j < n <= |vas|
    requires vas[j].vendorId != ""
    requires forall a, b :: 0 <= a < b < |vas| ==> vas[a].vendorId != vas[b].vendorId
    ensures Get(PrefilledFirst(m, bookingId, vas, n), Key(bookingId, vas[j].vendorId)) == vas[j].vehicleCount
  {
    if j == n - 1 {
      SetGet(PrefilledFirst(m, bookingId, vas, n - 1), Key(bookingId, vas[j].vendorId), vas[j].vehicleCount);
    } else {
      PrefillSets(m, bookingId, vas, n - 1, j);
      if vas[n - 1].vendorId != "" {
        if Key(bookingId, vas[n - 1].vendorId) == Key(bookingId, vas[j].vendorId) {
          KeyInjective(bookingId, vas[n - 1].vendorId, vas[j].vendorId);
        }
        SetOthers(PrefilledFirst(m, bookingId, vas, n - 1), Key(bookingId, vas[n - 1].vendorId),
                  vas[n - 1].vehicleCount, Key(bookingId, vas[j].vendorId));
      }
    }
  }

  datatype VendorCount = VendorCount(vendorId: string, vehicleCount: int)

  /** The save payload: one entry per vendor, in the vendors' order, 0 where nothing is set. */
  function SavePayload(vendors: seq<Vendor>, m: seq<Entry>, bookingId: string): (r: seq<VendorCount>)
    ensures |r| == |vendors|
    ensures forall i :: 0 <= i < |vendors| ==>
              r[i].vendorId == vendors[i].id && r[i].vehicleCount == Get(m, Key(bookingId, vendors[i].id))
  {
    seq(|vendors|, i requires 0 <= i < |vendors| => VendorCount(vendors[i].id, Get(m, Key(bookingId, vendors[i].id))))
  }

  /** A vendor without a key in the dictionary is sent with 0. */
  lemma PayloadDefaultsToZero(vendors: seq<Vendor>, m: seq<Entry>, bookingId: string, i: nat)
    requires i < |vendors|
    requires forall j :: 0 <= j < |m| ==> m[j].key != Key(bookingId, vendors[i].id)
    ensures SavePayload(vendors, m, bookingId)[i].vehicleCount == 0
  {
    FindFirst(m, Key(bookingId, vendors[i].id));
  }

  /** The save button: enabled unless the allocated total exceeds the quantity or the booking is locked. */
  predicate SaveEnabled(m: seq<Entry>, locked: set<string>, b: Booking)
  {
    BookingSum(m, Prefix(b.id)) <= b.vehicalQty && b.id !in locked
  }

  // ---------------------------------------------------------------------------
  // The component's state
  // ---------------------------------------------------------------------------

  class Dashboard {
    var bookings: seq<Booking>
    var vendors: seq<Vendor>
    var selectedBooking: Option<Booking>
    var vendorAllocations: seq<Entry>
    var lockedBookings: set<string>

    constructor (bookings: seq<Booking>, vendors: seq<Vendor>)
      ensures this.bookings == bookings && this.vendors == vendors
      ensures selectedBooking == None && vendorAllocations == [] && lockedBookings == {}
    {
      this.bookings := bookings;
      this.vendors := vendors;
      selectedBooking := None;
      vendorAllocations := [];
      lockedBookings := {};
    }

    /** Opening a booking prefills its stored allocations into the dictionary. */
    method OpenBooking(b: Booking)
      modifies this`selectedBooking, this`vendorAllocations
      ensures selectedBooking == Some(b)
      ensures vendorAllocations == PrefilledFirst(old(vendorAllocations), b.id, b.vendorAllocations, |b.vendorAllocations|)
    {
      selectedBooking := Some(b);
      var next := vendorAllocations;
      var i := 0;
      while i < |b.vendorAllocations|
        invariant i <= |b.vendorAllocations|
        invariant next == PrefilledFirst(old(vendorAllocations), b.id, b.vendorAllocations, i)
      {
        var va := b.vendorAllocations[i];
        if va.vendorId != "" {
          next := Set(next, Key(b.id, va.vendorId), va.vehicleCount);
        }
        i := i + 1;
      }
      vendorAllocations := next;
    }

    /** `handleAllocationChange`. */
    method HandleAllocationChange(bookingId: string, vendorId: string, count: int)
      modifies this`vendorAllocations
      ensures vendorAllocations
              == Changed(old(vendorAllocations), lockedBookings, bookingId, vendorId, count,
                         TotalAllowed(selectedBooking, bookings, bookingId))
    {
      if bookingId in lockedBookings {
        return;
      }
      var key, prefix := Key(bookingId, vendorId), Prefix(bookingId);
      var totalAllowed := TotalAllowed(selectedBooking, bookings, bookingId);
      var othersSum := 0;
      var i := 0;
      while i < |vendorAllocations|
        invariant i <= |vendorAllocations|
        invariant othersSum == OthersSumFirst(vendorAllocations, prefix, key, i)
      {
        var e := vendorAllocations[i];
        if StartsWith(e.key, prefix) && e.key != key {
          othersSum := othersSum + e.value;
        }
        i := i + 1;
      }
      var maxForThis := Max(0, totalAllowed - othersSum);
      vendorAllocations := Set(vendorAllocations, key, Clamp(count, maxForThis));
    }

    /** The save bar's `Allocated {sum} of {totalAllowed}` and whether its button is enabled. */
    method SaveBar(b: Booking) returns (sum: int, enabled: bool)
      ensures sum == BookingSum(vendorAllocations, Prefix(b.id))
      ensures enabled <==> SaveEnabled(vendorAllocations, lockedBookings, b)
    {
      var prefix := Prefix(b.id);
      sum := 0;
      var i := 0;
      while i < |vendorAllocations|
        invariant i <= |vendorAllocations|
        invariant sum == BookingSumFirst(vendorAllocations, prefix, i)
      {
        if StartsWith(vendorAllocations[i].key, prefix) {
          sum := sum + vendorAllocations[i].value;
        }
        i := i + 1;
      }
      enabled := !(sum > b.vehicalQty) && b.id !in lockedBookings;
    }

    /**
     * `saveVendorAllocations`: after the confirmation, sends one count per
     * vendor; the booking locks when the server accepts them.
     */
    method SaveVendorAllocations(b: Booking, confirmed: bool, accepted: bool) returns (sent: Option<seq<VendorCount>>)
      modifies this`lockedBookings
      ensures !confirmed ==> sent == None
      ensures confirmed ==> sent == Some(SavePayload(vendors, vendorAllocations, b.id))
      ensures lockedBookings == if confirmed && accepted then old(lockedBookings) + {b.id} else old(lockedBookings)
    {
      if !confirmed {
        return None;
      }
      sent := Some(SavePayload(vendors, vendorAllocations, b.id));
      if accepted {
        lockedBookings := lockedBookings + {b.id};
      }
    }
  }

  /** Once saved, a booking's save button stays disabled and its counts no longer change. */
  lemma LockedIsFinal(m: seq<Entry>, locked: set<string>, b: Booking, vendorId: string, count: int, totalAllowed: int)
    requires b.id in locked
    ensures !SaveEnabled(m, locked, b)
    ensures Changed(m, locked, b.id, vendorId, count, totalAllowed) == m
  {
  }
}
