/**
 * Containers of a form (convex/containers.ts): the container-number check,
 * adding, updating and removing containers, and assigning vendors to them.
 *
 * The number check is the application's own simplification of the ISO 6346
 * check digit: letters count `A = 10, B = 11, …` (character code minus 55)
 * and the weighted sum is reduced modulo 11 only.
 */
module Containers {
  import opened Common
  import opened Tables
  import opened Schema
  import opened Users
  import opened Forms
  import opened FormsLifecycle

  // ---------------------------------------------------------------------------
  // validateISO6346
  // ---------------------------------------------------------------------------

  /** `/^[A-Z]{4}[0-9]{7}$/`: four capital letters, then seven digits. */
  predicate WellFormedNumber(s: string)
  {
    |s| == 11 && (forall i :: 0 <= i < 4 ==> IsUpper(s[i])) && (forall i :: 4 <= i < 11 ==> IsDigit(s[i]))
  }

  function Pow2(n: nat): (r: nat)
    ensures r >= 1
  {
    if n == 0 then 1 else 2 * Pow2(n - 1)
  }

  /** `charCodeAt(i) - 55`. */
  function LetterValue(c: char): int
  {
    c as int - 55
  }

  /** The weighted value of the first `n` letters: letter `i` weighs `2^i`. */
  function LetterSum(s: string, n: nat): int
    requires n <= 4 && WellFormedNumber(s)
  {
    if n == 0 then 0 else LetterSum(s, n - 1) + LetterValue(s[n - 1]) * Pow2(n - 1)
  }

  /** The weighted value of the first `n` serial digits: digit `i` weighs `2^(i+4)`. */
  function DigitSum(s: string, n: nat): int
    requires n <= 6 && WellFormedNumber(s)
  {
    if n == 0 then 0 else DigitSum(s, n - 1) + DigitOf(s[4 + n - 1]) * Pow2(n + 3)
  }

  /** The remainder the eleventh character has to match. */
  function CheckRemainder(s: string): int
    requires WellFormedNumber(s)
  {
    (LetterSum(s, 4) + DigitSum(s, 6)) % 11
  }

  /** The numbers `validateISO6346` accepts. */
  predicate IsValidNumber(s: string)
  {
    WellFormedNumber(s) && CheckRemainder(s) == DigitOf(s[10])
  }

  /**
   * `validateISO6346`: reject anything but four letters and seven digits,
   * then add up the weighted letters and the six serial digits and compare
   * the sum modulo 11 with the last digit.
   */
  method ValidateIso6346(s: string) returns (valid: bool)
    ensures valid <==> IsValidNumber(s)
    ensures !WellFormedNumber(s) ==> !valid
  {
    if !WellFormedNumber(s) {
      return false;
    }
    var sum := 0;
    for i := 0 to 4
      invariant sum == LetterSum(s, i)
    {
      sum := sum + LetterValue(s[i]) * Pow2(i);
    }
    for i := 0 to 6
      invariant sum == LetterSum(s, 4) + DigitSum(s, i)
    {
      sum := sum + DigitOf(s[4 + i]) * Pow2(i + 4);
    }
    valid := sum % 11 == DigitOf(s[10]);
  }

  /** A sum whose remainder is 10 matches no digit: no such number is ever valid. */
  lemma RemainderTenNeverValid(s: string)
    requires WellFormedNumber(s) && CheckRemainder(s) == 10
    ensures !IsValidNumber(s)
  {
  }

  /** The sums read only the first ten characters. */
  lemma {:induction false} SumsReadPrefix(s: string, t: string, nl: nat, nd: nat)
    requires WellFormedNumber(s) && WellFormedNumber(t) && s[..10] == t[..10] && nl <= 4 && nd <= 6
    ensures LetterSum(s, nl) == LetterSum(t, nl) && DigitSum(s, nd) == DigitSum(t, nd)
  {
    if nl > 0 {
      SumsReadPrefix(s, t, nl - 1, nd);
      assert s[nl - 1] == s[..10][nl - 1];
    } else if nd > 0 {
      SumsReadPrefix(s, t, nl, nd - 1);
      assert s[4 + nd - 1] == s[..10][4 + nd - 1];
    }
  }

  /**
   * Of the ten numbers that differ only in their last digit, exactly the one
   * whose digit equals the remainder is valid (none when the remainder is 10).
   */
  lemma OneCheckDigit(s: string, d: nat)
    requires WellFormedNumber(s) && d < 10
    ensures var t := s[..10] + [DigitChar(d)];
      WellFormedNumber(t) && (IsValidNumber(t) <==> d == CheckRemainder(s))
  {
    var t := s[..10] + [DigitChar(d)];
    assert t[..10] == s[..10];
    assert forall i :: 0 <= i < 10 ==> t[i] == s[i];
    SumsReadPrefix(s, t, 4, 6);
  }

  /** `AAAA0000007` passes: the letters weigh 10·(1+2+4+8) = 150, and 150 mod 11 = 7. */
  lemma AcceptedNumber()
    ensures IsValidNumber("AAAA0000007") && !IsValidNumber("AAAA0000008")
  {
    var s := "AAAA0000007";
    assert WellFormedNumber(s);
    assert LetterSum(s, 4) == 150;
    assert DigitSum(s, 6) == 0;
    var t := "AAAA0000008";
    assert WellFormedNumber(t);
    assert LetterSum(t, 4) == 150;
    assert DigitSum(t, 6) == 0;
  }

  /**
   * `CSQU3054383`, whose check digit is 3 under the letter table and the
   * final modulo-10 step of ISO 6346, is rejected: here the sum is 6156 and
   * 6156 mod 11 = 7.
   */
  lemma StandardNumberRejected()
    ensures WellFormedNumber("CSQU3054383") && !IsValidNumber("CSQU3054383")
  {
    var s := "CSQU3054383";
    assert WellFormedNumber(s);
    assert LetterSum(s, 4) == 412;
    assert DigitSum(s, 6) == 5744;
  }

  // ---------------------------------------------------------------------------
  // Shared checks
  // ---------------------------------------------------------------------------

  /** `userRole?.role === "admin" || (… "employee" && form.employeeId === userId)`. */
  predicate MayEdit(roles: seq<Row<UserRole>>, userId: Id, f: Form)
  {
    ActiveRole(roles, userId).Some? && CanEdit(ActiveRole(roles, userId).value.role, userId, f)
  }

  /** Some container of the form already carries the number (`by_form` … `.first()`). */
  predicate NumberTaken(containers: seq<Row<Container>>, formId: Id, number: string)
  {
    containers != []
    && ((containers[0].doc.formId == formId && containers[0].doc.containerNumber == number)
        || NumberTaken(containers[1..], formId, number))
  }

  lemma {:induction false} NumberTakenIff(containers: seq<Row<Container>>, formId: Id, number: string)
    ensures NumberTaken(containers, formId, number)
      <==> exists i :: 0 <= i < |containers| && containers[i].doc.formId == formId && containers[i].doc.containerNumber == number
  {
    if containers != [] {
      NumberTakenIff(containers[1..], formId, number);
      assert forall i :: 1 <= i < |containers| ==> containers[i] == containers[1..][i - 1];
    }
  }

  /** No two containers of one form share a number. */
  predicate NumbersUniquePerForm(containers: seq<Row<Container>>)
  {
    forall i, j :: 0 <= i < j < |containers| && containers[i].doc.formId == containers[j].doc.formId
      ==> containers[i].doc.containerNumber != containers[j].doc.containerNumber
  }

  /** The form with its `containersComplete` flag recomputed and its `updatedAt` stamped. */
  function WithContainersComplete(f: Form, containersComplete: bool, now: int): Form
  {
    f.(completion := f.completion.(containersComplete := containersComplete), updatedAt := now)
  }

  lemma {:induction false} ContainerCountAppend(containers: seq<Row<Container>>, row: Row<Container>, formId: Id)
    ensures ContainerCount(containers + [row], formId)
      == ContainerCount(containers, formId) + (if row.doc.formId == formId then 1 else 0)
  {
    if containers == [] {
      assert containers + [row] == [row];
    } else {
      assert (containers + [row])[1..] == containers[1..] + [row];
      ContainerCountAppend(containers[1..], row, formId);
    }
  }

  // ---------------------------------------------------------------------------
  // addContainer
  // ---------------------------------------------------------------------------

  /** The arguments of `addContainer` that are stored (dimensions are not modelled). */
  datatype ContainerInput = ContainerInput(
    containerNumber: string,
    sealNumber: string,
    doNumber: string,
    isoCode: string,
    sealIntact: bool,
    damageReported: bool,
    damageDescription: Option<string>)

  function NewContainer(formId: Id, input: ContainerInput, isoValidated: bool, now: int): Container
  {
    Container(formId, input.containerNumber, input.sealNumber, input.doNumber, input.isoCode, isoValidated,
              input.sealIntact, input.damageReported, input.damageDescription, [], now, now)
  }

  /**
   * The checks of `addContainer`: signed in, a live form, a caller who may
   * edit it, and a number not yet used in that form.
   */
  function AddContainerCheck(roles: seq<Row<UserRole>>, forms: seq<Row<Form>>, containers: seq<Row<Container>>,
                             caller: Option<Id>, formId: Id, number: string): (r: Result<Form, Error>)
    ensures r.Ok? ==> caller.Some? && Get(forms, formId) == Some(r.value)
  {
    if caller.None? then Err(NotAuthenticated)
    else match Get(forms, formId)
      case None => Err(FormNotFound)
      case Some(form) =>
        if form.isDeleted then Err(FormNotFound)
        else if !MayEdit(roles, caller.value, form) then Err(CannotEditForm)
        else if NumberTaken(containers, formId, number) then Err(DuplicateContainerNumber)
        else Ok(form)
  }

  /** A number already used in the form is refused; any other passes for an editor of a live form. */
  lemma AddContainerCheckOk(roles: seq<Row<UserRole>>, forms: seq<Row<Form>>, containers: seq<Row<Container>>,
                            caller: Option<Id>, formId: Id, number: string)
    ensures AddContainerCheck(roles, forms, containers, caller, formId, number).Ok?
      <==> && caller.Some? && Get(forms, formId).Some? && !Get(forms, formId).value.isDeleted
           && MayEdit(roles, caller.value, Get(forms, formId).value)
           && !(exists i :: 0 <= i < |containers| && containers[i].doc.formId == formId && containers[i].doc.containerNumber == number)
  {
    NumberTakenIff(containers, formId, number);
  }

  /** Appending a container whose number is new in its form keeps numbers unique per form. */
  lemma AddKeepsNumbersUnique(containers: seq<Row<Container>>, row: Row<Container>)
    requires NumbersUniquePerForm(containers)
    requires !NumberTaken(containers, row.doc.formId, row.doc.containerNumber)
    ensures NumbersUniquePerForm(containers + [row])
  {
    NumberTakenIff(containers, row.doc.formId, row.doc.containerNumber);
    var t := containers + [row];
    forall i, j | 0 <= i < j < |t| && t[i].doc.formId == t[j].doc.formId
      ensures t[i].doc.containerNumber != t[j].doc.containerNumber
    {
      assert t[i] == containers[i];
      if j < |containers| {
        assert t[j] == containers[j];
      }
    }
  }

  /**
   * `addContainer`: after the checks, insert the container with its
   * computed `isoValidated` and no vendors, then recount the form's
   * containers into `containersComplete`, which is therefore true.
   */
  method AddContainer(db: Db, caller: Option<Id>, formId: Id, input: ContainerInput, now: int)
    returns (r: Result<(Id, bool), Error>)
    requires db.Valid()
    modifies db`containers, db`forms, db`nextId
    ensures db.Valid()
    ensures r.Ok? <==> AddContainerCheck(db.roles, old(db.forms), old(db.containers), caller, formId, input.containerNumber).Ok?
    ensures r.Err? ==> (r.error == AddContainerCheck(db.roles, old(db.forms), old(db.containers), caller, formId, input.containerNumber).error
                        && db.containers == old(db.containers) && db.forms == old(db.forms) && db.nextId == old(db.nextId))
    ensures r.Ok? ==>
      && r.value.0 == old(db.nextId) && (r.value.1 <==> IsValidNumber(input.containerNumber))
      && db.containers == old(db.containers) + [Row(r.value.0, NewContainer(formId, input, r.value.1, now))]
      && db.forms == Put(old(db.forms), formId, WithContainersComplete(Get(old(db.forms), formId).value, true, now))
    ensures NumbersUniquePerForm(old(db.containers)) ==> NumbersUniquePerForm(db.containers)
  {
    var check := AddContainerCheck(db.roles, db.forms, db.containers, caller, formId, input.containerNumber);
    if check.Err? {
      return Err(check.error);
    }
    var isoValidated := ValidateIso6346(input.containerNumber);
    ghost var before := db.containers;
    var doc := NewContainer(formId, input, isoValidated, now);
    var id := db.InsertContainer(doc);
    if NumbersUniquePerForm(before) {
      AddKeepsNumbersUnique(before, Row(id, doc));
    }
    ContainerCountAppend(before, Row(id, doc), formId);
    var remaining := ContainerCount(db.containers, formId);
    db.PutForm(formId, WithContainersComplete(check.value, remaining > 0, now));
    r := Ok((id, isoValidated));
  }

  // ---------------------------------------------------------------------------
  // updateContainer
  // ---------------------------------------------------------------------------

  /** The optional arguments of `updateContainer`; `None` is an argument left undefined. */
  datatype ContainerPatch = ContainerPatch(
    containerNumber: Option<string>,
    sealNumber: Option<string>,
    doNumber: Option<string>,
    isoCode: Option<string>,
    sealIntact: Option<bool>,
    damageReported: Option<bool>,
    damageDescription: Option<string>)

  function Or<T>(o: Option<T>, default: T): T
  {
    if o.Some? then o.value else default
  }

  /**
   * The container after the patch: each supplied field replaced, the
   * number's check recomputed only when a number is supplied.
   */
  function Patched(c: Container, p: ContainerPatch, now: int): Container
  {
    c.(containerNumber := Or(p.containerNumber, c.containerNumber),
       isoValidated := if p.containerNumber.Some? then IsValidNumber(p.containerNumber.value) else c.isoValidated,
       sealNumber := Or(p.sealNumber, c.sealNumber),
       doNumber := Or(p.doNumber, c.doNumber),
       isoCode := Or(p.isoCode, c.isoCode),
       sealIntact := Or(p.sealIntact, c.sealIntact),
       damageReported := Or(p.damageReported, c.damageReported),
       damageDescription := if p.damageDescription.Some? then p.damageDescription else c.damageDescription,
       updatedAt := now)
  }

  /**
   * A patch changes the fields it supplies and `updatedAt`; the form, the
   * vendors and the creation time are never touched, and `isoValidated`
   * moves only with the number.
   */
  lemma PatchedChangesOnlySupplied(c: Container, p: ContainerPatch, now: int)
    ensures var d := Patched(c, p, now);
      && d.formId == c.formId && d.assignedVendors == c.assignedVendors && d.createdAt == c.createdAt
      && d.updatedAt == now
      && (p.containerNumber.None? ==> d.containerNumber == c.containerNumber && d.isoValidated == c.isoValidated)
      && (p.containerNumber.Some? ==> d.containerNumber == p.containerNumber.value
                                      && (d.isoValidated <==> IsValidNumber(p.containerNumber.value)))
      && (p.sealNumber.None? ==> d.sealNumber == c.sealNumber)
      && (p.doNumber.None? ==> d.doNumber == c.doNumber)
      && (p.isoCode.None? ==> d.isoCode == c.isoCode)
      && (p.sealIntact.None? ==> d.sealIntact == c.sealIntact)
      && (p.damageReported.None? ==> d.damageReported == c.damageReported)
      && (p.damageDescription.None? ==> d.damageDescription == c.damageDescription)
      && (p == ContainerPatch(None, None, None, None, None, None, None) ==> d == c.(updatedAt := now))
  {
  }

  /** Another container of the same form already carries the number. */
  predicate NumberTakenByOther(containers: seq<Row<Container>>, containerId: Id, formId: Id, number: string)
  {
    containers != []
    && ((containers[0].id != containerId && containers[0].doc.formId == formId && containers[0].doc.containerNumber == number)
        || NumberTakenByOther(containers[1..], containerId, formId, number))
  }

  lemma {:induction false} NumberTakenByOtherIff(containers: seq<Row<Container>>, containerId: Id, formId: Id, number: string)
    ensures NumberTakenByOther(containers, containerId, formId, number)
      <==> exists i :: 0 <= i < |containers| && containers[i].id != containerId
             && containers[i].doc.formId == formId && containers[i].doc.containerNumber == number
  {
    if containers != [] {
      NumberTakenByOtherIff(containers[1..], containerId, formId, number);
      assert forall i :: 1 <= i < |containers| ==> containers[i] == containers[1..][i - 1];
    }
  }

  /**
   * The checks of `updateContainer` as written: signed in, a stored
   * container, its form live, a caller who may edit it. A new number is not
   * compared with the form's other containers.
   */
  function UpdateContainerCheckAsWritten(roles: seq<Row<UserRole>>, forms: seq<Row<Form>>, containers: seq<Row<Container>>,
                                         caller: Option<Id>, containerId: Id): (r: Result<Container, Error>)
    ensures r.Ok? ==> caller.Some? && Get(containers, containerId) == Some(r.value)
  {
    if caller.None? then Err(NotAuthenticated)
    else match Get(containers, containerId)
      case None => Err(ContainerNotFound)
      case Some(c) =>
        match Get(forms, c.formId)
        case None => Err(FormNotFound)
        case Some(form) =>
          if form.isDeleted then Err(FormNotFound)
          else if !MayEdit(roles, caller.value, form) then Err(CannotEditContainer)
          else Ok(c)
  }

  /**
   * The checks of `updateContainer` with the duplicate test `addContainer`
   * makes: a new number already used by another container of the form is
   * refused.
   */
  function UpdateContainerCheck(roles: seq<Row<UserRole>>, forms: seq<Row<Form>>, containers: seq<Row<Container>>,
                                caller: Option<Id>, containerId: Id, p: ContainerPatch): (r: Result<Container, Error>)
    ensures r.Ok? ==> UpdateContainerCheckAsWritten(roles, forms, containers, caller, containerId) == r
    ensures r.Ok? && p.containerNumber.Some? ==>
      !NumberTakenByOther(containers, containerId, r.value.formId, p.containerNumber.value)
  {
    match UpdateContainerCheckAsWritten(roles, forms, containers, caller, containerId)
    case Err(e) => Err(e)
    case Ok(c) =>
      if p.containerNumber.Some? && NumberTakenByOther(containers, containerId, c.formId, p.containerNumber.value)
      then Err(DuplicateContainerNumber)
      else Ok(c)
  }

  /**
   * As written, renaming a container to the number of another container of
   * the same form passes the checks and leaves two containers of one form
   * with one number.
   */
  lemma UpdateDuplicateCounterexample()
    ensures var roles := [Row(0, UserRole(1, Admin, ["*"], None, true))];
      var form := Form("IFL2024-25-00001", 1, Pending, None, BookingDetails("B1", None, None, "2"), [],
                       Completion(true, true, true, false, false), 0, 0, None, false, None, None, None);
      var forms := [Row(2, form)];
      var c := Container(2, "AAAA0000007", "S", "D", "22G1", true, true, false, None, [], 0, 0);
      var containers := [Row(3, c), Row(4, c.(containerNumber := "BBBB0000000"))];
      var p := ContainerPatch(Some("AAAA0000007"), None, None, None, None, None, None);
      && NumbersUniquePerForm(containers)
      && UpdateContainerCheckAsWritten(roles, forms, containers, Some(1), 4).Ok?
      && !NumbersUniquePerForm(Put(containers, 4, Patched(containers[1].doc, p, 5)))
      && UpdateContainerCheck(roles, forms, containers, Some(1), 4, p) == Err(DuplicateContainerNumber)
  {
    var roles := [Row(0, UserRole(1, Admin, ["*"], None, true))];
    var form := Form("IFL2024-25-00001", 1, Pending, None, BookingDetails("B1", None, None, "2"), [],
                     Completion(true, true, true, false, false), 0, 0, None, false, None, None, None);
    var forms := [Row(2, form)];
    var c := Container(2, "AAAA0000007", "S", "D", "22G1", true, true, false, None, [], 0, 0);
    var containers := [Row(3, c), Row(4, c.(containerNumber := "BBBB0000000"))];
    var p := ContainerPatch(Some("AAAA0000007"), None, None, None, None, None, None);
    assert "AAAA0000007" != "BBBB0000000" by {
      assert "AAAA0000007"[0] != "BBBB0000000"[0];
    }
    assert ActiveRole(roles, 1) == Some(roles[0].doc);
    assert Get(containers, 4) == Some(containers[1].doc);
    assert Get(forms, 2) == Some(form);
    var after := Put(containers, 4, Patched(containers[1].doc, p, 5));
    assert after[0].doc.containerNumber == after[1].doc.containerNumber;
    NumberTakenByOtherIff(containers, 4, 2, "AAAA0000007");
    assert containers[0].id != 4;
  }

  /** With the duplicate test, an update keeps numbers unique per form. */
  lemma UpdateKeepsNumbersUnique(roles: seq<Row<UserRole>>, forms: seq<Row<Form>>, containers: seq<Row<Container>>,
                                 next: Id, caller: Option<Id>, containerId: Id, p: ContainerPatch, now: int)
    requires WellKeyed(containers, next) && NumbersUniquePerForm(containers)
    requires UpdateContainerCheck(roles, forms, containers, caller, containerId, p).Ok?
    ensures NumbersUniquePerForm(Put(containers, containerId,
      Patched(UpdateContainerCheck(roles, forms, containers, caller, containerId, p).value, p, now)))
  {
    var c := UpdateContainerCheck(roles, forms, containers, caller, containerId, p).value;
    var d := Patched(c, p, now);
    var t := Put(containers, containerId, d);
    WellKeyedIds(containers, next);
    if p.containerNumber.Some? {
      NumberTakenByOtherIff(containers, containerId, c.formId, p.containerNumber.value);
    }
    forall i, j | 0 <= i < j < |t| && t[i].doc.formId == t[j].doc.formId
      ensures t[i].doc.containerNumber != t[j].doc.containerNumber
    {
      if containers[i].id == containerId {
        assert containers[i].doc == c;
      } else if containers[j].id == containerId {
        assert containers[j].doc == c;
      }
    }
  }

  /**
   * `updateContainer`: after the checks, patch the supplied fields, with
   * `isoValidated` recomputed only when a number is supplied.
   */
  method UpdateContainer(db: Db, caller: Option<Id>, containerId: Id, p: ContainerPatch, now: int)
    returns (r: Result<(), Error>)
    requires db.Valid()
    modifies db`containers
    ensures db.Valid()
    ensures r.Ok? <==> UpdateContainerCheck(db.roles, db.forms, old(db.containers), caller, containerId, p).Ok?
    ensures r.Err? ==> (r.error == UpdateContainerCheck(db.roles, db.forms, old(db.containers), caller, containerId, p).error
                        && db.containers == old(db.containers))
    ensures r.Ok? ==> db.containers == Put(old(db.containers), containerId, Patched(Get(old(db.containers), containerId).value, p, now))
  {
    var check := UpdateContainerCheck(db.roles, db.forms, db.containers, caller, containerId, p);
    if check.Err? {
      return Err(check.error);
    }
    var c := check.value;
    var isoValidated := c.isoValidated;
    if p.containerNumber.Some? {
      isoValidated := ValidateIso6346(p.containerNumber.value);
    }
    var updated := c.(containerNumber := Or(p.containerNumber, c.containerNumber),
                      isoValidated := isoValidated,
                      sealNumber := Or(p.sealNumber, c.sealNumber),
                      doNumber := Or(p.doNumber, c.doNumber),
                      isoCode := Or(p.isoCode, c.isoCode),
                      sealIntact := Or(p.sealIntact, c.sealIntact),
                      damageReported := Or(p.damageReported, c.damageReported),
                      damageDescription := if p.damageDescription.Some? then p.damageDescription else c.damageDescription,
                      updatedAt := now);
    assert updated == Patched(c, p, now);
    db.PutContainer(containerId, updated);
    r := Ok(());
  }

  // ---------------------------------------------------------------------------
  // removeContainer
  // ---------------------------------------------------------------------------

  /** A photo row as `removeContainer` leaves it: deleted when it belongs to the container. */
  function MarkRow(row: Row<Photo>, containerId: Id): Row<Photo>
  {
    if row.doc.containerId == Some(containerId) then Row(row.id, row.doc.(isDeleted := true)) else row
  }

  function MarkedDeleted(photos: seq<Row<Photo>>, containerId: Id): (r: seq<Row<Photo>>)
  {
    seq(|photos|, k requires 0 <= k < |photos| => MarkRow(photos[k], containerId))
  }

  lemma MarkStep(p0: seq<Row<Photo>>, i: nat, containerId: Id)
    requires i < |p0|
    ensures (MarkedDeleted(p0[..i], containerId) + p0[i..])[i := MarkRow(p0[i], containerId)]
      == MarkedDeleted(p0[..i + 1], containerId) + p0[i + 1..]
  {
    var a := (MarkedDeleted(p0[..i], containerId) + p0[i..])[i := MarkRow(p0[i], containerId)];
    var b := MarkedDeleted(p0[..i + 1], containerId) + p0[i + 1..];
    assert |a| == |b|;
    forall k | 0 <= k < |a| ensures a[k] == b[k] {
      if k < i {
        assert p0[..i][k] == p0[k] && p0[..i + 1][k] == p0[k];
      } else if k > i {
        assert p0[i..][k - i] == p0[k];
      }
    }
  }

  /**
   * The photo loop of `removeContainer`: every photo of the container is
   * patched to deleted, one by one; no other photo changes.
   */
  method DeleteContainerPhotos(db: Db, containerId: Id)
    requires db.Valid()
    modifies db`photos
    ensures db.Valid()
    ensures db.photos == MarkedDeleted(old(db.photos), containerId)
  {
    ghost var p0 := db.photos;
    var i := 0;
    while i < |db.photos|
      invariant db.Valid()
      invariant 0 <= i <= |p0| == |db.photos|
      invariant db.photos == MarkedDeleted(p0[..i], containerId) + p0[i..]
    {
      var row := db.photos[i];
      assert row == p0[i];
      MarkStep(p0, i, containerId);
      if row.doc.containerId == Some(containerId) {
        PutAt(db.photos, db.nextId, i, row.doc.(isDeleted := true));
        db.PutPhoto(row.id, row.doc.(isDeleted := true));
      } else {
        assert db.photos[i := row] == db.photos;
      }
      i := i + 1;
    }
    assert p0[..i] == p0;
  }

  /** After the loop no photo of the container is live, and every other photo is as it was. */
  lemma MarkedDeletedEffect(photos: seq<Row<Photo>>, containerId: Id)
    ensures |MarkedDeleted(photos, containerId)| == |photos|
    ensures LivePhotoCount(MarkedDeleted(photos, containerId), containerId) == 0
    ensures forall k :: (0 <= k < |photos| && photos[k].doc.containerId != Some(containerId)
                         ==> MarkedDeleted(photos, containerId)[k] == photos[k])
    ensures forall k :: 0 <= k < |photos| ==> MarkedDeleted(photos, containerId)[k].id == photos[k].id
  {
    NoLivePhotoLeft(MarkedDeleted(photos, containerId), containerId);
  }

  lemma {:induction false} NoLivePhotoLeft(photos: seq<Row<Photo>>, c: Id)
    requires forall k :: 0 <= k < |photos| ==> !LivePhotoIn(photos[k].doc, c)
    ensures LivePhotoCount(photos, c) == 0
  {
    if photos != [] {
      NoLivePhotoLeft(photos[1..], c);
    }
  }

  /** Marking photos deleted keeps live hashes unique and every container within the photo cap. */
  lemma MarkedDeletedKeepsPhotoInvariants(photos: seq<Row<Photo>>, containerId: Id)
    requires LiveHashesUnique(photos) && PhotoCapRespected(photos)
    ensures LiveHashesUnique(MarkedDeleted(photos, containerId)) && PhotoCapRespected(MarkedDeleted(photos, containerId))
  {
    var m := MarkedDeleted(photos, containerId);
    forall c: Id ensures LivePhotoCount(m, c) <= MaxPhotosPerContainer {
      LivePhotoCountMono(photos, m, c);
    }
  }

  /**
   * The checks of `removeContainer`: signed in, a stored container, its form
   * live, a caller who may edit it. On success, the container and its form.
   */
  function RemoveContainerCheck(roles: seq<Row<UserRole>>, forms: seq<Row<Form>>, containers: seq<Row<Container>>,
                                caller: Option<Id>, containerId: Id): (r: Result<(Container, Form), Error>)
    ensures r.Ok? ==> caller.Some? && Get(containers, containerId) == Some(r.value.0) && Get(forms, r.value.0.formId) == Some(r.value.1)
  {
    if caller.None? then Err(NotAuthenticated)
    else match Get(containers, containerId)
      case None => Err(ContainerNotFound)
      case Some(c) =>
        match Get(forms, c.formId)
        case None => Err(FormNotFound)
        case Some(form) =>
          if form.isDeleted then Err(FormNotFound)
          else if !MayEdit(roles, caller.value, form) then Err(CannotRemoveContainer)
          else Ok((c, form))
  }

  /** After removal the form still has containers exactly when another container names it. */
  lemma RemainingContainers(containers: seq<Row<Container>>, next: Id, containerId: Id, formId: Id)
    requires WellKeyed(containers, next)
    ensures ContainerCount(Delete(containers, containerId), formId) > 0
      <==> exists i :: 0 <= i < |containers| && containers[i].id != containerId && containers[i].doc.formId == formId
  {
    var d := Delete(containers, containerId);
    ContainerCountPositive(d, formId);
    DeleteSubset(containers, containerId);
    if exists i :: 0 <= i < |containers| && containers[i].id != containerId && containers[i].doc.formId == formId {
      var i :| 0 <= i < |containers| && containers[i].id != containerId && containers[i].doc.formId == formId;
      DeleteKeeps(containers, containerId, i);
    }
  }

  /**
   * `removeContainer`: after the checks, mark the container's photos
   * deleted, delete the container, and recount the form's remaining
   * containers into `containersComplete`.
   */
  method RemoveContainer(db: Db, caller: Option<Id>, containerId: Id, now: int) returns (r: Result<(), Error>)
    requires db.Valid()
    modifies db`containers, db`photos, db`forms
    ensures db.Valid()
    ensures r.Ok? <==> RemoveContainerCheck(db.roles, old(db.forms), old(db.containers), caller, containerId).Ok?
    ensures r.Err? ==> (r.error == RemoveContainerCheck(db.roles, old(db.forms), old(db.containers), caller, containerId).error
                        && db.containers == old(db.containers) && db.photos == old(db.photos) && db.forms == old(db.forms))
    ensures r.Ok? ==>
      var (c, form) := RemoveContainerCheck(db.roles, old(db.forms), old(db.containers), caller, containerId).value;
      && db.photos == MarkedDeleted(old(db.photos), containerId)
      && db.containers == Delete(old(db.containers), containerId)
      && db.forms == Put(old(db.forms), c.formId,
                         WithContainersComplete(form, ContainerCount(Delete(old(db.containers), containerId), c.formId) > 0, now))
  {
    var check := RemoveContainerCheck(db.roles, db.forms, db.containers, caller, containerId);
    if check.Err? {
      return Err(check.error);
    }
    var (c, form) := check.value;
    DeleteContainerPhotos(db, containerId);
    db.DeleteContainer(containerId);
    var remaining := ContainerCount(db.containers, c.formId);
    db.PutForm(c.formId, WithContainersComplete(form, remaining > 0, now));
    r := Ok(());
  }

  // ---------------------------------------------------------------------------
  // assignVendorToContainer
  // ---------------------------------------------------------------------------

  /** `if (!assignedVendors.includes(v)) assignedVendors.push(v)`. */
  function AddVendor(vendors: seq<Id>, vendorId: Id): (r: seq<Id>)
  {
    if vendorId in vendors then vendors else vendors + [vendorId]
  }

  predicate NoDuplicates(xs: seq<Id>)
  {
    forall i, j :: 0 <= i < j < |xs| ==> xs[i] != xs[j]
  }

  /**
   * Adding a vendor yields the old vendors plus the new one, in order, with
   * no duplicates if there were none; adding it again changes nothing.
   */
  lemma AddVendorProperties(vendors: seq<Id>, vendorId: Id)
    ensures (set v | v in AddVendor(vendors, vendorId)) == (set v | v in vendors) + {vendorId}
    ensures vendors <= AddVendor(vendors, vendorId)
    ensures NoDuplicates(vendors) ==> NoDuplicates(AddVendor(vendors, vendorId))
    ensures AddVendor(AddVendor(vendors, vendorId), vendorId) == AddVendor(vendors, vendorId)
  {
    var r := AddVendor(vendors, vendorId);
    assert vendorId in r by {
      if vendorId !in vendors {
        assert r[|vendors|] == vendorId;
      }
    }
  }

  /**
   * The checks of `assignVendorToContainer`: the `containers.assign_vendor`
   * permission, a stored container, and a user whose active role is vendor.
   */
  function AssignVendorCheck(roles: seq<Row<UserRole>>, containers: seq<Row<Container>>, caller: Option<Id>,
                             containerId: Id, vendorId: Id): (r: Result<Container, Error>)
    ensures r.Ok? ==> Get(containers, containerId) == Some(r.value)
    ensures r.Ok? ==> ActiveRole(roles, vendorId).Some? && ActiveRole(roles, vendorId).value.role == Vendor
  {
    match CheckPermission(roles, caller, "containers.assign_vendor")
    case Err(e) => Err(e)
    case Ok(_) =>
      match Get(containers, containerId)
      case None => Err(ContainerNotFound)
      case Some(c) =>
        var vendorRole := ActiveRole(roles, vendorId);
        if vendorRole.None? || vendorRole.value.role != Vendor then Err(NotAVendor)
        else Ok(c)
  }

  /** With role rows from the permission table, only admins assign vendors. */
  lemma AssignVendorAdminOnly(roles: seq<Row<UserRole>>, containers: seq<Row<Container>>, caller: Option<Id>,
                              containerId: Id, vendorId: Id)
    requires RolesFromTable(roles)
    requires AssignVendorCheck(roles, containers, caller, containerId, vendorId).Ok?
    ensures ActiveRole(roles, caller.value).value.role == Admin
  {
    ActiveRoleIsRow(roles, caller.value);
  }

  /**
   * `assignVendorToContainer`: after the checks, append the vendor to the
   * container's list when it is not there yet; otherwise change nothing.
   */
  method AssignVendorToContainer(db: Db, caller: Option<Id>, containerId: Id, vendorId: Id, now: int)
    returns (r: Result<(), Error>)
    requires db.Valid()
    modifies db`containers
    ensures db.Valid()
    ensures r.Ok? <==> AssignVendorCheck(db.roles, old(db.containers), caller, containerId, vendorId).Ok?
    ensures r.Err? ==> (r.error == AssignVendorCheck(db.roles, old(db.containers), caller, containerId, vendorId).error
                        && db.containers == old(db.containers))
    ensures r.Ok? ==>
      var c := Get(old(db.containers), containerId).value;
      db.containers == if vendorId in c.assignedVendors then old(db.containers)
                       else Put(old(db.containers), containerId, c.(assignedVendors := AddVendor(c.assignedVendors, vendorId), updatedAt := now))
  {
    var check := AssignVendorCheck(db.roles, db.containers, caller, containerId, vendorId);
    if check.Err? {
      return Err(check.error);
    }
    var c := check.value;
    if vendorId !in c.assignedVendors {
      var assignedVendors := c.assignedVendors + [vendorId];
      db.PutContainer(containerId, c.(assignedVendors := assignedVendors, updatedAt := now));
    }
    r := Ok(());
  }
}
