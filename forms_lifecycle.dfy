/**
 * The life of a stored form (convex/forms.ts `submitForm`, `deleteForm` and
 * `restoreForm`): submission once the form has containers and photos, and
 * the two-state soft delete and restore.
 */
module FormsLifecycle {
  import opened Common
  import opened Tables
  import opened Schema
  import opened Users
  import opened Forms

  // ---------------------------------------------------------------------------
  // submitForm
  // ---------------------------------------------------------------------------

  /** The number of containers of a form (`containers.by_form … .collect().length`). */
  function ContainerCount(containers: seq<Row<Container>>, formId: Id): nat
  {
    if containers == [] then 0
    else (if containers[0].doc.formId == formId then 1 else 0) + ContainerCount(containers[1..], formId)
  }

  /** The number of non-deleted photos of a form, whatever their container. */
  function LiveFormPhotoCount(photos: seq<Row<Photo>>, formId: Id): nat
  {
    if photos == [] then 0
    else
      var here := if photos[0].doc.formId == formId && !photos[0].doc.isDeleted then 1 else 0;
      here + LiveFormPhotoCount(photos[1..], formId)
  }

  /** A form has a container exactly when one of the rows names it. */
  lemma {:induction false} ContainerCountPositive(containers: seq<Row<Container>>, formId: Id)
    ensures ContainerCount(containers, formId) > 0
      <==> exists i :: 0 <= i < |containers| && containers[i].doc.formId == formId
  {
    if containers != [] {
      ContainerCountPositive(containers[1..], formId);
      assert forall i :: 1 <= i < |containers| ==> containers[i] == containers[1..][i - 1];
    }
  }

  /** A form has a live photo exactly when one of the rows is a non-deleted photo of it. */
  lemma {:induction false} LiveFormPhotoCountPositive(photos: seq<Row<Photo>>, formId: Id)
    ensures LiveFormPhotoCount(photos, formId) > 0
      <==> exists i :: 0 <= i < |photos| && photos[i].doc.formId == formId && !photos[i].doc.isDeleted
  {
    if photos != [] {
      LiveFormPhotoCountPositive(photos[1..], formId);
      assert forall i :: 1 <= i < |photos| ==> photos[i] == photos[1..][i - 1];
    }
  }

  /** The completion flags `submitForm` works out from the stored containers and photos. */
  function SubmitCompletion(containers: seq<Row<Container>>, photos: seq<Row<Photo>>, formId: Id): Completion
  {
    var containersComplete := ContainerCount(containers, formId) > 0;
    var photosComplete := LiveFormPhotoCount(photos, formId) > 0;
    Completion(true, true, containersComplete, photosComplete, containersComplete && photosComplete)
  }

  /** An admin may edit and submit any form, an employee only their own. */
  predicate CanEdit(role: Role, userId: Id, f: Form)
  {
    role == Admin || (role == Employee && f.employeeId == userId)
  }

  /**
   * The checks of `submitForm`, in order: the `forms.edit` permission, a
   * stored form that is not deleted, a caller allowed to submit it, and a
   * complete form. On success, the caller and the stored form.
   */
  function SubmitCheck(roles: seq<Row<UserRole>>, forms: seq<Row<Form>>, containers: seq<Row<Container>>,
                       photos: seq<Row<Photo>>, caller: Option<Id>, formId: Id): (r: Result<(Id, Form), Error>)
    ensures r.Ok? ==> caller == Some(r.value.0) && Get(forms, formId) == Some(r.value.1)
  {
    match CheckPermission(roles, caller, "forms.edit")
    case Err(e) => Err(e)
    case Ok(c) =>
      match Get(forms, formId)
      case None => Err(FormNotFound)
      case Some(form) =>
        if form.isDeleted then Err(FormNotFound)
        else if !CanEdit(c.role.role, c.userId, form) then Err(CannotSubmitForm)
        else if !SubmitCompletion(containers, photos, formId).overallComplete then Err(FormNotComplete)
        else Ok((c.userId, form))
  }

  /** The stored form after submission. */
  function Submitted(f: Form, completion: Completion, now: int): Form
  {
    f.(status := Completed, submittedAt := Some(now), updatedAt := now, completion := completion)
  }

  /**
   * Submission passes exactly for a permitted caller allowed to submit a
   * live stored form that has at least one container and at least one
   * non-deleted photo.
   */
  lemma SubmitCheckOk(roles: seq<Row<UserRole>>, forms: seq<Row<Form>>, containers: seq<Row<Container>>,
                      photos: seq<Row<Photo>>, caller: Option<Id>, formId: Id)
    ensures SubmitCheck(roles, forms, containers, photos, caller, formId).Ok?
      <==> && CheckPermission(roles, caller, "forms.edit").Ok?
           && Get(forms, formId).Some? && !Get(forms, formId).value.isDeleted
           && CanEdit(ActiveRole(roles, caller.value).value.role, caller.value, Get(forms, formId).value)
           && (exists i :: 0 <= i < |containers| && containers[i].doc.formId == formId)
           && (exists i :: 0 <= i < |photos| && photos[i].doc.formId == formId && !photos[i].doc.isDeleted)
    ensures CheckPermission(roles, caller, "forms.edit").Ok? && (Get(forms, formId).None? || Get(forms, formId).value.isDeleted)
      ==> SubmitCheck(roles, forms, containers, photos, caller, formId) == Err(FormNotFound)
  {
    ContainerCountPositive(containers, formId);
    LiveFormPhotoCountPositive(photos, formId);
  }

  /** A form that passes the checks is stored completed, with every completion flag set. */
  lemma SubmittedIsComplete(roles: seq<Row<UserRole>>, forms: seq<Row<Form>>, containers: seq<Row<Container>>,
                            photos: seq<Row<Photo>>, caller: Option<Id>, formId: Id, now: int)
    requires SubmitCheck(roles, forms, containers, photos, caller, formId).Ok?
    ensures var f := Submitted(SubmitCheck(roles, forms, containers, photos, caller, formId).value.1,
                               SubmitCompletion(containers, photos, formId), now);
      && f.status == Completed && f.submittedAt == Some(now)
      && f.completion == Completion(true, true, true, true, true)
  {
  }

  /** With role rows from the permission table, only admins and employees ever submit. */
  lemma SubmitByAdminOrEmployee(roles: seq<Row<UserRole>>, forms: seq<Row<Form>>, containers: seq<Row<Container>>,
                                photos: seq<Row<Photo>>, caller: Option<Id>, formId: Id)
    requires SubmitCheck(roles, forms, containers, photos, caller, formId).Ok?
    ensures var role := ActiveRole(roles, caller.value).value.role;
      role == Admin || (role == Employee && Get(forms, formId).value.employeeId == caller.value)
  {
  }

  /**
   * `submitForm`: after the checks, patch the form to completed, stamped
   * with the submission time and the completion flags just worked out.
   */
  method SubmitForm(db: Db, caller: Option<Id>, formId: Id, now: int) returns (r: Result<(), Error>)
    requires db.Valid()
    modifies db`forms
    ensures db.Valid()
    ensures r.Ok? <==> SubmitCheck(db.roles, old(db.forms), db.containers, db.photos, caller, formId).Ok?
    ensures r.Err? ==> (r.error == SubmitCheck(db.roles, old(db.forms), db.containers, db.photos, caller, formId).error
                        && db.forms == old(db.forms))
    ensures r.Ok? ==> db.forms == Put(old(db.forms), formId,
      Submitted(Get(old(db.forms), formId).value, SubmitCompletion(db.containers, db.photos, formId), now))
  {
    var check := SubmitCheck(db.roles, db.forms, db.containers, db.photos, caller, formId);
    if check.Err? {
      return Err(check.error);
    }
    var completion := SubmitCompletion(db.containers, db.photos, formId);
    db.PutForm(formId, Submitted(check.value.1, completion, now));
    r := Ok(());
  }

  // ---------------------------------------------------------------------------
  // deleteForm and restoreForm
  // ---------------------------------------------------------------------------

  /** The checks of `deleteForm`: the `forms.delete` permission, a stored form, not yet deleted. */
  function DeleteCheck(roles: seq<Row<UserRole>>, forms: seq<Row<Form>>, caller: Option<Id>, formId: Id)
    : (r: Result<(Id, Form), Error>)
    ensures r.Ok? ==> caller == Some(r.value.0) && Get(forms, formId) == Some(r.value.1) && !r.value.1.isDeleted
  {
    match CheckPermission(roles, caller, "forms.delete")
    case Err(e) => Err(e)
    case Ok(c) =>
      match Get(forms, formId)
      case None => Err(FormNotFound)
      case Some(form) => if form.isDeleted then Err(FormAlreadyDeleted) else Ok((c.userId, form))
  }

  /** The checks of `restoreForm`: the `forms.restore` permission, a stored form, currently deleted. */
  function RestoreCheck(roles: seq<Row<UserRole>>, forms: seq<Row<Form>>, caller: Option<Id>, formId: Id)
    : (r: Result<(Id, Form), Error>)
    ensures r.Ok? ==> caller == Some(r.value.0) && Get(forms, formId) == Some(r.value.1) && r.value.1.isDeleted
  {
    match CheckPermission(roles, caller, "forms.restore")
    case Err(e) => Err(e)
    case Ok(c) =>
      match Get(forms, formId)
      case None => Err(FormNotFound)
      case Some(form) => if !form.isDeleted then Err(FormNotDeleted) else Ok((c.userId, form))
  }

  /** The form as `deleteForm` leaves it: marked deleted, with who, when and why. */
  function Deleted(f: Form, userId: Id, reason: string, now: int): Form
  {
    f.(isDeleted := true, deletedAt := Some(now), deletedBy := Some(userId), deletionReason := Some(reason), updatedAt := now)
  }

  /** The form as `restoreForm` leaves it: live again, with the deletion fields cleared. */
  function Restored(f: Form, now: int): Form
  {
    f.(isDeleted := false, deletedAt := None, deletedBy := None, deletionReason := None, updatedAt := now)
  }

  /** Deleting a deleted form and restoring a live one are both refused, each with its own error. */
  lemma DeleteRestoreRefusals(roles: seq<Row<UserRole>>, forms: seq<Row<Form>>, caller: Option<Id>, formId: Id)
    ensures DeleteCheck(roles, forms, caller, formId).Ok?
      <==> CheckPermission(roles, caller, "forms.delete").Ok? && Get(forms, formId).Some? && !Get(forms, formId).value.isDeleted
    ensures RestoreCheck(roles, forms, caller, formId).Ok?
      <==> CheckPermission(roles, caller, "forms.restore").Ok? && Get(forms, formId).Some? && Get(forms, formId).value.isDeleted
    ensures CheckPermission(roles, caller, "forms.delete").Ok? && Get(forms, formId).Some? && Get(forms, formId).value.isDeleted
      ==> DeleteCheck(roles, forms, caller, formId) == Err(FormAlreadyDeleted)
    ensures CheckPermission(roles, caller, "forms.restore").Ok? && Get(forms, formId).Some? && !Get(forms, formId).value.isDeleted
      ==> RestoreCheck(roles, forms, caller, formId) == Err(FormNotDeleted)
  {
  }

  /**
   * Delete then restore gives back the form as it was before the delete,
   * apart from `updatedAt`: a never-deleted form carries no deletion fields.
   */
  lemma RestoreUndoesDelete(f: Form, userId: Id, reason: string, t1: int, t2: int)
    requires !f.isDeleted && f.deletedAt.None? && f.deletedBy.None? && f.deletionReason.None?
    ensures Restored(Deleted(f, userId, reason, t1), t2) == f.(updatedAt := t2)
    ensures Deleted(f, userId, reason, t1).isDeleted && !Restored(Deleted(f, userId, reason, t1), t2).isDeleted
  {
  }

  /**
   * The two states alternate: once a form is deleted, a permitted caller can
   * restore it and nobody can delete it again; once restored, the reverse.
   */
  lemma DeleteThenRestoreAllowed(roles: seq<Row<UserRole>>, forms: seq<Row<Form>>, next: Id, caller: Option<Id>,
                                 other: Option<Id>, formId: Id, reason: string, now: int)
    requires WellKeyed(forms, next)
    requires DeleteCheck(roles, forms, caller, formId).Ok?
    requires CheckPermission(roles, other, "forms.restore").Ok?
    ensures var after := Put(forms, formId, Deleted(Get(forms, formId).value, caller.value, reason, now));
      RestoreCheck(roles, after, other, formId).Ok?
      && DeleteCheck(roles, after, caller, formId) == Err(FormAlreadyDeleted)
  {
    var f := Get(forms, formId).value;
    GetPut(forms, next, formId, Deleted(f, caller.value, reason, now), formId);
  }

  /** After a restore, the form can be deleted again and cannot be restored twice. */
  lemma RestoreThenDeleteAllowed(roles: seq<Row<UserRole>>, forms: seq<Row<Form>>, next: Id, caller: Option<Id>,
                                 other: Option<Id>, formId: Id, now: int)
    requires WellKeyed(forms, next)
    requires RestoreCheck(roles, forms, caller, formId).Ok?
    requires CheckPermission(roles, other, "forms.delete").Ok?
    ensures var after := Put(forms, formId, Restored(Get(forms, formId).value, now));
      DeleteCheck(roles, after, other, formId).Ok?
      && RestoreCheck(roles, after, caller, formId) == Err(FormNotDeleted)
  {
    var f := Get(forms, formId).value;
    GetPut(forms, next, formId, Restored(f, now), formId);
  }

  /** With role rows from the permission table, only admins delete or restore forms. */
  lemma DeleteRestoreAdminOnly(roles: seq<Row<UserRole>>, forms: seq<Row<Form>>, caller: Option<Id>, formId: Id)
    requires RolesFromTable(roles)
    requires DeleteCheck(roles, forms, caller, formId).Ok? || RestoreCheck(roles, forms, caller, formId).Ok?
    ensures ActiveRole(roles, caller.value).value.role == Admin
  {
    ActiveRoleIsRow(roles, caller.value);
  }

  /** `deleteForm`: after the checks, mark the form deleted by the caller, at `now`, for `reason`. */
  method DeleteForm(db: Db, caller: Option<Id>, formId: Id, reason: string, now: int) returns (r: Result<(), Error>)
    requires db.Valid()
    modifies db`forms
    ensures db.Valid()
    ensures r.Ok? <==> DeleteCheck(db.roles, old(db.forms), caller, formId).Ok?
    ensures r.Err? ==> r.error == DeleteCheck(db.roles, old(db.forms), caller, formId).error && db.forms == old(db.forms)
    ensures r.Ok? ==> db.forms == Put(old(db.forms), formId, Deleted(Get(old(db.forms), formId).value, caller.value, reason, now))
  {
    var check := DeleteCheck(db.roles, db.forms, caller, formId);
    if check.Err? {
      return Err(check.error);
    }
    var (userId, form) := check.value;
    db.PutForm(formId, Deleted(form, userId, reason, now));
    r := Ok(());
  }

  /** `restoreForm`: after the checks, make the form live again and clear the deletion fields. */
  method RestoreForm(db: Db, caller: Option<Id>, formId: Id, now: int) returns (r: Result<(), Error>)
    requires db.Valid()
    modifies db`forms
    ensures db.Valid()
    ensures r.Ok? <==> RestoreCheck(db.roles, old(db.forms), caller, formId).Ok?
    ensures r.Err? ==> r.error == RestoreCheck(db.roles, old(db.forms), caller, formId).error && db.forms == old(db.forms)
    ensures r.Ok? ==> db.forms == Put(old(db.forms), formId, Restored(Get(old(db.forms), formId).value, now))
  {
    var check := RestoreCheck(db.roles, db.forms, caller, formId);
    if check.Err? {
      return Err(check.error);
    }
    db.PutForm(formId, Restored(check.value.1, now));
    r := Ok(());
  }
}
