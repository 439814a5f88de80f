/**
 * Photos (convex/photos.ts): the admission checks of an upload, the photo
 * list of a form, and soft deletion. The stored file itself, its URL and
 * the location and EXIF metadata are not modelled; the file's hash is an
 * input.
 */
module Photos {
  import opened Common
  import opened Tables
  import opened Schema
  import opened Users
  import opened FormsLifecycle

  // ---------------------------------------------------------------------------
  // uploadPhoto
  // ---------------------------------------------------------------------------

  /** 10 MiB; a file of exactly this size is accepted. */
  const MaxFileSize := 10 * 1024 * 1024

  const AllowedMimeTypes: seq<string> := ["image/jpeg", "image/png", "image/webp"]

  /** The arguments of `uploadPhoto` that are stored or checked. */
  datatype UploadInput = UploadInput(
    formId: Id,
    containerId: Option<Id>,
    storageId: string,
    category: Category,
    description: Option<string>,
    notes: Option<string>,
    fileHash: string,
    originalFilename: string,
    fileSize: int,
    mimeType: string)

  function NewPhoto(input: UploadInput, userId: Id, now: int): Photo
  {
    Photo(input.formId, input.containerId, input.storageId, input.category, input.description, input.notes,
          userId, now, input.fileHash, input.originalFilename, input.fileSize, input.mimeType, false)
  }

  /** A non-deleted photo already has the hash (`by_hash` … `isDeleted == false` … `.first()`). */
  predicate HashInUse(photos: seq<Row<Photo>>, hash: string)
  {
    photos != []
    && ((!photos[0].doc.isDeleted && photos[0].doc.fileHash == hash) || HashInUse(photos[1..], hash))
  }

  lemma {:induction false} HashInUseIff(photos: seq<Row<Photo>>, hash: string)
    ensures HashInUse(photos, hash)
      <==> exists i :: 0 <= i < |photos| && !photos[i].doc.isDeleted && photos[i].doc.fileHash == hash
  {
    if photos != [] {
      HashInUseIff(photos[1..], hash);
      assert forall i :: 1 <= i < |photos| ==> photos[i] == photos[1..][i - 1];
    }
  }

  /**
   * Who may upload as written: an admin, the employee who owns the form, or
   * a vendor naming a stored container whose vendor list holds them. The
   * container is not required to belong to the form.
   */
  predicate MayUploadAsWritten(role: Role, userId: Id, form: Form, containers: seq<Row<Container>>, containerId: Option<Id>)
  {
    if role == Admin then true
    else if role == Employee && form.employeeId == userId then true
    else if role == Vendor then
      containerId.Some? && Get(containers, containerId.value).Some?
      && userId in Get(containers, containerId.value).value.assignedVendors
    else false
  }

  /** As above, with the vendor's container also required to be one of the form's containers. */
  predicate MayUpload(role: Role, userId: Id, formId: Id, form: Form, containers: seq<Row<Container>>, containerId: Option<Id>)
  {
    if role == Admin then true
    else if role == Employee && form.employeeId == userId then true
    else if role == Vendor then
      containerId.Some? && Get(containers, containerId.value).Some?
      && userId in Get(containers, containerId.value).value.assignedVendors
      && Get(containers, containerId.value).value.formId == formId
    else false
  }

  /**
   * The checks of `uploadPhoto` as written, in order: signed in, size, MIME
   * type, a live form, an active role, the upload permission, a hash not
   * in use, and room in the container.
   */
  function UploadCheckAsWritten(roles: seq<Row<UserRole>>, forms: seq<Row<Form>>, containers: seq<Row<Container>>,
                                photos: seq<Row<Photo>>, caller: Option<Id>, input: UploadInput): (r: Result<Form, Error>)
    ensures r.Ok? ==> caller.Some? && Get(forms, input.formId) == Some(r.value) && !r.value.isDeleted
    ensures r.Ok? ==> !HashInUse(photos, input.fileHash)
    ensures r.Ok? && input.containerId.Some? ==> LivePhotoCount(photos, input.containerId.value) < MaxPhotosPerContainer
  {
    if caller.None? then Err(NotAuthenticated)
    else if input.fileSize > MaxFileSize then Err(FileTooLarge)
    else if input.mimeType !in AllowedMimeTypes then Err(InvalidFileType)
    else match Get(forms, input.formId)
      case None => Err(FormNotFound)
      case Some(form) =>
        if form.isDeleted then Err(FormNotFound)
        else match ActiveRole(roles, caller.value)
          case None => Err(NoRoleAssigned)
          case Some(u) =>
            if !MayUploadAsWritten(u.role, caller.value, form, containers, input.containerId) then Err(CannotUploadPhoto)
            else if HashInUse(photos, input.fileHash) then Err(DuplicatePhoto)
            else if input.containerId.Some? && LivePhotoCount(photos, input.containerId.value) >= MaxPhotosPerContainer
            then Err(ContainerPhotoLimit)
            else Ok(form)
  }

  /** The checks of `uploadPhoto`, with a vendor held to the containers of the form. */
  function UploadCheck(roles: seq<Row<UserRole>>, forms: seq<Row<Form>>, containers: seq<Row<Container>>,
                       photos: seq<Row<Photo>>, caller: Option<Id>, input: UploadInput): (r: Result<Form, Error>)
    ensures r.Ok? ==> UploadCheckAsWritten(roles, forms, containers, photos, caller, input) == r
  {
    match UploadCheckAsWritten(roles, forms, containers, photos, caller, input)
    case Err(e) => Err(e)
    case Ok(form) =>
      var u := ActiveRole(roles, caller.value).value;
      if !MayUpload(u.role, caller.value, input.formId, form, containers, input.containerId) then Err(CannotUploadPhoto)
      else Ok(form)
  }

  /**
   * As written, a vendor assigned to a container of one form can upload a
   * photo to another form by naming that container.
   */
  lemma CrossFormUploadCounterexample()
    ensures var roles := [Row(0, UserRole(1, Vendor, ["photos.upload", "forms.view_assigned"], None, true))];
      var formA := Form("IFL2024-25-00001", 9, Pending, None, BookingDetails("B1", None, None, "1"), [],
                        Completion(true, true, true, false, false), 0, 0, None, false, None, None, None);
      var formB := formA.(refId := "IFL2024-25-00002");
      var forms := [Row(2, formA), Row(3, formB)];
      var containers := [Row(4, Container(2, "AAAA0000007", "S", "D", "22G1", true, true, false, None, [1], 0, 0))];
      var input := UploadInput(3, Some(4), "st", Damage, None, None, "h", "a.jpg", 100, "image/jpeg");
      && UploadCheckAsWritten(roles, forms, containers, [], Some(1), input).Ok?
      && Get(containers, 4).value.formId != input.formId
      && UploadCheck(roles, forms, containers, [], Some(1), input) == Err(CannotUploadPhoto)
  {
    var roles := [Row(0, UserRole(1, Vendor, ["photos.upload", "forms.view_assigned"], None, true))];
    var formA := Form("IFL2024-25-00001", 9, Pending, None, BookingDetails("B1", None, None, "1"), [],
                      Completion(true, true, true, false, false), 0, 0, None, false, None, None, None);
    var formB := formA.(refId := "IFL2024-25-00002");
    var forms := [Row(2, formA), Row(3, formB)];
    var containers := [Row(4, Container(2, "AAAA0000007", "S", "D", "22G1", true, true, false, None, [1], 0, 0))];
    assert ActiveRole(roles, 1) == Some(roles[0].doc);
    assert Get(forms, 3) == Some(formB);
    assert Get(containers, 4) == Some(containers[0].doc);
  }

  /** Each admission limit, with its own error: over 10 MiB, a MIME type outside the three images. */
  lemma UploadLimits(roles: seq<Row<UserRole>>, forms: seq<Row<Form>>, containers: seq<Row<Container>>,
                     photos: seq<Row<Photo>>, caller: Option<Id>, input: UploadInput)
    requires caller.Some?
    ensures input.fileSize > MaxFileSize ==> UploadCheck(roles, forms, containers, photos, caller, input) == Err(FileTooLarge)
    ensures input.fileSize <= MaxFileSize && input.mimeType !in AllowedMimeTypes
      ==> UploadCheck(roles, forms, containers, photos, caller, input) == Err(InvalidFileType)
    ensures UploadCheck(roles, forms, containers, photos, caller, input).Ok?
      ==> input.fileSize <= 10485760 && input.mimeType in {"image/jpeg", "image/png", "image/webp"}
  {
  }

  /**
   * An accepted upload comes from an admin, from the employee who owns the
   * form, or from a vendor who names a container of the form assigned to
   * them; a vendor who names no container is always refused.
   */
  lemma UploadPermission(roles: seq<Row<UserRole>>, forms: seq<Row<Form>>, containers: seq<Row<Container>>,
                         photos: seq<Row<Photo>>, caller: Option<Id>, input: UploadInput)
    requires UploadCheck(roles, forms, containers, photos, caller, input).Ok?
    ensures var role := ActiveRole(roles, caller.value).value.role;
      || role == Admin
      || (role == Employee && Get(forms, input.formId).value.employeeId == caller.value)
      || (role == Vendor && input.containerId.Some? && Get(containers, input.containerId.value).Some?
          && caller.value in Get(containers, input.containerId.value).value.assignedVendors
          && Get(containers, input.containerId.value).value.formId == input.formId)
  {
  }

  /** An accepted upload carries a hash no live photo has, and finds its container under the cap. */
  lemma UploadAdmission(roles: seq<Row<UserRole>>, forms: seq<Row<Form>>, containers: seq<Row<Container>>,
                        photos: seq<Row<Photo>>, caller: Option<Id>, input: UploadInput)
    requires UploadCheck(roles, forms, containers, photos, caller, input).Ok?
    ensures forall i :: 0 <= i < |photos| && !photos[i].doc.isDeleted ==> photos[i].doc.fileHash != input.fileHash
    ensures input.containerId.Some? ==> LivePhotoCount(photos, input.containerId.value) < 50
  {
    HashInUseIff(photos, input.fileHash);
  }

  /** Appending a live photo whose hash is not in use keeps live hashes unique. */
  lemma AppendKeepsHashesUnique(photos: seq<Row<Photo>>, row: Row<Photo>)
    requires LiveHashesUnique(photos) && !HashInUse(photos, row.doc.fileHash)
    ensures LiveHashesUnique(photos + [row])
  {
    HashInUseIff(photos, row.doc.fileHash);
    var t := photos + [row];
    forall i, j | 0 <= i < j < |t| && !t[i].doc.isDeleted && !t[j].doc.isDeleted
      ensures t[i].doc.fileHash != t[j].doc.fileHash
    {
      assert t[i] == photos[i];
      if j < |photos| {
        assert t[j] == photos[j];
      }
    }
  }

  /** Appending a photo to a container below the cap keeps every container within it. */
  lemma AppendKeepsPhotoCap(photos: seq<Row<Photo>>, row: Row<Photo>)
    requires PhotoCapRespected(photos)
    requires row.doc.containerId.Some? ==> LivePhotoCount(photos, row.doc.containerId.value) < MaxPhotosPerContainer
    ensures PhotoCapRespected(photos + [row])
  {
    forall c: Id ensures LivePhotoCount(photos + [row], c) <= MaxPhotosPerContainer {
      LivePhotoCountAppend(photos, row, c);
    }
  }

  lemma {:induction false} LiveFormPhotoCountAppend(photos: seq<Row<Photo>>, row: Row<Photo>, formId: Id)
    ensures LiveFormPhotoCount(photos + [row], formId)
      == LiveFormPhotoCount(photos, formId) + (if row.doc.formId == formId && !row.doc.isDeleted then 1 else 0)
  {
    if photos == [] {
      assert photos + [row] == [row];
    } else {
      assert (photos + [row])[1..] == photos[1..] + [row];
      LiveFormPhotoCountAppend(photos[1..], row, formId);
    }
  }

  /** The form with its `photosComplete` flag recomputed and its `updatedAt` stamped. */
  function WithPhotosComplete(f: Form, photosComplete: bool, now: int): Form
  {
    f.(completion := f.completion.(photosComplete := photosComplete), updatedAt := now)
  }

  /**
   * `uploadPhoto`: after the checks, insert the live photo, then recount the
   * form's live photos into `photosComplete`, which is therefore true; the
   * other completion flags are copied.
   */
  method UploadPhoto(db: Db, caller: Option<Id>, input: UploadInput, now: int) returns (r: Result<Id, Error>)
    requires db.Valid()
    modifies db`photos, db`forms, db`nextId
    ensures db.Valid()
    ensures r.Ok? <==> UploadCheck(db.roles, old(db.forms), db.containers, old(db.photos), caller, input).Ok?
    ensures r.Err? ==> (r.error == UploadCheck(db.roles, old(db.forms), db.containers, old(db.photos), caller, input).error
                        && db.photos == old(db.photos) && db.forms == old(db.forms) && db.nextId == old(db.nextId))
    ensures r.Ok? ==>
      && r.value == old(db.nextId)
      && db.photos == old(db.photos) + [Row(r.value, NewPhoto(input, caller.value, now))]
      && db.forms == Put(old(db.forms), input.formId, WithPhotosComplete(Get(old(db.forms), input.formId).value, true, now))
    ensures LiveHashesUnique(old(db.photos)) ==> LiveHashesUnique(db.photos)
    ensures PhotoCapRespected(old(db.photos)) ==> PhotoCapRespected(db.photos)
  {
    var check := UploadCheck(db.roles, db.forms, db.containers, db.photos, caller, input);
    if check.Err? {
      return Err(check.error);
    }
    ghost var before := db.photos;
    var doc := NewPhoto(input, caller.value, now);
    var id := db.InsertPhoto(doc);
    if LiveHashesUnique(before) {
      AppendKeepsHashesUnique(before, Row(id, doc));
    }
    if PhotoCapRespected(before) {
      AppendKeepsPhotoCap(before, Row(id, doc));
    }
    LiveFormPhotoCountAppend(before, Row(id, doc), input.formId);
    var live := LiveFormPhotoCount(db.photos, input.formId);
    db.PutForm(input.formId, WithPhotosComplete(check.value, live > 0, now));
    r := Ok(id);
  }

  // ---------------------------------------------------------------------------
  // getPhotos
  // ---------------------------------------------------------------------------

  /** A live photo of the form, in the container and the category when they are given. */
  predicate PhotoListed(p: Photo, formId: Id, containerId: Option<Id>, category: Option<Category>)
  {
    p.formId == formId && !p.isDeleted
    && (containerId.Some? ==> p.containerId == containerId)
    && (category.Some? ==> p.category == category.value)
  }

  /** `admin`, the owning employee, or a role listing `forms.view_assigned`. */
  predicate MayViewPhotos(role: Option<UserRole>, userId: Id, form: Form)
  {
    role.Some? && (CanEdit(role.value.role, userId, form) || "forms.view_assigned" in role.value.permissions)
  }

  /**
   * `getPhotos`: signed in; nothing for a missing or deleted form; then the
   * access check; then the live photos of the form, narrowed by container
   * and category, in creation order.
   */
  function GetPhotos(roles: seq<Row<UserRole>>, forms: seq<Row<Form>>, photos: seq<Row<Photo>>, caller: Option<Id>,
                     formId: Id, containerId: Option<Id>, category: Option<Category>): (r: Result<seq<Row<Photo>>, Error>)
    ensures caller.None? ==> r == Err(NotAuthenticated)
    ensures caller.Some? && (Get(forms, formId).None? || Get(forms, formId).value.isDeleted) ==> r == Ok([])
    ensures r.Err? && caller.Some? ==> r.error == AccessDenied
    ensures r.Ok? ==> |r.value| <= |photos|
  {
    if caller.None? then Err(NotAuthenticated)
    else match Get(forms, formId)
      case None => Ok([])
      case Some(form) =>
        if form.isDeleted then Ok([])
        else if !MayViewPhotos(ActiveRole(roles, caller.value), caller.value, form) then Err(AccessDenied)
        else
          Ok(SelectPhotos(photos, formId, containerId, category))
  }

  /** The live photos of the form, then those of the container, then those of the category. */
  function SelectPhotos(photos: seq<Row<Photo>>, formId: Id, containerId: Option<Id>, category: Option<Category>)
    : seq<Row<Photo>>
  {
    var live := Where(photos, (p: Photo) => p.formId == formId && !p.isDeleted);
    var inContainer := if containerId.Some? then Where(live, (p: Photo) => p.containerId == containerId) else live;
    if category.Some? then Where(inContainer, (p: Photo) => p.category == category.value) else inContainer
  }

  /** The photos returned are exactly the stored photos the filters select. */
  lemma GetPhotosExact(roles: seq<Row<UserRole>>, forms: seq<Row<Form>>, photos: seq<Row<Photo>>, caller: Option<Id>,
                       formId: Id, containerId: Option<Id>, category: Option<Category>)
    requires GetPhotos(roles, forms, photos, caller, formId, containerId, category).Ok?
    requires Get(forms, formId).Some? && !Get(forms, formId).value.isDeleted
    ensures var r := GetPhotos(roles, forms, photos, caller, formId, containerId, category).value;
      && (forall i :: 0 <= i < |r| ==> r[i] in photos && PhotoListed(r[i].doc, formId, containerId, category))
      && (forall i :: 0 <= i < |photos| && PhotoListed(photos[i].doc, formId, containerId, category) ==> photos[i] in r)
  {
    SelectPhotosExact(photos, formId, containerId, category);
  }

  lemma SelectPhotosExact(photos: seq<Row<Photo>>, formId: Id, containerId: Option<Id>, category: Option<Category>)
    ensures var r := SelectPhotos(photos, formId, containerId, category);
      && (forall i :: 0 <= i < |r| ==> r[i] in photos && PhotoListed(r[i].doc, formId, containerId, category))
      && (forall i :: 0 <= i < |photos| && PhotoListed(photos[i].doc, formId, containerId, category) ==> photos[i] in r)
  {
    var live := Where(photos, (p: Photo) => p.formId == formId && !p.isDeleted);
    var inContainer := if containerId.Some? then Where(live, (p: Photo) => p.containerId == containerId) else live;
    var r := SelectPhotos(photos, formId, containerId, category);
    assert forall row :: row in inContainer ==> row in live && (containerId.Some? ==> row.doc.containerId == containerId);
    forall i | 0 <= i < |r|
      ensures r[i] in photos && PhotoListed(r[i].doc, formId, containerId, category)
    {
      assert r[i] in inContainer;
      assert r[i] in live;
    }
    forall i | 0 <= i < |photos| && PhotoListed(photos[i].doc, formId, containerId, category)
      ensures photos[i] in SelectPhotos(photos, formId, containerId, category)
    {
      assert photos[i] in live;
      assert photos[i] in inContainer;
    }
  }

  // ---------------------------------------------------------------------------
  // deletePhoto
  // ---------------------------------------------------------------------------

  /** `admin`, the owning employee, or the photo's uploader. */
  predicate MayDeletePhoto(role: Option<UserRole>, userId: Id, form: Form, p: Photo)
  {
    (role.Some? && CanEdit(role.value.role, userId, form)) || p.uploadedBy == userId
  }

  /**
   * The checks of `deletePhoto`: signed in, a live photo, a live form, and
   * a caller allowed to delete it. On success, the photo.
   */
  function DeletePhotoCheck(roles: seq<Row<UserRole>>, forms: seq<Row<Form>>, photos: seq<Row<Photo>>,
                            caller: Option<Id>, photoId: Id): (r: Result<Photo, Error>)
    ensures r.Ok? ==> caller.Some? && Get(photos, photoId) == Some(r.value) && !r.value.isDeleted
  {
    if caller.None? then Err(NotAuthenticated)
    else match Get(photos, photoId)
      case None => Err(PhotoNotFound)
      case Some(p) =>
        if p.isDeleted then Err(PhotoNotFound)
        else match Get(forms, p.formId)
          case None => Err(FormNotFound)
          case Some(form) =>
            if form.isDeleted then Err(FormNotFound)
            else if !MayDeletePhoto(ActiveRole(roles, caller.value), caller.value, form, p) then Err(CannotDeletePhoto)
            else Ok(p)
  }

  /**
   * Deletion is refused for a deleted photo; when allowed, the caller is an
   * admin, the employee who owns the form, or the uploader.
   */
  lemma DeletePhotoRules(roles: seq<Row<UserRole>>, forms: seq<Row<Form>>, photos: seq<Row<Photo>>,
                         caller: Option<Id>, photoId: Id)
    ensures caller.Some? && Get(photos, photoId).Some? && Get(photos, photoId).value.isDeleted
      ==> DeletePhotoCheck(roles, forms, photos, caller, photoId) == Err(PhotoNotFound)
    ensures DeletePhotoCheck(roles, forms, photos, caller, photoId).Ok? ==>
      var p := Get(photos, photoId).value;
      var role := ActiveRole(roles, caller.value);
      || (role.Some? && role.value.role == Admin)
      || (role.Some? && role.value.role == Employee && Get(forms, p.formId).value.employeeId == caller.value)
      || p.uploadedBy == caller.value
  {
  }

  /** Marking one photo deleted keeps live hashes unique and every container within the cap. */
  lemma DeleteKeepsPhotoInvariants(photos: seq<Row<Photo>>, photoId: Id, p: Photo)
    requires LiveHashesUnique(photos) && PhotoCapRespected(photos)
    ensures LiveHashesUnique(Put(photos, photoId, p.(isDeleted := true)))
    ensures PhotoCapRespected(Put(photos, photoId, p.(isDeleted := true)))
  {
    var t := Put(photos, photoId, p.(isDeleted := true));
    forall c: Id ensures LivePhotoCount(t, c) <= MaxPhotosPerContainer {
      LivePhotoCountMono(photos, t, c);
    }
  }

  /** `deletePhoto`: after the checks, set `isDeleted` and nothing else. */
  method DeletePhoto(db: Db, caller: Option<Id>, photoId: Id) returns (r: Result<(), Error>)
    requires db.Valid()
    modifies db`photos
    ensures db.Valid()
    ensures r.Ok? <==> DeletePhotoCheck(db.roles, db.forms, old(db.photos), caller, photoId).Ok?
    ensures r.Err? ==> (r.error == DeletePhotoCheck(db.roles, db.forms, old(db.photos), caller, photoId).error
                        && db.photos == old(db.photos))
    ensures r.Ok? ==> db.photos == Put(old(db.photos), photoId, Get(old(db.photos), photoId).value.(isDeleted := true))
  {
    var check := DeletePhotoCheck(db.roles, db.forms, db.photos, caller, photoId);
    if check.Err? {
      return Err(check.error);
    }
    db.PutPhoto(photoId, check.value.(isDeleted := true));
    r := Ok(());
  }
}
