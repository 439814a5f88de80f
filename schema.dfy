/**
 * The documents of the application's tables (convex/schema.ts) and the
 * database that holds them. Fields that no modelled rule reads or writes
 * (free-text booking fields, dimensions, GPS and EXIF metadata, arbitrary
 * `data` payloads) are not carried.
 */
module Schema {
  import opened Common
  import opened Tables

  datatype Role = Employee | Admin | Vendor | OrderPlacer

  /**
   * The permissions a role receives when it is assigned. Only the admin row
   * holds the wildcard `"*"`.
   */
  function PermissionsFor(role: Role): (ps: seq<string>)
    ensures "*" in ps <==> role == Admin
    ensures role == Admin ==> ps == ["*"]
  {
    match role
    case Employee => ["forms.create", "forms.edit", "forms.view_own", "photos.upload"]
    case Admin => ["*"]
    case Vendor => ["photos.upload", "forms.view_assigned"]
    case OrderPlacer => ["forms.view_readonly"]
  }

  /** A user of the auth tables; both fields are optional there. */
  datatype User = User(name: Option<string>, email: Option<string>)

  datatype UserRole = UserRole(
    userId: Id,
    role: Role,
    permissions: seq<string>,
    assignedBy: Option<Id>,
    isActive: bool)

  datatype FormStatus = Pending | Completed

  datatype TransportDetails = TransportDetails(
    estimatedDeparture: int,
    estimatedArrival: int,
    transporterName: string,
    contactPerson: string,
    contactPersonMobile: string,
    vehicleNumber: string,
    driverName: string,
    driverMobile: string)

  /** The booking fields the rules read; the optional ones are optional in `createFormV2`. */
  datatype BookingDetails = BookingDetails(
    bookingNo: string,
    poNumber: Option<string>,
    shipperName: Option<string>,
    vehicalQty: string)

  /**
   * One allocation of vehicles to a transporter, as stored on a form. Forms
   * created by `createForm` name the vendor `vendorUserId`, forms created by
   * `createFormV2` store their arguments, which name it `transporterUserId`.
   */
  datatype Allocation = Allocation(
    id: Option<string>,
    vendorUserId: Option<Id>,
    transporterUserId: Option<Id>,
    transporterName: Option<string>,
    contactPerson: Option<string>,
    contactMobile: Option<string>,
    count: int)

  datatype Completion = Completion(
    transportDetailsComplete: bool,
    bookingDetailsComplete: bool,
    containersComplete: bool,
    photosComplete: bool,
    overallComplete: bool)

  datatype Form = Form(
    refId: string,
    employeeId: Id,
    status: FormStatus,
    transportDetails: Option<TransportDetails>,
    bookingDetails: BookingDetails,
    allocations: seq<Allocation>,
    completion: Completion,
    createdAt: int,
    updatedAt: int,
    submittedAt: Option<int>,
    isDeleted: bool,
    deletedAt: Option<int>,
    deletedBy: Option<Id>,
    deletionReason: Option<string>)

  datatype Container = Container(
    formId: Id,
    containerNumber: string,
    sealNumber: string,
    doNumber: string,
    isoCode: string,
    isoValidated: bool,
    sealIntact: bool,
    damageReported: bool,
    damageDescription: Option<string>,
    assignedVendors: seq<Id>,
    createdAt: int,
    updatedAt: int)

  datatype Category = ContainerExterior | ContainerInterior | Documents | Damage | Other

  datatype Photo = Photo(
    formId: Id,
    containerId: Option<Id>,
    storageId: string,
    category: Category,
    description: Option<string>,
    notes: Option<string>,
    uploadedBy: Id,
    uploadedAt: int,
    fileHash: string,
    originalFilename: string,
    fileSize: int,
    mimeType: string,
    isDeleted: bool)

  datatype RefIdCounter = RefIdCounter(workingYear: string, counter: int, lastUsed: int)

  datatype VehicleStatus = Draft | Submitted

  datatype Vehicle = Vehicle(
    formId: Id,
    allocationId: Option<string>,
    assignedTransporterId: Option<Id>,
    transporterName: string,
    contactPerson: Option<string>,
    contactMobile: Option<string>,
    vehicleNumber: Option<string>,
    driverName: Option<string>,
    driverMobile: Option<string>,
    status: VehicleStatus,
    createdAt: int,
    updatedAt: int,
    updatedBy: Option<Id>)

  datatype AccessLink = AccessLink(
    token: string,
    formId: Id,
    containerIds: seq<Id>,
    createdBy: Id,
    expiresAt: int,
    isRevoked: bool,
    revokedAt: Option<int>,
    revokedBy: Option<Id>,
    accessCount: int,
    lastAccessedAt: Option<int>)

  datatype Notification = Notification(
    userId: Id,
    kind: string,
    title: string,
    message: string,
    isRead: bool,
    createdAt: int)

  datatype Preferences = Preferences(
    emailNotifications: bool,
    pushNotifications: bool,
    notificationTypes: seq<string>,
    timezone: string,
    language: string)

  datatype PreferencesRow = PreferencesRow(userId: Id, prefs: Preferences)

  /** A `systemConfig` entry; the only value the application stores is `true`. */
  datatype ConfigEntry = ConfigEntry(key: string, value: bool, updatedBy: Id, updatedAt: int)

  /** The errors the mutations and queries throw, one per message. */
  datatype Error =
    | NotAuthenticated
    | NoRoleAssigned
    | InsufficientPermissions
    | NoTransportDetails
    | AllocationMismatch(allocatedCount: int, total: int)
    | InvalidAllocationCount
    | FormNotFound
    | CannotEditForm
    | CannotSubmitForm
    | FormNotComplete
    | FormAlreadyDeleted
    | FormNotDeleted
    | ContainerNotFound
    | DuplicateContainerNumber
    | CannotEditContainer
    | CannotRemoveContainer
    | NotAVendor
    | FileTooLarge
    | InvalidFileType
    | CannotUploadPhoto
    | DuplicatePhoto
    | ContainerPhotoLimit
    | PhotoNotFound
    | CannotDeletePhoto
    | AccessDenied
    | AdminAccessRequired
    | AccessLinkNotFound
    | InvalidAccessLink
    | AccessLinkRevoked
    | AccessLinkExpired
    | TokenNotUnique
    | NotificationNotFound

  // ---------------------------------------------------------------------------
  // Table-wide invariants kept by every mutation
  // ---------------------------------------------------------------------------

  predicate LivePhotoIn(p: Photo, containerId: Id)
  {
    !p.isDeleted && p.containerId == Some(containerId)
  }

  /** The number of non-deleted photos attached to a container. */
  function LivePhotoCount(photos: seq<Row<Photo>>, containerId: Id): nat
  {
    if photos == [] then 0
    else (if LivePhotoIn(photos[0].doc, containerId) then 1 else 0) + LivePhotoCount(photos[1..], containerId)
  }

  const MaxPhotosPerContainer := 50

  /** No two non-deleted photos share a file hash. */
  predicate LiveHashesUnique(photos: seq<Row<Photo>>)
  {
    forall i, j :: 0 <= i < j < |photos| && !photos[i].doc.isDeleted && !photos[j].doc.isDeleted
      ==> photos[i].doc.fileHash != photos[j].doc.fileHash
  }

  /** No container holds more than 50 non-deleted photos. */
  ghost predicate PhotoCapRespected(photos: seq<Row<Photo>>)
  {
    forall c: Id :: LivePhotoCount(photos, c) <= MaxPhotosPerContainer
  }

  /** Every role row carries the permissions of the table for its role. */
  predicate RolesFromTable(roles: seq<Row<UserRole>>)
  {
    forall i :: 0 <= i < |roles| ==> roles[i].doc.permissions == PermissionsFor(roles[i].doc.role)
  }

  /** At most one counter row per working year. */
  predicate OneCounterPerYear(counters: seq<Row<RefIdCounter>>)
  {
    forall i, j :: 0 <= i < j < |counters| ==> counters[i].doc.workingYear != counters[j].doc.workingYear
  }

  /** Deleting photos (and nothing else) never raises a container's live count. */
  lemma {:induction false} LivePhotoCountMono(before: seq<Row<Photo>>, after: seq<Row<Photo>>, c: Id)
    requires |before| == |after|
    requires forall i :: 0 <= i < |after| && LivePhotoIn(after[i].doc, c) ==> LivePhotoIn(before[i].doc, c)
    ensures LivePhotoCount(after, c) <= LivePhotoCount(before, c)
  {
    if after != [] {
      LivePhotoCountMono(before[1..], after[1..], c);
    }
  }

  /** Appending a photo adds one to its container's count and nothing to the others. */
  lemma {:induction false} LivePhotoCountAppend(photos: seq<Row<Photo>>, row: Row<Photo>, c: Id)
    ensures LivePhotoCount(photos + [row], c)
      == LivePhotoCount(photos, c) + (if LivePhotoIn(row.doc, c) then 1 else 0)
  {
    if photos == [] {
      assert photos + [row] == [row];
    } else {
      assert (photos + [row])[1..] == photos[1..] + [row];
      LivePhotoCountAppend(photos[1..], row, c);
    }
  }

  /**
   * The whole database. Every table is a sequence of rows in creation order;
   * `nextId` is the id the next insert receives, in any table.
   */
  class Db {
    var users: seq<Row<User>>
    var roles: seq<Row<UserRole>>
    var forms: seq<Row<Form>>
    var containers: seq<Row<Container>>
    var photos: seq<Row<Photo>>
    var vehicles: seq<Row<Vehicle>>
    var counters: seq<Row<RefIdCounter>>
    var links: seq<Row<AccessLink>>
    var notifications: seq<Row<Notification>>
    var preferences: seq<Row<PreferencesRow>>
    var config: seq<Row<ConfigEntry>>
    var nextId: Id

    ghost predicate Valid()
      reads this
    {
      WellKeyed(users, nextId) && WellKeyed(roles, nextId) && WellKeyed(forms, nextId)
      && WellKeyed(containers, nextId) && WellKeyed(photos, nextId) && WellKeyed(vehicles, nextId)
      && WellKeyed(counters, nextId) && WellKeyed(links, nextId) && WellKeyed(notifications, nextId)
      && WellKeyed(preferences, nextId) && WellKeyed(config, nextId)
    }

    constructor()
      ensures Valid()
      ensures users == [] && roles == [] && forms == [] && containers == [] && photos == []
      ensures vehicles == [] && counters == [] && links == [] && notifications == []
      ensures preferences == [] && config == [] && nextId == 0
    {
      users, roles, forms, containers, photos := [], [], [], [], [];
      vehicles, counters, links, notifications := [], [], [], [];
      preferences, config, nextId := [], [], 0;
    }

    /** Hands out a fresh id: larger than every id in every table. */
    method NewId() returns (id: Id)
      requires Valid()
      modifies this`nextId
      ensures id == old(nextId) && nextId == id + 1
      ensures Valid()
    {
      id := nextId;
      nextId := nextId + 1;
    }

    // `ctx.db.insert` and `ctx.db.patch`, one table at a time.

    method InsertUser(doc: User) returns (id: Id)
      requires Valid()
      modifies this`users, this`nextId
      ensures Valid()
      ensures id == old(nextId) && nextId == id + 1 && users == old(users) + [Row(id, doc)]
    {
      InsertWellKeyed(users, nextId, doc);
      id := NewId();
      users := users + [Row(id, doc)];
    }

    method InsertRole(doc: UserRole) returns (id: Id)
      requires Valid()
      modifies this`roles, this`nextId
      ensures Valid()
      ensures id == old(nextId) && nextId == id + 1 && roles == old(roles) + [Row(id, doc)]
    {
      InsertWellKeyed(roles, nextId, doc);
      id := NewId();
      roles := roles + [Row(id, doc)];
    }

    method PutRole(id: Id, doc: UserRole)
      requires Valid()
      modifies this`roles
      ensures Valid()
      ensures roles == Put(old(roles), id, doc)
    {
      SameIdsWellKeyed(roles, Put(roles, id, doc), nextId);
      roles := Put(roles, id, doc);
    }

    method InsertConfig(doc: ConfigEntry) returns (id: Id)
      requires Valid()
      modifies this`config, this`nextId
      ensures Valid()
      ensures id == old(nextId) && nextId == id + 1 && config == old(config) + [Row(id, doc)]
    {
      InsertWellKeyed(config, nextId, doc);
      id := NewId();
      config := config + [Row(id, doc)];
    }

    method InsertForm(doc: Form) returns (id: Id)
      requires Valid()
      modifies this`forms, this`nextId
      ensures Valid()
      ensures id == old(nextId) && nextId == id + 1 && forms == old(forms) + [Row(id, doc)]
    {
      InsertWellKeyed(forms, nextId, doc);
      id := NewId();
      forms := forms + [Row(id, doc)];
    }

    method PutForm(id: Id, doc: Form)
      requires Valid()
      modifies this`forms
      ensures Valid()
      ensures forms == Put(old(forms), id, doc)
    {
      SameIdsWellKeyed(forms, Put(forms, id, doc), nextId);
      forms := Put(forms, id, doc);
    }

    method InsertContainer(doc: Container) returns (id: Id)
      requires Valid()
      modifies this`containers, this`nextId
      ensures Valid()
      ensures id == old(nextId) && nextId == id + 1 && containers == old(containers) + [Row(id, doc)]
    {
      InsertWellKeyed(containers, nextId, doc);
      id := NewId();
      containers := containers + [Row(id, doc)];
    }

    method PutContainer(id: Id, doc: Container)
      requires Valid()
      modifies this`containers
      ensures Valid()
      ensures containers == Put(old(containers), id, doc)
    {
      SameIdsWellKeyed(containers, Put(containers, id, doc), nextId);
      containers := Put(containers, id, doc);
    }

    method InsertPhoto(doc: Photo) returns (id: Id)
      requires Valid()
      modifies this`photos, this`nextId
      ensures Valid()
      ensures id == old(nextId) && nextId == id + 1 && photos == old(photos) + [Row(id, doc)]
    {
      InsertWellKeyed(photos, nextId, doc);
      id := NewId();
      photos := photos + [Row(id, doc)];
    }

    method PutPhoto(id: Id, doc: Photo)
      requires Valid()
      modifies this`photos
      ensures Valid()
      ensures photos == Put(old(photos), id, doc)
    {
      SameIdsWellKeyed(photos, Put(photos, id, doc), nextId);
      photos := Put(photos, id, doc);
    }

    method InsertVehicle(doc: Vehicle) returns (id: Id)
      requires Valid()
      modifies this`vehicles, this`nextId
      ensures Valid()
      ensures id == old(nextId) && nextId == id + 1 && vehicles == old(vehicles) + [Row(id, doc)]
    {
      InsertWellKeyed(vehicles, nextId, doc);
      id := NewId();
      vehicles := vehicles + [Row(id, doc)];
    }

    method PutVehicle(id: Id, doc: Vehicle)
      requires Valid()
      modifies this`vehicles
      ensures Valid()
      ensures vehicles == Put(old(vehicles), id, doc)
    {
      SameIdsWellKeyed(vehicles, Put(vehicles, id, doc), nextId);
      vehicles := Put(vehicles, id, doc);
    }

    method InsertCounter(doc: RefIdCounter) returns (id: Id)
      requires Valid()
      modifies this`counters, this`nextId
      ensures Valid()
      ensures id == old(nextId) && nextId == id + 1 && counters == old(counters) + [Row(id, doc)]
    {
      InsertWellKeyed(counters, nextId, doc);
      id := NewId();
      counters := counters + [Row(id, doc)];
    }

    method PutCounter(id: Id, doc: RefIdCounter)
      requires Valid()
      modifies this`counters
      ensures Valid()
      ensures counters == Put(old(counters), id, doc)
    {
      SameIdsWellKeyed(counters, Put(counters, id, doc), nextId);
      counters := Put(counters, id, doc);
    }

    method InsertLink(doc: AccessLink) returns (id: Id)
      requires Valid()
      modifies this`links, this`nextId
      ensures Valid()
      ensures id == old(nextId) && nextId == id + 1 && links == old(links) + [Row(id, doc)]
    {
      InsertWellKeyed(links, nextId, doc);
      id := NewId();
      links := links + [Row(id, doc)];
    }

    method PutLink(id: Id, doc: AccessLink)
      requires Valid()
      modifies this`links
      ensures Valid()
      ensures links == Put(old(links), id, doc)
    {
      SameIdsWellKeyed(links, Put(links, id, doc), nextId);
      links := Put(links, id, doc);
    }

    method InsertNotification(doc: Notification) returns (id: Id)
      requires Valid()
      modifies this`notifications, this`nextId
      ensures Valid()
      ensures id == old(nextId) && nextId == id + 1 && notifications == old(notifications) + [Row(id, doc)]
    {
      InsertWellKeyed(notifications, nextId, doc);
      id := NewId();
      notifications := notifications + [Row(id, doc)];
    }

    method PutNotification(id: Id, doc: Notification)
      requires Valid()
      modifies this`notifications
      ensures Valid()
      ensures notifications == Put(old(notifications), id, doc)
    {
      SameIdsWellKeyed(notifications, Put(notifications, id, doc), nextId);
      notifications := Put(notifications, id, doc);
    }

    method InsertPreferences(doc: PreferencesRow) returns (id: Id)
      requires Valid()
      modifies this`preferences, this`nextId
      ensures Valid()
      ensures id == old(nextId) && nextId == id + 1 && preferences == old(preferences) + [Row(id, doc)]
    {
      InsertWellKeyed(preferences, nextId, doc);
      id := NewId();
      preferences := preferences + [Row(id, doc)];
    }

    method PutPreferences(id: Id, doc: PreferencesRow)
      requires Valid()
      modifies this`preferences
      ensures Valid()
      ensures preferences == Put(old(preferences), id, doc)
    {
      SameIdsWellKeyed(preferences, Put(preferences, id, doc), nextId);
      preferences := Put(preferences, id, doc);
    }

    method DeleteContainer(id: Id)
      requires Valid()
      modifies this`containers
      ensures Valid()
      ensures containers == Delete(old(containers), id)
    {
      DeleteWellKeyed(containers, nextId, id);
      containers := Delete(containers, id);
    }
  }
}
