# TMS transport forms: a Dafny model

This project models the core of a transport-management system (TMS) for
export logistics. The system runs on Convex. Admins and employees raise
*transport forms*, which are bookings identified by a reference id such as
`IFL2025-26-00001`. The vehicles of a booking are split among vendors
(transporters). Each vendor fills in vehicle and driver details. Containers
and photos are attached to a form, and a form can be shared through expiring
access links. Users receive notifications.

The model covers the server-side mutations and queries, and the allocation
arithmetic of three screens. Each is stated in Dafny and proved against
contracts.

Modules:

- `Common`, `Sorting`, `Tables`, `Schema`: the shared vocabulary.
  - `Option`/`Result`, and JavaScript's `parseInt`, `padStart`, `String(n)` and `toLowerCase` on ASCII.
  - A stable descending sort standing in for `Array.prototype.sort`.
  - Convex tables as sequences of `(id, document)` rows in creation order. Ids are handed out in increasing order, so id order is creation order.
  - The record types of the schema, and a `Db` class holding every table.
- `Users` (convex/users.ts): the permission table, `assignRole`, `hasPermission`, `getCurrentUser`, `getVendors`, `initializeDefaultUsers`.
- `Forms`, `FormsCreate`, `FormsLifecycle`, `FormsList` (convex/forms.ts):
  - the permission check;
  - the working year and `generateRefId`'s per-year counter;
  - `createForm` and `createFormV2` with its vehicle drafts;
  - submit, delete and restore;
  - `listForms` filtering and sorting.
- `Containers` (convex/containers.ts): the container-number check, and adding, updating, removing and vendor-assigning containers.
- `Photos` (convex/photos.ts): upload admission (size, type, duplicate hash, 50-photo cap, who may upload), listing, and soft deletion.
- `Access` (convex/access.ts): the random link token, generating, revoking and using access links, and listing them newest first.
- `Notifications` (convex/notifications.ts): sending, listing, reading and counting notifications, and notification preferences.
- `Vendor` (convex/vendor.ts): the per-form aggregation of a vendor's assigned vehicles.
- `Maintenance` (convex/maintenance.ts): the two data-repair mutations.
- `FormCreator` (src/components/FormCreator.tsx):
  - allocation rows clamped to the vehicle total;
  - `#` auto-numbering of vehicle numbers;
  - batch adding of vehicles, draft validation and submit readiness.
- `TransporterDashboard` (src/components/TransporterDashboard.tsx): the overview counts, and the per-vendor allocation editor with its save payload and locking.
- `FormViewer` (src/components/FormViewer.tsx):
  - whether all vehicles are submitted;
  - per-allocation status, via a three-rule vehicle match;
  - the vendor shown per vehicle, and the vendor-grouped export sheet;
  - the download and submit flags.

How operations are modelled:

- Queries are functions over table snapshots.
- Mutations are methods on `Db` with frames naming the tables they write. Each method's `ensures` ties the new tables to a function of the old ones.
- Each screen's state is a class whose fields are its React state. Each handler is a method.
- The parameters stand in for what comes from outside:
  - the signed-in user (`getAuthUserId`);
  - the clock (`Date.now()`), random bytes and ids;
  - file hashes and storage ids;
  - the answer of a confirmation dialog.

An error thrown by a mutation becomes the error case of a `Result`.

## Model

| member | source | states |
|---|---|---|
| Common.NatToString | convex/forms.ts:84 | `toString()` of a count: digits only, never empty, and no leading zero from 10 upward |
| Common.DigitsValueOfNatToString | convex/forms.ts:84 | the numeral written by `toString()` reads back as the number |
| Common.PaddedNumeralInjective | convex/forms.ts:84 | two counters whose zero-padded numerals (`padStart(5, "0")`) are equal are equal |
| Common.PaddedNumeralValue | convex/forms.ts:84 | a zero-padded numeral is all digits, and its value is the counter |
| Common.ParseIntOfNatToString | convex/forms.ts:780 | `parseInt(n.toString(), 10)` gives back `n` |
| Common.ParseIntOfDigits | convex/forms.ts:780 | a non-empty string of digits parses to its decimal value |
| Common.LeadingDigitsStopAt | convex/forms.ts:780 | `parseInt` stops reading at the first non-digit |
| Common.ToLower | convex/forms.ts:382-388 | `toLowerCase()` keeps the length and lowers each character, ASCII letters only |
| Sorting.SortDesc | convex/forms.ts:394 | the sort with comparator `b.createdAt - a.createdAt` returns a permutation of its input |
| Sorting.SortDescSorted | convex/forms.ts:394 | the sorted list is ordered newest (largest key) first |
| Sorting.SortDescMembers | convex/forms.ts:394 | sorting neither adds nor drops an element |
| Sorting.SortDescStable | convex/forms.ts:394 | the sort is stable: for any key value, the elements with that key keep their input order |
| Sorting.SortDescIncreasing | convex/forms.ts:394 | sorting rows whose keys strictly increase, newest first, reverses them |
| Sorting.SortDescDistinct | convex/forms.ts:394 | sorting keeps distinct ids distinct |
| Sorting.SortDescSum | convex/forms.ts:394 | sorting keeps the sum of any measure of the elements |
| Schema.PermissionsFor | convex/users.ts:128-134 | the permission table: only the admin row holds the wildcard `"*"`, and then as its only entry |
| Users.ActiveRole | convex/users.ts:56-60 | the role found is an active row belonging to the user |
| Users.ActiveRoleNone | convex/users.ts:56-60 | the lookup is empty exactly when the user has no active role row |
| Users.ActiveRoleFirst | convex/users.ts:56-60 | `.first()` returns the user's earliest active row in creation order |
| Users.ActiveRoleIsRow | convex/users.ts:81-85 | the role found is one of the table's rows |
| Users.CallerRole | convex/users.ts:76-85 | a signed-out caller has no role; otherwise the role is the caller's active row |
| Users.HasPermission | convex/users.ts:73-93 | false when signed out or without an active role; otherwise true exactly when the role lists the permission or is admin |
| Users.HasPermissionFromTable | convex/users.ts:91-134 | with roles built from the permission table, an admin has every permission and any other role exactly those the table lists for it |
| Users.GetCurrentUser | convex/users.ts:43-68 | null when signed out or the user document is missing; otherwise the user's document, with role and permissions taken from the active row, or no role and no permissions |
| Users.GetVendors | convex/users.ts:9-40 | at most one entry per role row |
| Users.GetVendorsSound | convex/users.ts:13-38 | every listed vendor is an existing user shown under that user's name, and has a vendor role row |
| Users.GetVendorsComplete | convex/users.ts:13-38 | every vendor role row whose user exists is listed, whether or not the row is active |
| Users.Deactivated | convex/users.ts:119-126 | the table keeps its rows and ids; the target's rows become inactive; all other rows are unchanged |
| Users.AssignRoleGate | convex/users.ts:102-116 | passes exactly for a caller whose active role is admin; "Not authenticated" when signed out, otherwise "Insufficient permissions" |
| Users.AssignedRoleIsOnlyActive | convex/users.ts:118-143 | after deactivation plus the insert, the new row is the user's only active role |
| Users.AssignRoleKeepsPermissions | convex/users.ts:128-143 | deactivating rows and appending a row built from the table keeps every row's permissions as the table says |
| Users.DeactivateRoles | convex/users.ts:119-126 | the loop leaves the role table equal to `Deactivated` of the old one |
| Users.AssignRole | convex/users.ts:96-147 | a refused call changes nothing; an accepted call deactivates the target's rows, appends one active row with the table's permissions and the assigner, and that row becomes the target's active role |
| Users.InitializedAfterInsert | convex/users.ts:157-212 | inserting the `users_initialized` entry makes the next call see an initialised database |
| Users.WithSeededUsers | convex/users.ts:175-181 | the users table grows by one row per seeded user, and the existing rows keep their place |
| Users.WithSeededRoles | convex/users.ts:183-195 | the role table grows by one active row per seeded user, with the table's permissions, and the existing rows keep their place |
| Users.FirstUserWithEmailFound | convex/users.ts:201-204 | the lookup finds a user whenever one carries the address |
| Users.FirstUserWithEmailSound | convex/users.ts:201-204 | the lookup returns the earliest user with that address |
| Users.SeededAdminFound | convex/users.ts:167-210 | after seeding, the admin e-mail lookup succeeds, so `adminUser!` cannot fail |
| Users.SeedDefaultUsers | convex/users.ts:175-196 | the loop appends each default user followed by its role row, using two fresh ids per user |
| Users.SeedDefaultUser | convex/users.ts:178-195 | one turn of the loop: the user row, then its active role row with no assigner |
| Users.InitializeDefaultUsers | convex/users.ts:153-216 | already initialised: changes nothing. Otherwise: seeds the five users and their roles, then records the config entry naming the admin user. Either way the database ends up initialised |
| Users.CreateDefaultUsers | convex/users.ts:166-212 | the seeding branch: seeded tables, and a config entry naming the first user with the admin e-mail |
| Forms.CheckPermission | convex/forms.ts:15-39 | on success, the caller is signed in and the role returned is the caller's active role row |
| Forms.CheckPermissionOk | convex/forms.ts:15-39 | passes exactly for a signed-in caller whose active role lists `"*"` or the permission. Otherwise it fails with "Not authenticated", "No role assigned" or "Insufficient permissions", in that order |
| Forms.CheckPermissionAgreesWithHasPermission | convex/forms.ts:31-32 | with role rows built from the permission table, the mutation gate and the `hasPermission` query agree on every permission |
| Forms.WildcardRowCounterexample | convex/forms.ts:31-32 | the mutation gate reads `"*"` while the `hasPermission` query reads the admin role: an employee row holding `"*"` (one the table never produces) passes the first and fails the second |
| Forms.WorkingYearCases | convex/forms.ts:45-54 | from April 1 of Y the working year is `"Y-yy"` with yy the last two digits of Y+1; before it, `"(Y-1)-yy"` with yy the last two digits of Y |
| Forms.WorkingYearSpansAprilToMarch | convex/forms.ts:48-54 | April–December of Y and January–March of Y+1 share one working year |
| Forms.WorkingYearLabelInjective | convex/forms.ts:52-54 | working years starting in different years have different labels |
| Forms.RefIdInjective | convex/forms.ts:84 | within one working year, different counters give different reference ids |
| Forms.FirstRefIdOfYear | convex/forms.ts:62-84 | a year's counter starts at 0, so its first id ends in `-00001` |
| Forms.CounterIndex | convex/forms.ts:57-60 | the `.first()` lookup lands on a row of the working year, or past the end when there is none |
| Forms.CounterIndexFirst | convex/forms.ts:57-60 | no earlier row belongs to that working year |
| Forms.CounterIndexAfterUpdate | convex/forms.ts:78-81 | patching the counter in place moves no year's counter row |
| Forms.CounterIndexAfterAppend | convex/forms.ts:62-74 | inserting a new year's row moves no existing year's counter row |
| Forms.BumpCounterRaisesByOne | convex/forms.ts:56-81 | one `generateRefId` raises its own year's stored counter by exactly one and leaves every other year's counter as it was |
| Forms.BumpCounterKeepsOnePerYear | convex/forms.ts:57-74 | a row is created only for a year that has none, so each year keeps at most one counter row, and counters stay non-negative |
| Forms.GenerateRefId | convex/forms.ts:42-88 | for the working year of the date (`WorkingYear` of its year and month), the counter table becomes `BumpCounter` of the old one; a fresh id is used only when the year had no row; the id is `IFL<year>-<counter+1, padded to 5 digits>` |
| FormsCreate.CreateFormCheck | convex/forms.ts:218-238 | on success the caller is the signed-in user |
| FormsCreate.CreateFormCheckOk | convex/forms.ts:218-238 | refused exactly without the `forms.create` permission or with neither transport details nor a vehicle. Given details are used as they are; otherwise the first vehicle's details are used |
| FormsCreate.CreateForm | convex/forms.ts:146-272 | a refused call changes nothing. An accepted one bumps the year's counter and appends one pending, undeleted form with the caller as employee, the new reference id, the transport details and the allocation snapshot (`[]` when absent) |
| FormsCreate.V2CheckAsWritten | convex/forms.ts:767-784 | the checks as written: on success the caller is the signed-in user |
| FormsCreate.NegativeCountCounterexample | convex/forms.ts:780-834 | a booking of 2 allocated as 3 and −1 passes the written check yet creates 3 drafts; the corrected check refuses it |
| FormsCreate.V2Check | convex/forms.ts:767-784 | the corrected check passes only where the written one passes, and also refuses negative counts |
| FormsCreate.V2CheckDraftsMatchTotal | convex/forms.ts:780-834 | after the corrected check, the total is positive and exactly that many drafts are created |
| FormsCreate.Copies | convex/forms.ts:810 | `for (i = 0; i < n; i++)` runs `max(n, 0)` times |
| FormsCreate.Numbered | convex/forms.ts:811 | rows inserted one after the other get consecutive ids |
| FormsCreate.DraftsLength | convex/forms.ts:809-834 | the number of drafts is the sum of the counts, a negative count contributing none |
| FormsCreate.IterationsOfNonNegative | convex/forms.ts:781-810 | with no negative count, the loop's iterations equal the `reduce` sum that was checked |
| FormsCreate.DraftsPerTransporter | convex/forms.ts:809-834 | each transporter is assigned exactly as many drafts as the counts allocated to it |
| FormsCreate.AssignedToAppend | convex/forms.ts:814 | per-transporter draft counts add up over concatenation |
| FormsCreate.WithDraftsNumbered | convex/forms.ts:809-834 | the vehicle table after the loops is the old table followed by the drafts, numbered consecutively |
| FormsCreate.InsertCopies | convex/forms.ts:810-833 | the inner loop appends `count` copies of the draft (none for a negative count) and uses that many ids |
| FormsCreate.InsertDrafts | convex/forms.ts:809-834 | the outer loop appends every allocation's drafts, in order, and uses one id per draft |
| FormsCreate.InsertFormWithDrafts | convex/forms.ts:790-834 | appends the form (no transport details, the allocations as snapshot), then its drafts numbered right after it |
| FormsCreate.CreateFormV2 | convex/forms.ts:727-846 | a refused call changes nothing. An accepted one bumps the year's counter and inserts the pending form and one draft per allocated vehicle, each draft assigned to its allocation's transporter |
| FormsLifecycle.ContainerCountPositive | convex/forms.ts:522-533 | `containersComplete` holds exactly when some container row names the form |
| FormsLifecycle.LiveFormPhotoCountPositive | convex/forms.ts:527-534 | `photosComplete` holds exactly when some non-deleted photo names the form |
| FormsLifecycle.SubmitCheck | convex/forms.ts:499-546 | on success the caller is the signed-in user and the form is the stored one |
| FormsLifecycle.SubmitCheckOk | convex/forms.ts:499-546 | passes exactly for a permitted caller allowed to edit a live stored form with at least one container and one non-deleted photo. A missing or deleted form fails with "Form not found" |
| FormsLifecycle.SubmittedIsComplete | convex/forms.ts:533-554 | a form that passes is stored completed, with its submission time and every completion flag true |
| FormsLifecycle.SubmitByAdminOrEmployee | convex/forms.ts:513-519 | whatever the permission lists say, only an admin, or an employee on their own form, passes the submit checks |
| FormsLifecycle.SubmitForm | convex/forms.ts:496-570 | a refused call changes nothing; an accepted one patches only that form to `Submitted` with the completion flags worked out |
| FormsLifecycle.DeleteCheck | convex/forms.ts:579-588 | on success the form is stored and not yet deleted |
| FormsLifecycle.RestoreCheck | convex/forms.ts:619-628 | on success the form is stored and currently deleted |
| FormsLifecycle.DeleteRestoreRefusals | convex/forms.ts:579-628 | deleting a deleted form fails with "Form already deleted"; restoring a live one fails with "Form is not deleted" |
| FormsLifecycle.RestoreUndoesDelete | convex/forms.ts:590-637 | delete then restore gives back the form as it was, apart from `updatedAt`, with the deletion fields cleared |
| FormsLifecycle.DeleteThenRestoreAllowed | convex/forms.ts:573-637 | after a delete, a permitted caller may restore and nobody may delete again |
| FormsLifecycle.RestoreThenDeleteAllowed | convex/forms.ts:573-637 | after a restore, a permitted caller may delete and nobody may restore again |
| FormsLifecycle.DeleteRestoreAdminOnly | convex/forms.ts:579-619 | with role rows from the permission table, only admins delete or restore |
| FormsLifecycle.DeleteForm | convex/forms.ts:573-613 | a refused call changes nothing; an accepted one marks that form deleted by the caller, at `now`, with the reason |
| FormsLifecycle.RestoreForm | convex/forms.ts:616-653 | a refused call changes nothing; an accepted one makes the form live and clears who, when and why |
| FormsList.ListForms | convex/forms.ts:322-398 | fails exactly when signed out ("Not authenticated") or without an active role ("No role assigned"); never returns more rows than stored |
| FormsList.ListFormsSound | convex/forms.ts:346-391 | every row returned is stored, live, and in the caller's scope: an employee's own forms, or the chosen employee's for an admin. It also passes the status, `dateFrom`, `dateTo` and case-insensitive search filters, each applied only when its argument is truthy |
| FormsList.ListFormsComplete | convex/forms.ts:346-391 | every stored form in scope that passes the filters is returned |
| FormsList.ListFormsSorted | convex/forms.ts:393-394 | the list is ordered by `createdAt`, newest first |
| FormsList.ListFormsTiesInCreationOrder | convex/forms.ts:394 | forms with the same `createdAt` keep their creation order |
| FormsList.IncludesLower | convex/forms.ts:382-389 | a case-sensitive match is also a case-insensitive match |
| FormsList.SearchFindsRefId | convex/forms.ts:384 | searching for any piece of a reference id finds the form |
| Containers.ValidateIso6346 | convex/containers.ts:7-33 | true exactly for four capital letters then seven digits whose weighted sum (letter i as its code − 55, times 2^i; serial digit i times 2^(i+4)) leaves, modulo 11, the last digit; false for any other shape |
| Containers.RemainderTenNeverValid | convex/containers.ts:31-32 | a number whose sum leaves remainder 10 is never valid |
| Containers.OneCheckDigit | convex/containers.ts:14-32 | of the ten numbers that differ only in the last digit, exactly the one whose digit is the remainder is valid, and none when the remainder is 10 |
| Containers.AcceptedNumber | convex/containers.ts:7-33 | `AAAA0000007` is accepted and `AAAA0000008` is not |
| Containers.StandardNumberRejected | convex/containers.ts:19-32 | `CSQU3054383`, whose ISO 6346 check digit is 3, is well formed but rejected: the code's letter values and its final `% 11` differ from the standard's |
| Containers.NumberTakenIff | convex/containers.ts:83-87 | the duplicate lookup finds a row exactly when a container of the form carries the number |
| Containers.ContainerCountAppend | convex/containers.ts:113-121 | inserting a container adds one to its own form's count and nothing to any other |
| Containers.AddContainerCheck | convex/containers.ts:55-91 | on success the caller is signed in and the form returned is the stored one |
| Containers.AddContainerCheckOk | convex/containers.ts:55-91 | passes exactly for a signed-in editor (admin, or the employee who owns the form) of a live form, when no container of that form carries the number |
| Containers.AddKeepsNumbersUnique | convex/containers.ts:83-110 | inserting a number not yet used in its form keeps numbers unique per form |
| Containers.AddContainer | convex/containers.ts:36-139 | a refused call changes nothing. An accepted one appends the container with no vendors and `isoValidated` set exactly when the number is valid. It then patches the form's `containersComplete` to true, keeps the other flags, and keeps numbers unique per form |
| Containers.PatchedChangesOnlySupplied | convex/containers.ts:190-207 | an update changes only the supplied fields and `updatedAt`; `isoValidated` is recomputed only when a number is supplied; an empty patch changes nothing but `updatedAt` |
| Containers.NumberTakenByOtherIff | convex/containers.ts:83-91 | the duplicate test for a rename finds exactly another container of the form with that number |
| Containers.UpdateContainerCheckAsWritten | convex/containers.ts:160-188 | the checks as written: on success the caller is signed in and the container returned is the stored one |
| Containers.UpdateDuplicateCounterexample | convex/containers.ts:190-209 | renaming a container to the number of another container of its form passes the written checks and leaves two containers of one form with one number; the corrected check refuses it |
| Containers.UpdateContainerCheck | convex/containers.ts:83-188 | the corrected check passes only where the written one passes, and refuses a new number already used by another container of the form |
| Containers.UpdateKeepsNumbersUnique | convex/containers.ts:190-209 | with the corrected check, an update keeps numbers unique per form |
| Containers.UpdateContainer | convex/containers.ts:142-225 | a refused call changes nothing; an accepted one replaces only that container by its patched version |
| Containers.DeleteContainerPhotos | convex/containers.ts:260-268 | the loop marks every photo of the container deleted and leaves every other photo as it was |
| Containers.MarkedDeletedEffect | convex/containers.ts:260-268 | afterwards the container has no live photo; other photos and all ids are unchanged |
| Containers.MarkedDeletedKeepsPhotoInvariants | convex/containers.ts:260-268 | marking photos deleted keeps live hashes unique and every container within 50 live photos |
| Containers.RemoveContainerCheck | convex/containers.ts:231-258 | on success the caller is signed in, and the container and its live form are the stored ones |
| Containers.RemainingContainers | convex/containers.ts:270-281 | after the delete, the form still has containers exactly when another container names it |
| Containers.RemoveContainer | convex/containers.ts:228-299 | a refused call changes nothing. An accepted one marks the container's photos deleted and deletes the container. It then sets the form's `containersComplete` to whether any container remains, keeping the other flags |
| Containers.AddVendorProperties | convex/containers.ts:353-362 | the vendor set gains exactly the new vendor, the old list is a prefix of the new one, and no duplicate appears; adding the same vendor again changes nothing |
| Containers.AssignVendorCheck | convex/containers.ts:335-351 | on success the container is stored and the vendor's active role is vendor |
| Containers.AssignVendorAdminOnly | convex/containers.ts:335 | with role rows from the permission table, only admins assign vendors to containers |
| Containers.AssignVendorToContainer | convex/containers.ts:329-366 | a refused call changes nothing; an accepted one stores the container with the vendor appended when absent, and otherwise leaves it as it was |
| Photos.HashInUseIff | convex/photos.ts:104-108 | the deduplication lookup finds a row exactly when a live photo carries the hash |
| Photos.UploadCheckAsWritten | convex/photos.ts:51-125 | the checks as written: on success the form is stored and live, no live photo has the hash, and a named container holds fewer than 50 live photos |
| Photos.CrossFormUploadCounterexample | convex/photos.ts:91-96 | a vendor assigned to a container of form A passes the written checks when uploading to form B by naming that container; the corrected check refuses it |
| Photos.UploadCheck | convex/photos.ts:51-125 | the corrected check passes only where the written one passes, and additionally holds a vendor to the containers of the form |
| Photos.UploadLimits | convex/photos.ts:57-66 | over 10 MiB fails with "File size exceeds 10MB limit" (exactly 10 MiB is accepted); a MIME type other than JPEG, PNG or WebP fails with "Invalid file type" |
| Photos.UploadPermission | convex/photos.ts:84-101 | an accepted upload comes from an admin, from the employee who owns the form, or from a vendor naming a container of the form that lists them; a vendor naming no container is refused |
| Photos.UploadAdmission | convex/photos.ts:103-125 | an accepted upload carries a hash no live photo has, and its container has fewer than 50 live photos |
| Photos.AppendKeepsHashesUnique | convex/photos.ts:103-144 | inserting a photo whose hash is not in use keeps live hashes unique |
| Photos.AppendKeepsPhotoCap | convex/photos.ts:114-144 | inserting into a container below the cap keeps every container at 50 live photos at most |
| Photos.LiveFormPhotoCountAppend | convex/photos.ts:146-156 | inserting a live photo adds one to its form's live count and nothing to other forms |
| Photos.UploadPhoto | convex/photos.ts:20-179 | a refused call changes nothing. An accepted one appends the live photo under a fresh id and sets the form's `photosComplete` to true, keeping the other flags. It keeps live hashes unique and every container within the cap |
| Photos.GetPhotos | convex/photos.ts:182-247 | "Not authenticated" when signed out; `[]` for a missing or deleted form; otherwise "Access denied" is the only error; never more rows than stored |
| Photos.GetPhotosExact | convex/photos.ts:220-235 | the rows returned are exactly the stored live photos of the form, narrowed to the container and the category when given |
| Photos.SelectPhotosExact | convex/photos.ts:220-235 | the three filters in a row select exactly the live photos of the form in the container and category |
| Photos.DeletePhotoCheck | convex/photos.ts:253-281 | on success the caller is signed in and the photo is stored and live |
| Photos.DeletePhotoRules | convex/photos.ts:258-281 | deleting a deleted photo fails with "Photo not found"; an allowed caller is an admin, the employee who owns the form, or the uploader |
| Photos.DeleteKeepsPhotoInvariants | convex/photos.ts:283 | marking a photo deleted keeps live hashes unique and every container within the cap |
| Photos.DeletePhoto | convex/photos.ts:250-298 | a refused call changes nothing; an accepted one sets `isDeleted` on that photo and changes nothing else |
| Access.ByteHexNibbles | convex/access.ts:26-28 | `b.toString(16).padStart(2, "0")` writes a byte as its high nibble, then its low nibble |
| Access.HexRunShape | convex/access.ts:26-30 | the hexadecimal of the bytes uses only lower-case hex digits |
| Access.UnHexHexRun | convex/access.ts:26-30 | the hexadecimal of the bytes reads back as the bytes |
| Access.FormatUuid | convex/access.ts:30 | the token is 36 characters long |
| Access.UuidGroups | convex/access.ts:30 | the five groups of the token are the hexadecimal of bytes 0–3, 4–5, 6–7, 8–9 and 10–15, separated by hyphens at 8, 13, 18 and 23 |
| Access.UuidShape | convex/access.ts:26-30 | the token is 36 characters of lower-case hexadecimal, with hyphens at positions 8, 13, 18 and 23 only |
| Access.UuidRoundTrip | convex/access.ts:26-30 | reading the token back gives the 16 bytes again, so distinct bytes give distinct tokens |
| Access.WithVersionBits | convex/access.ts:22-23 | the high nibble of byte 6 becomes 4 and the top two bits of byte 8 become `10` (section 4.4 of RFC 4122); every other bit is kept |
| Access.UuidVersionDigit | convex/access.ts:22-30 | the token's version digit (position 14) is `4` |
| Access.UuidVariantDigit | convex/access.ts:22-30 | the token's variant digit (position 19) is one of `8`, `9`, `a`, `b` |
| Access.SafeRandomId | convex/access.ts:17-31 | the random bytes are updated in place to carry the version and variant bits, and the token is their UUID layout |
| Access.LinkByToken | convex/access.ts:100-124 | `.unique()`: nothing exactly when no link carries the token; the one row when exactly one does; otherwise an error |
| Access.LinkByTokenOne | convex/access.ts:100-104 | a token carried by exactly one row finds that row |
| Access.PutKeepsLinkFound | convex/access.ts:106-158 | patching the found link, keeping its token, leaves the token finding the patched row |
| Access.AdminCheck | convex/access.ts:49-57 | passes exactly for a signed-in caller whose active role is admin; "Not authenticated" when signed out, "Admin access required" otherwise |
| Access.GenerateAccessLink | convex/access.ts:42-84 | a refused call changes nothing. An accepted one returns the token made from the random bytes and an expiry of `now + (expiryHours ?? 72)` hours. It appends an unrevoked link with access count 0, created by the caller |
| Access.RevokeCheck | convex/access.ts:89-104 | on success the caller is an admin and the token finds exactly that link |
| Access.RevokeAccessLink | convex/access.ts:87-114 | a refused call changes nothing; an accepted one marks the token's link revoked, with when and by whom, and changes nothing else |
| Access.SharedContainers | convex/access.ts:131-169 | at most one entry per listed id; every entry is a listed container that still exists |
| Access.SharedContainersComplete | convex/access.ts:131-152 | every listed container that still exists is shared, with exactly its live photos |
| Access.AccessCheck | convex/access.ts:119-129 | on success the token finds one link, which is not revoked and not past its expiry, and whose form is stored and live |
| Access.AccessRules | convex/access.ts:119-129 | an unknown token fails with "Invalid access link", a revoked link with "Access link has been revoked" and a link past its expiry with "Access link has expired"; a live link to a live form opens up to and including its expiry instant |
| Access.AccessFormByToken | convex/access.ts:117-176 | a refused call changes nothing. An accepted one raises the link's count by one and stamps the visit. It returns the form summary, the shared containers and the new count |
| Access.RevokedLinkRefused | convex/access.ts:106-125 | once revoked, a link's token opens nothing, at any later time |
| Access.VisitCounted | convex/access.ts:155-158 | after a visit the token finds the link with its count raised by exactly one |
| Access.DefaultLinkLifetime | convex/access.ts:60-126 | a link made with the default expiry opens exactly 72 hours later and is expired one millisecond after that |
| Access.ListAccessLinks | convex/access.ts:203-233 | admin only, with the same errors as link creation; one entry per link |
| Access.ListAccessLinksNewestFirst | convex/access.ts:216-228 | the links come newest first (the table back to front); each carries its form exactly when the form exists |
| Notifications.SendNotification | convex/notifications.ts:6-25 | appends one unread notification for the recipient, stamped `now`, under a fresh id |
| Notifications.Take | convex/notifications.ts:40 | `.take(n)` returns the first `min(n, length)` items, none for `n <= 0` |
| Notifications.GetNotifications | convex/notifications.ts:28-44 | fails exactly when signed out; otherwise returns only stored notifications of the caller, at most `limit` of them, 50 when the limit is absent or 0 |
| Notifications.GetNotificationsNewestFirst | convex/notifications.ts:36-40 | the page is ordered newest first (strictly decreasing ids) |
| Notifications.GetNotificationsAll | convex/notifications.ts:36-40 | a caller with no more notifications than the page size gets every one of them |
| Notifications.OwnIdsIncrease | convex/notifications.ts:36-38 | the caller's notifications, in index order, have increasing ids |
| Notifications.MarkAsReadCheck | convex/notifications.ts:50-58 | passes exactly when the caller owns a stored notification; otherwise "Not authenticated" when signed out, else "Notification not found" |
| Notifications.MarkAsRead | convex/notifications.ts:47-64 | a refused call changes nothing; an accepted one sets `isRead` on that notification and nothing else |
| Notifications.PutUnchanged | convex/notifications.ts:60 | patching a row with the document it already holds changes nothing |
| Notifications.MarkAsReadIdempotent | convex/notifications.ts:47-64 | marking a notification read a second time succeeds and changes nothing |
| Notifications.GetUnreadCount | convex/notifications.ts:67-82 | 0 when signed out; never more than the stored notifications |
| Notifications.SendRaisesUnread | convex/notifications.ts:15-80 | a new notification raises its recipient's unread count by exactly one |
| Notifications.MarkAsReadLowersUnread | convex/notifications.ts:60-80 | marking an unread notification read lowers the caller's unread count by exactly one |
| Notifications.PatchedFields | convex/notifications.ts:104-109 | an empty patch changes nothing, and applying a patch twice is applying it once |
| Notifications.GetPreferences | convex/notifications.ts:127-148 | fails exactly when signed out; the defaults (e-mail and push on, three types, `Asia/Kolkata`, `en`) for a caller without a record |
| Notifications.UpdatePreferences | convex/notifications.ts:85-124 | fails exactly when signed out, changing nothing then; otherwise the caller's first record is patched with the supplied fields, or a defaults record carrying them is inserted |
| Notifications.GetAfterUpdate | convex/notifications.ts:99-146 | after an update, the caller reads the patch applied to what they read before (the defaults when there was no record) |
| Notifications.GetAfterUpdateOther | convex/notifications.ts:99-119 | another user's preferences read the same as before |
| Notifications.FirstIndexAppend | convex/notifications.ts:99-119 | inserting another user's record leaves the caller's first record where it was |
| Vendor.SubmittedAtMostCount | convex/vendor.ts:36-38 | a form never has more submitted vehicles than vehicles |
| Vendor.CountOfPositive | convex/vendor.ts:33-39 | every vehicle counts towards its own form |
| Vendor.Slot | convex/vendor.ts:36 | `grouped.get(fid)` finds the form's entry, or reports none |
| Vendor.SlotFound | convex/vendor.ts:36 | the lookup stops no later than any entry of the form |
| Vendor.CountExisting | convex/vendor.ts:36-39 | counting a vehicle whose form has an entry keeps one entry per form with that form's counters, and adds one to the total |
| Vendor.CountNew | convex/vendor.ts:36-39 | counting the first vehicle of a form appends its entry and keeps the grouping exact, adding one to the total |
| Vendor.GroupingCorrect | convex/vendor.ts:32-40 | the `Map` holds one entry per form of the vehicles, with that form's vehicle and submitted counts, and counts every vehicle once |
| Vendor.CountedSomewhere | convex/vendor.ts:33-39 | a form with a positive count has a vehicle |
| Vendor.GroupByForm | convex/vendor.ts:32-40 | the aggregation loop yields one entry per form, with that form's vehicle and submitted counts, and counts every vehicle once |
| Vendor.SortedAnswers | convex/vendor.ts:56-57 | sorting the joined rows newest first gives the answer |
| Vendor.SortedReports | convex/vendor.ts:57 | sorting keeps every row's report |
| Vendor.SortedLists | convex/vendor.ts:57 | sorting keeps every listed form listed |
| Vendor.SlotOfDistinct | convex/vendor.ts:44 | in a grouping without repeated forms, each entry is where its form is found |
| Vendor.JoinPush | convex/vendor.ts:44-54 | pushing the row of an entry whose form is live keeps the join exact |
| Vendor.PushReports | convex/vendor.ts:47-53 | the pushed row reports its form with the entry's counters |
| Vendor.PushDistinct | convex/vendor.ts:44-53 | each form is pushed at most once |
| Vendor.PushLists | convex/vendor.ts:44-53 | every live form of the entries seen so far is listed |
| Vendor.JoinSkip | convex/vendor.ts:45-46 | an entry whose form is missing or deleted is skipped, and the join stays exact |
| Vendor.JoinDone | convex/vendor.ts:42-58 | joining every entry then sorting gives the answer for the caller's vehicles |
| Vendor.ListAssignedForms | convex/vendor.ts:8-60 | `[]` when signed out or not an active vendor. Otherwise every live form of the caller's vehicles, once each, with its reference id, creation time, vehicle count and submitted count, newest first; the counts add up to at most the caller's vehicles |
| Maintenance.Rewritten | convex/maintenance.ts:8-46 | a pass over the collected rows keeps ids, order and length, and rewrites each document |
| Maintenance.CountFirstAtMost | convex/maintenance.ts:16-43 | the counter never exceeds the number of rows visited |
| Maintenance.CountFirstNone | convex/maintenance.ts:16-43 | with no row to patch, the counter stays 0 |
| Maintenance.RewrittenFirst | convex/maintenance.ts:10-46 | a partial pass keeps the length of the table |
| Maintenance.RewriteStep | convex/maintenance.ts:10-46 | one turn rewrites exactly the next row, which the earlier turns left as collected |
| Maintenance.RewriteAll | convex/maintenance.ts:10-46 | the finished pass is the whole rewrite; before it starts nothing has changed |
| Maintenance.Stripped | convex/maintenance.ts:11-15 | the patch removes both legacy contact fields, changes nothing else, and leaves a clean vehicle as it was |
| Maintenance.StripRow | convex/maintenance.ts:11-17 | one turn strips the row and reports a patch exactly when the row had a contact field |
| Maintenance.CleanupLegacyContactFields | convex/maintenance.ts:4-21 | every vehicle loses both contact fields; the count returned is the number of vehicles that had one |
| Maintenance.CleanupSecondRun | convex/maintenance.ts:4-21 | after the cleanup no vehicle has a contact field: a second run patches nothing and changes nothing |
| Maintenance.CleanupCountBound | convex/maintenance.ts:16-19 | the count is at most the number of vehicles, and 0 when none has a contact field |
| Maintenance.NameFor | convex/maintenance.ts:32-45 | a name is written exactly when the vehicle's name is blank once trimmed and its assigned vendor's user exists with a non-empty name; that name is written |
| Maintenance.NamedApplied | convex/maintenance.ts:40-43 | a vehicle counted as patched is exactly one that gets a name, and the patch sets only `transporterName` |
| Maintenance.NameRow | convex/maintenance.ts:31-45 | one turn patches the row's name when it gets one and reports exactly that |
| Maintenance.PopulateTransporterNames | convex/maintenance.ts:24-50 | every vehicle without a name whose vendor has one takes that name; `updated` counts those vehicles and `total` is the number of vehicles collected |
| Maintenance.PopulateEffect | convex/maintenance.ts:30-46 | only the transporter name can change, only where it was blank, and only to the assigned vendor's non-empty name; a vehicle with a name is untouched |
| Maintenance.PopulateSecondRun | convex/maintenance.ts:24-50 | running the repair again leaves the table as the first run left it |
| Maintenance.BlankVendorNameRecounted | convex/maintenance.ts:32-44 | the count is not idempotent: a vendor whose name is only blanks is written again, and counted, on every run |
| FormCreator.FirstHash | src/components/FormCreator.tsx:155 | the position where `/(#+)/` starts matching lies within the template |
| FormCreator.FirstHashMatches | src/components/FormCreator.tsx:155 | the match starts at the leftmost `#`: no `#` before it, and a `#` at it when there is one |
| FormCreator.HashRun | src/components/FormCreator.tsx:155 | the greedy run of `#` stays within the template |
| FormCreator.HashRunMatches | src/components/FormCreator.tsx:155 | the run covers only `#` and stops at the end or at the first other character |
| FormCreator.Numeral | src/components/FormCreator.tsx:155 | `padStart(m.length, "0")` is never shorter than the run it replaces |
| FormCreator.NumeralInjective | src/components/FormCreator.tsx:155 | two indices padded to the same width give different numerals |
| FormCreator.WithAutoNumber | src/components/FormCreator.tsx:154-156 | the auto-numbered vehicle number is never shorter than its template |
| FormCreator.AutoNumberWithoutHash | src/components/FormCreator.tsx:154-156 | a template with no `#` comes back unchanged |
| FormCreator.AutoNumberReadsBack | src/components/FormCreator.tsx:154-156 | only the first run of `#` is replaced: the text before and after it is kept, and in its place stands an all-digit numeral, at least as long as the run, that reads back as idx + 1 |
| FormCreator.FirstRunNonEmpty | src/components/FormCreator.tsx:155 | a template with a `#` has a match of at least one `#` |
| FormCreator.IncludesHash | src/components/FormCreator.tsx:263 | `includes("#")` means the regular expression finds a match |
| FormCreator.AutoNumberInjective | src/components/FormCreator.tsx:154-156 | from a template with a `#`, two different indices never give the same vehicle number |
| FormCreator.ValidateVehicleDraft | src/components/FormCreator.tsx:145-151 | an error is reported for the vehicle number, the driver name and the driver mobile exactly when that field is blank after trimming, and for no other field |
| FormCreator.ValidateImage | src/components/FormCreator.tsx:46-58 | no message exactly for an `image/` type of at most 10 MB; a non-image gets the file-type message |
| FormCreator.Remaining | src/components/FormCreator.tsx:141 | `remainingToAllocate` is max(0, total − allocated): zero exactly when the allocations reach the total, the difference otherwise |
| FormCreator.VehicleCountByAllocation | src/components/FormCreator.tsx:128-134 | the one-pass counts dictionary holds, for every allocation id, the number of vehicles referring to it, and has a key exactly for the ids some vehicle refers to |
| FormCreator.VehiclesInAppend | src/components/FormCreator.tsx:128-134 | the per-allocation vehicle count of a concatenation is the sum of the counts of its parts |
| FormCreator.VehiclesInZero | src/components/FormCreator.tsx:136-139 | an allocation counts no vehicles exactly when no vehicle refers to it |
| FormCreator.AddRow | src/components/FormCreator.tsx:159-178 | `addAllocationRow` succeeds exactly when the total is positive and something is left to allocate, and then appends exactly one row with count 1 and no vendor |
| FormCreator.AddRowWithinTotal | src/components/FormCreator.tsx:159-178 | an added row raises the allocated count by one and never past the total |
| FormCreator.AddRowDistinct | src/components/FormCreator.tsx:159-178 | with a fresh id, the rows keep distinct ids |
| FormCreator.WithCount | src/components/FormCreator.tsx:184-193 | `updateAllocationCount` keeps the length and every other row, and gives the target rows a count between 0 and the room the other rows leave |
| FormCreator.WithCountTakesRequest | src/components/FormCreator.tsx:184-193 | the target's count is the parsed request when it fits and max(0, total − others) when it does not |
| FormCreator.OthersSumOfDistinct | src/components/FormCreator.tsx:187 | with distinct ids, the other rows sum to the allocated count minus the row's own count |
| FormCreator.OthersSumNone | src/components/FormCreator.tsx:187 | for an id no row has, the other rows are all rows |
| FormCreator.WithCountWithinTotal | src/components/FormCreator.tsx:184-193 | once the allocated count is within the total, changing a count keeps it within the total |
| FormCreator.WithoutAllocation | src/components/FormCreator.tsx:202 | the filter keeps every row with another id and only rows of the list |
| FormCreator.RemoveKeepsReferences | src/components/FormCreator.tsx:195-203 | a removal allowed because no vehicle refers to the row leaves every vehicle with its allocation |
| FormCreator.WithoutAllocationSum | src/components/FormCreator.tsx:195-203 | removing a row never raises the allocated count |
| FormCreator.FindAllocation | src/components/FormCreator.tsx:249 | `allocations.find` returns a row of the list with the id, and nothing exactly when no row has it |
| FormCreator.OpenAddVehicles | src/components/FormCreator.tsx:206-237 | the panel opens exactly when the total is positive, a vendor is chosen and the allocation still misses vehicles, and then proposes exactly the missing count |
| FormCreator.BatchSize | src/components/FormCreator.tsx:256 | the batch size is at least 1, at most what the allocation still misses, and the requested count when that fits |
| FormCreator.Batch | src/components/FormCreator.tsx:258-268 | a batch of n vehicles, each under the open allocation with the draft's fields, auto-numbered from `already` when the draft holds a `#` |
| FormCreator.BatchNumbersDistinct | src/components/FormCreator.tsx:263-265 | the vehicles of one auto-numbered batch have pairwise different numbers |
| FormCreator.BatchVehiclesIn | src/components/FormCreator.tsx:258-268 | a batch counts in full under its own allocation and not at all under any other |
| FormCreator.Save | src/components/FormCreator.tsx:239-276 | vehicles are added only with the panel open, a valid draft and an existing allocation, and then between 1 and the vehicles that allocation still misses |
| FormCreator.SaveWithinAllocation | src/components/FormCreator.tsx:239-276 | a save never takes any allocation past its count |
| FormCreator.OpenThenSaveFills | src/components/FormCreator.tsx:206-276 | saving with the count the panel proposed fills the allocation exactly |
| FormCreator.SaveKeepsReferences | src/components/FormCreator.tsx:239-276 | a save never leaves a vehicle without its allocation |
| FormCreator.VehiclesPartition | src/components/FormCreator.tsx:381-392 | with distinct ids, the vehicles counted per allocation plus those under no allocation are all the vehicles |
| FormCreator.ReadyMeansAllAllocated | src/components/FormCreator.tsx:381-392 | a form ready to submit has every vehicle under one of its allocations |
| FormCreator.Creator.constructor | src/components/FormCreator.tsx:72-100 | the form starts with no total, no allocations and no vehicles |
| FormCreator.Creator.SetVehicleQty | src/components/FormCreator.tsx:117-120 | typing the total replaces the field the total is parsed from |
| FormCreator.Creator.AddAllocationRow | src/components/FormCreator.tsx:159-178 | the rows become `AddRow`'s result, or stay as they were and its warning is returned |
| FormCreator.Creator.UpdateAllocationCount | src/components/FormCreator.tsx:184-193 | the rows become `WithCount` of the old rows under the parsed total |
| FormCreator.Creator.RemoveAllocation | src/components/FormCreator.tsx:195-203 | the removal is refused exactly when some vehicle refers to the row; otherwise only that row goes |
| FormCreator.Creator.SaveVehicles | src/components/FormCreator.tsx:239-276 | the outcome is `Save`'s, and the vehicles become the old ones followed by the added batch |
| FormCreator.Creator.IsReadyToSubmit | src/components/FormCreator.tsx:380-392 | ready exactly when the total is positive, fully allocated, every allocation holds exactly its count of vehicles and there are as many vehicles as the total |
| TransporterDashboard.CompletedAllocations | src/components/TransporterDashboard.tsx:66-73 | the completed count never exceeds the number of bookings |
| TransporterDashboard.OverviewCounts | src/components/TransporterDashboard.tsx:66-74 | the completed count is the number of bookings with a positive quantity fully handed out, and the pending count the number of all the other bookings |
| TransporterDashboard.KeyHasPrefix | src/components/TransporterDashboard.tsx:118-125 | every key `${bookingId}_${vendorId}` starts with the booking's prefix `${bookingId}_` |
| TransporterDashboard.KeyInjective | src/components/TransporterDashboard.tsx:118 | two vendors of one booking never share a key |
| TransporterDashboard.Find | src/components/TransporterDashboard.tsx:123-127 | a key lookup in the dictionary stops within it, at an entry with that key |
| TransporterDashboard.FindFirst | src/components/TransporterDashboard.tsx:123-127 | no entry before the found one has the key |
| TransporterDashboard.FindAt | src/components/TransporterDashboard.tsx:123-127 | with distinct keys a key is found exactly where it is stored |
| TransporterDashboard.Set | src/components/TransporterDashboard.tsx:132 | `{ ...prev, [key]: v }` keeps the size for an existing key and adds one entry for a new key |
| TransporterDashboard.FindIs | src/components/TransporterDashboard.tsx:123-127 | the first position holding a key is where the lookup stops |
| TransporterDashboard.SetGet | src/components/TransporterDashboard.tsx:132 | after a key is written, reading it gives the value written |
| TransporterDashboard.SetOthers | src/components/TransporterDashboard.tsx:132 | writing a key leaves every other key's value as it was |
| TransporterDashboard.SetDistinct | src/components/TransporterDashboard.tsx:132 | a write keeps the keys distinct |
| TransporterDashboard.SetNonNegative | src/components/TransporterDashboard.tsx:130-132 | writing a non-negative value keeps every value non-negative |
| TransporterDashboard.BookingSplit | src/components/TransporterDashboard.tsx:123-127 | a booking's allocated total is the other keys' total plus the key's own value |
| TransporterDashboard.KeySumIsGet | src/components/TransporterDashboard.tsx:123-127 | with distinct keys, summing the values under one key is reading that key |
| TransporterDashboard.OthersSumUpdate | src/components/TransporterDashboard.tsx:123-132 | overwriting the key in place does not change the other keys' total |
| TransporterDashboard.OthersSumAppend | src/components/TransporterDashboard.tsx:123-132 | appending the key does not change the other keys' total |
| TransporterDashboard.SetBookingSum | src/components/TransporterDashboard.tsx:123-132 | after writing a key, the booking's total is its other keys' total plus the new value |
| TransporterDashboard.Clamp | src/components/TransporterDashboard.tsx:130 | the clamped count is never negative, never above a non-negative cap, and is the count itself when it fits |
| TransporterDashboard.ChangeEffect | src/components/TransporterDashboard.tsx:116-134 | on an unlocked booking the vendor's value becomes the count when it fits the room max(0, quantity − other keys), the room when it does not and 0 for a negative count; every other key keeps its value |
| TransporterDashboard.ChangeWithinQty | src/components/TransporterDashboard.tsx:116-134 | edits keep a booking's allocated total within its quantity once it is, and keep the values non-negative and the keys distinct |
| TransporterDashboard.FindBooking | src/components/TransporterDashboard.tsx:121 | `bookings.find` gives a booking of the list with that id, and nothing only when none has it |
| TransporterDashboard.TotalAllowed | src/components/TransporterDashboard.tsx:119-122 | the open booking's quantity when it is the one edited, 0 when no booking has the id |
| TransporterDashboard.PrefillKeeps | src/components/TransporterDashboard.tsx:102-112 | a key no stored allocation writes keeps its value; allocations with an empty vendor id are skipped |
| TransporterDashboard.PrefillSets | src/components/TransporterDashboard.tsx:102-112 | every stored allocation with a vendor is readable under `${bookingId}_${vendorId}` |
| TransporterDashboard.SavePayload | src/components/TransporterDashboard.tsx:140-143 | the payload has exactly one entry per vendor, in the vendors' order, holding the value under that vendor's key |
| TransporterDashboard.PayloadDefaultsToZero | src/components/TransporterDashboard.tsx:142 | a vendor without a key is sent with 0 |
| TransporterDashboard.Dashboard.constructor | src/components/TransporterDashboard.tsx:44-53 | the screen starts with no open booking, an empty dictionary and nothing locked |
| TransporterDashboard.Dashboard.OpenBooking | src/components/TransporterDashboard.tsx:102-112 | opening a booking copies its stored allocations into the dictionary, one key per vendor, in order |
| TransporterDashboard.Dashboard.HandleAllocationChange | src/components/TransporterDashboard.tsx:116-134 | the dictionary becomes `Changed`: unchanged on a locked booking, otherwise the vendor's key holds the count cut to the room left |
| TransporterDashboard.Dashboard.SaveBar | src/components/TransporterDashboard.tsx:228-244 | the sum shown is the booking's allocated total, and the button is enabled exactly when that total is within the quantity and the booking is not locked |
| TransporterDashboard.Dashboard.SaveVendorAllocations | src/components/TransporterDashboard.tsx:136-154 | nothing is sent without the confirmation; otherwise the payload is sent and the booking locks exactly when the server accepts it |
| TransporterDashboard.LockedIsFinal | src/components/TransporterDashboard.tsx:116-154 | once a booking is locked its save button stays disabled and its counts no longer change |
| FormViewer.AllSubmittedCount | src/components/FormViewer.tsx:46-50 | `allVehiclesSubmittedForForm` holds exactly when there is a vehicle and every vehicle is submitted (false for an empty list) |
| FormViewer.MatchVehicles | src/components/FormViewer.tsx:646-661 | the vehicles counted for an allocation are vehicles of the form |
| FormViewer.ByIdEmpty | src/components/FormViewer.tsx:652-654 | the allocation-id rule matches nothing exactly when the allocation has no id or no vehicle carries it |
| FormViewer.ByVendorEmpty | src/components/FormViewer.tsx:655-657 | the vendor rule matches nothing exactly when the allocation has no vendor or no vehicle is assigned to it |
| FormViewer.ByNameEmpty | src/components/FormViewer.tsx:658-660 | the name rule matches nothing exactly when the allocation has no name or no vehicle's transporter name equals it ignoring case |
| FormViewer.MatchOrder | src/components/FormViewer.tsx:646-661 | vehicles are matched by allocation id; by vendor only when that matches nothing; by case-insensitive transporter name only when both match nothing; otherwise none |
| FormViewer.SubmittedStatus | src/components/FormViewer.tsx:663-667 | "Submitted" is shown only for a non-empty matched set whose vehicles are all submitted; for staff also only when the count is positive and met; whatever staff see as submitted a vendor sees too |
| FormViewer.VisibleAllocations | src/components/FormViewer.tsx:604-608 | a vendor sees exactly the allocations whose `vendorUserId` is their own id, every other role sees them all |
| FormViewer.VendorName | src/components/FormViewer.tsx:38-44 | a name found in the vendor map is the name of a vendor with that id |
| FormViewer.FindAllocation | src/components/FormViewer.tsx:105 | `find` returns an allocation of the form with the id, and nothing only when none has it |
| FormViewer.FindAllocationFirst | src/components/FormViewer.tsx:105 | `find` returns the first allocation carrying the id |
| FormViewer.VendorNameOrder | src/components/FormViewer.tsx:100-113 | the vendor shown is the named vendor the vehicle is assigned to; failing that, for the first allocation with its non-empty allocation id, that allocation's vendor's name or else its transporter name; failing that, and with no allocation of its id, its own transporter name; it is always empty, that name, a vendor's name or an allocation's transporter name |
| FormViewer.RowOf | src/components/FormViewer.tsx:115-117 | a row's vendor is never empty: the vendor found for the vehicle, else "Unassigned" |
| FormViewer.VehicleRows | src/components/FormViewer.tsx:115-124 | one export row per vehicle, in order |
| FormViewer.GroupIndex | src/components/FormViewer.tsx:151-153 | `grouped.has(key)` finds the group of that vendor, or reports none |
| FormViewer.GroupIndexFirst | src/components/FormViewer.tsx:151-153 | no group before the found one has the vendor |
| FormViewer.AddRowKeeps | src/components/FormViewer.tsx:152-154 | pushing a row keeps every group's place and vendor, and adds the row only to its own vendor's group |
| FormViewer.AddRowNew | src/components/FormViewer.tsx:152-154 | a row whose vendor has no group opens one at the end holding just that row |
| FormViewer.GroupedCovers | src/components/FormViewer.tsx:150-155 | every row read so far has its vendor's group |
| FormViewer.GroupedDistinct | src/components/FormViewer.tsx:150-155 | no two groups share a vendor |
| FormViewer.GroupedRows | src/components/FormViewer.tsx:150-155 | each group holds exactly the rows of its vendor, in their original order, so each row appears exactly once |
| FormViewer.GroupHasRow | src/components/FormViewer.tsx:150-155 | every group's vendor is the vendor of some row |
| FormViewer.GroupedOrder | src/components/FormViewer.tsx:150-155 | groups come in the order their vendors first appear in the rows |
| FormViewer.GroupedTotal | src/components/FormViewer.tsx:150-155 | the group sizes add up to the number of rows |
| FormViewer.GroupRows | src/components/FormViewer.tsx:150-155 | the loop builds the grouping the lemmas above describe |
| FormViewer.SheetSize | src/components/FormViewer.tsx:157-172 | the sheet has the header plus, per group, its rows and two more lines |
| FormViewer.GroupedSheetSize | src/components/FormViewer.tsx:149-172 | the "Vendor Transport Details" sheet has 1 + rows + 2 × groups lines |
| FormViewer.VendorSheet | src/components/FormViewer.tsx:157-172 | the loop writes the header, then per group a title line, its rows and a blank line |
| FormViewer.CanEditAgrees | src/components/FormViewer.tsx:224 | the screen's edit rule (an admin, or the employee who owns the form) is the one the submit mutation enforces; the transporter and role-less views never edit |
| FormViewer.SubmittableIsDownloadable | src/components/FormViewer.tsx:224-225 | a form the screen offers to submit (an editor, status pending, complete) can also be downloaded |

## Left out

- Platform plumbing is not modelled: Convex's query builders and indexes, `getAuthUserId`, `ctx.storage`, and the audit-log `ctx.runMutation` calls. Tables are sequences in creation order; the caller's id and the clock are parameters.
- `Promise.all` fan-out is not modelled: it is concurrency, so the model does its reads one after another.
- `assignVendor` (convex/forms.ts:91-143), `getForm` (275-319) and `updateForm` (401-493) are not part of this model. They are the older single-vendor assignment, a read with a role test, and a field-by-field patch. None of them feeds the form lifecycle modelled here.
- `getFormStats` (convex/forms.ts:656-682) is not modelled: it buckets forms by calendar month with `Date`, which the model does not have.
- `searchForms` (convex/forms.ts:685-724) is not modelled: it is Convex full-text search.
- `getContainers` (convex/containers.ts:369-404) is not modelled: it is a plain read by form. Container dimensions are not carried in the model.
- `generateUploadUrl` and `compressImage` (convex/photos.ts:7-17, 301-313) are not modelled: they are storage calls. Storage URLs, photo location and EXIF metadata are not carried either.
- `list` (convex/access.ts:179-200) is not modelled: it sorts with `localeCompare`, which depends on the locale.
- Access.SafeRandomId models only the `getRandomValues` path, with the 16 random bytes as input. The `crypto.randomUUID` path (convex/access.ts:15) and the `Math.random` fallback (34-38) are left out as randomness.
- Access.GenerateAccessLink takes `expiryHours` as an integer; a fractional number of hours is not modelled.
- Notifications.SendNotification does not carry the free-form `data` field.
- Common.ToLower lowers ASCII letters only. JavaScript's `toLowerCase` also lowers non-ASCII letters, and the model has no Unicode tables.
- FormCreator.Creator.SaveVehicles returns `NoSuchAllocation` where the source's `allocations.find(...)!` (src/components/FormCreator.tsx:249) would go on with `undefined` and throw.
- FormCreator.Creator models the handlers as they are written. The rendered form does not call most of them, and its submit button is disabled only while a submit runs (src/components/FormCreator.tsx:871). Rendering, toasts and the document upload section are not modelled.
- The dashboard's notification toasts (src/components/TransporterDashboard.tsx:76-100) are not modelled: they are UI side effects.
- `updateBookingAllocations`, `vendorSubmitTransportDetails` and `getVehiclesForForm` are called by the screens but are not part of this model. The vehicles a screen shows are a parameter, and the server's answer to a save is a boolean.
- The XLSX workbook and file saving are not modelled. The export is modelled as its rows and its grouped sheet as lists of cells.
- FormsCreate.V2CheckDraftsMatchTotal holds for integer counts only. The source's counts are `v.number()` (convex/forms.ts:762): counts 1.5 and 1.5 for a total of 3 pass the check, and the loop at convex/forms.ts:810 then creates 4 drafts.
- FormsCreate.Copies counts iterations of an integer bound. For a fractional count `n` the loop at convex/forms.ts:810 runs ceil(n) times, which the model does not represent.
- FormsCreate.DraftsLength equates the drafts with the sum of the counts for integer counts only. Each fractional count creates ceil(count) drafts.
- FormsCreate.IterationsOfNonNegative holds for integer counts only: with counts 1.5 and 1.5 the `reduce` sum is 3, but the loops run 4 times.
- FormsCreate.DraftsPerTransporter takes integer counts. A fractional count gives its transporter ceil(count) drafts, which is not represented.
- FormsCreate.InsertCopies appends `count` copies for an integer count. The source appends ceil(count) copies for a fractional one.
- FormsCreate.V2Check takes the counts as integers, so it cannot see a fractional count. The intended check also demands whole counts.
- FormsCreate.CreateFormV2 runs the corrected check `V2Check` of "## Findings": on counts 3 and -1 for a total of 2 it refuses the call where the source creates the form. Its counts are integers, so the ceil(count) drafts of a fractional count are not represented. The written check is FormsCreate.V2CheckAsWritten, and FormsCreate.NegativeCountCounterexample shows the input where the two differ.
- Containers.UpdateContainer runs the corrected check `UpdateContainerCheck`: it refuses a number that another container of the form has, where the source accepts it. The written check is Containers.UpdateContainerCheckAsWritten, and Containers.UpdateDuplicateCounterexample shows the input.
- Photos.UploadPhoto runs the corrected check `UploadCheck`: it refuses a vendor naming a container of another form, where the source accepts the upload. The written check is Photos.UploadCheckAsWritten, and Photos.CrossFormUploadCounterexample shows the input.
- Convex's validation of writes against convex/schema.ts is not modelled. The record types follow what the mutations write: a form's transport details are optional, an allocation snapshot carries `transporterUserId`, and a vehicle's allocation id is optional.
- JavaScript objects and `Map`s are modelled as sequences of distinct keys in insertion order, which is how the source iterates them.

## Notes on the source

These behaviours are modelled as the source has them.

- `getVendors` (convex/users.ts:9-40) lists every user who has a vendor role row, including inactive rows.
- `generateAccessLink` does not check that the form exists.
- Revoking a link that is already revoked succeeds again.
- `accessFormByToken` needs no signed-in user.
- `validateISO6346` (convex/containers.ts:7-33) uses weights 2^i and `sum % 11`, with no final modulo 10. This is the application's own simplification of the ISO 6346 check digit.
- `removeContainer` and `deletePhoto` do not recompute the form's `photosComplete` flag.
- In `listAssignedForms`, the `if (!fid) continue` guard (convex/vendor.ts:35) never fires, because every stored vehicle has a form id.
- `populateTransporterNames` (convex/maintenance.ts:24-50) is not idempotent in its count. A vendor name made only of blanks is truthy but blank, so a second run patches those vehicles and counts them again (Maintenance.BlankVendorNameRecounted).
- The `forms.*` gate accepts any active role row that holds `"*"`, while the `hasPermission` query tests for the admin role (Forms.WildcardRowCounterexample). The roles that `assignRole` writes make the two agree.
- `createFormV2` writes records that convex/schema.ts does not describe. Its insert (convex/forms.ts:790-806) omits `transportDetails`, which the schema requires (convex/schema.ts:26-36). It passes booking fields that are optional in its arguments but required in the schema (38-59). It stores allocations carrying `transporterUserId`, a field the snapshot's validator (61-72) lacks. Its drafts take `allocationId` from an optional argument, while the vehicle table declares it a required string.

## Findings

| source | as written | input that shows it | evidently intended | confidence | as-written member | corrected member |
|---|---|---|---|---|---|---|
| convex/forms.ts:780-834 | `createFormV2` checks only that the allocation counts sum to the total, then creates `count` drafts per allocation, so a negative count cancels vehicles that are still created | total 2, counts 3 and -1: the checks pass and 3 drafts are created for a 2-vehicle booking | every count a non-negative integer, so the drafts created equal the total | not executed | FormsCreate.V2CheckAsWritten, FormsCreate.NegativeCountCounterexample | FormsCreate.V2Check, FormsCreate.V2CheckDraftsMatchTotal |
| convex/containers.ts:190-209 | `updateContainer` accepts a new container number without comparing it with the form's other containers, while `addContainer` refuses duplicates | two containers of one form; the second renamed to the first's number `AAAA0000007` | the duplicate test of `addContainer`, so numbers stay unique per form | not executed | Containers.UpdateContainerCheckAsWritten, Containers.UpdateDuplicateCounterexample | Containers.UpdateContainerCheck, Containers.UpdateKeepsNumbersUnique |
| convex/photos.ts:91-96 | a vendor may upload when assigned to the named container, without checking that the container belongs to the form named | a vendor assigned to a container of form A uploads to form B naming that container | the container must belong to the form | not executed | Photos.UploadCheckAsWritten, Photos.CrossFormUploadCounterexample | Photos.UploadCheck, Photos.UploadPermission |
