/**
 * Notifications and notification preferences (convex/notifications.ts).
 * The free-form `data` attachment of a notification is not modelled.
 */
module Notifications {
  import opened Common
  import opened Tables
  import opened Sorting
  import opened Schema

  // ---------------------------------------------------------------------------
  // sendNotification
  // ---------------------------------------------------------------------------

  /** `sendNotification` (internal, no caller check): a new notification, always unread. */
  method SendNotification(db: Db, userId: Id, kind: string, title: string, message: string, now: int)
    returns (id: Id)
    requires db.Valid()
    modifies db`notifications, db`nextId
    ensures db.Valid()
    ensures id == old(db.nextId)
    ensures db.notifications == old(db.notifications) + [Row(id, Notification(userId, kind, title, message, false, now))]
  {
    id := db.InsertNotification(Notification(userId, kind, title, message, false, now));
  }

  // ---------------------------------------------------------------------------
  // getNotifications
  // ---------------------------------------------------------------------------

  const DefaultPageSize := 50

  /** `args.limit || 50`: an absent or zero limit means 50. */
  function PageSize(limit: Option<int>): int
  {
    if limit.Some? && limit.value != 0 then limit.value else DefaultPageSize
  }

  /** `.take(n)`: the first `n` items, none for `n <= 0`. */
  function Take<T>(xs: seq<T>, n: int): (r: seq<T>)
    ensures |r| <= |xs| && (n <= 0 ==> r == []) && (n > 0 ==> |r| == Min(n, |xs|))
    ensures r == xs[..|r|]
  {
    if n <= 0 then [] else xs[..Min(n, |xs|)]
  }

  function OwnNotifications(notifications: seq<Row<Notification>>, userId: Id): seq<Row<Notification>>
  {
    Where(notifications, (n: Notification) => n.userId == userId)
  }

  /** `getNotifications`: the caller's notifications, newest first, at most the page size. */
  function GetNotifications(notifications: seq<Row<Notification>>, caller: Option<Id>, limit: Option<int>)
    : (r: Result<seq<Row<Notification>>, Error>)
    ensures caller.None? <==> r == Err(NotAuthenticated)
    ensures r.Ok? ==> |r.value| <= PageSize(limit) || PageSize(limit) <= 0
    ensures r.Ok? ==> forall k :: 0 <= k < |r.value| ==> r.value[k] in notifications && r.value[k].doc.userId == caller.value
  {
    if caller.None? then Err(NotAuthenticated)
    else Ok(Take(Reversed(OwnNotifications(notifications, caller.value)), PageSize(limit)))
  }

  /** The page is newest first. */
  lemma GetNotificationsNewestFirst(notifications: seq<Row<Notification>>, next: Id, userId: Id, limit: Option<int>)
    requires WellKeyed(notifications, next)
    ensures var r := GetNotifications(notifications, Some(userId), limit).value;
      forall a, b :: 0 <= a < b < |r| ==> r[a].id > r[b].id
  {
    var own := OwnNotifications(notifications, userId);
    var rev := Reversed(own);
    var r := GetNotifications(notifications, Some(userId), limit).value;
    assert r == Take(rev, PageSize(limit));
    OwnIdsIncrease(notifications, next, userId);
    forall a, b | 0 <= a < b < |r| ensures r[a].id > r[b].id {
      assert r[a] == rev[a] && r[b] == rev[b];
    }
  }

  /** A caller with no more notifications than the page size gets every one of them. */
  lemma GetNotificationsAll(notifications: seq<Row<Notification>>, userId: Id, limit: Option<int>, i: nat)
    requires |OwnNotifications(notifications, userId)| <= PageSize(limit)
    requires i < |notifications| && notifications[i].doc.userId == userId
    ensures notifications[i] in GetNotifications(notifications, Some(userId), limit).value
  {
    var own := OwnNotifications(notifications, userId);
    var rev := Reversed(own);
    var r := GetNotifications(notifications, Some(userId), limit).value;
    assert r == Take(rev, PageSize(limit));
    assert r == rev;
    assert notifications[i] in own;
    var j :| 0 <= j < |own| && own[j] == notifications[i];
    assert rev[|own| - 1 - j] == own[j];
  }

  /** Filtering keeps creation order, so the caller's notifications have increasing ids. */
  lemma OwnIdsIncrease(notifications: seq<Row<Notification>>, next: Id, userId: Id)
    requires WellKeyed(notifications, next)
    ensures var own := OwnNotifications(notifications, userId);
      forall a, b :: 0 <= a < b < |own| ==> own[a].id < own[b].id
  {
    IncreasingIds(notifications);
    WhereIdsIncrease(notifications, (n: Notification) => n.userId == userId);
  }

  // ---------------------------------------------------------------------------
  // markAsRead and getUnreadCount
  // ---------------------------------------------------------------------------

  /** The caller owns the notification. */
  function MarkAsReadCheck(notifications: seq<Row<Notification>>, caller: Option<Id>, id: Id)
    : (r: Result<Notification, Error>)
    ensures r.Ok? <==> caller.Some? && Get(notifications, id).Some? && Get(notifications, id).value.userId == caller.value
    ensures r.Ok? ==> Get(notifications, id) == Some(r.value)
    ensures caller.None? ==> r == Err(NotAuthenticated)
    ensures caller.Some? && r.Err? ==> r.error == NotificationNotFound
  {
    if caller.None? then Err(NotAuthenticated)
    else match Get(notifications, id)
      case None => Err(NotificationNotFound)
      case Some(n) => if n.userId != caller.value then Err(NotificationNotFound) else Ok(n)
  }

  /** `markAsRead`: set `isRead`, nothing else. */
  method MarkAsRead(db: Db, caller: Option<Id>, id: Id) returns (r: Result<(), Error>)
    requires db.Valid()
    modifies db`notifications
    ensures db.Valid()
    ensures r.Ok? <==> MarkAsReadCheck(old(db.notifications), caller, id).Ok?
    ensures r.Err? ==> (r.error == MarkAsReadCheck(old(db.notifications), caller, id).error
                        && db.notifications == old(db.notifications))
    ensures r.Ok? ==> db.notifications == Put(old(db.notifications), id, Get(old(db.notifications), id).value.(isRead := true))
  {
    var check := MarkAsReadCheck(db.notifications, caller, id);
    if check.Err? {
      return Err(check.error);
    }
    db.PutNotification(id, check.value.(isRead := true));
    r := Ok(());
  }

  /** Rewriting a row with the document it already holds changes nothing. */
  lemma PutUnchanged<T>(t: seq<Row<T>>, next: Id, id: Id, doc: T)
    requires WellKeyed(t, next) && Get(t, id) == Some(doc)
    ensures Put(t, id, doc) == t
  {
    WellKeyedIds(t, next);
    forall i | 0 <= i < |t| && t[i].id == id ensures t[i].doc == doc {
      GetRow(t, next, i);
    }
  }

  /** Marking a notification read a second time succeeds and changes nothing. */
  lemma MarkAsReadIdempotent(notifications: seq<Row<Notification>>, next: Id, caller: Option<Id>, id: Id)
    requires WellKeyed(notifications, next) && MarkAsReadCheck(notifications, caller, id).Ok?
    ensures var once := Put(notifications, id, Get(notifications, id).value.(isRead := true));
      && MarkAsReadCheck(once, caller, id).Ok?
      && Put(once, id, Get(once, id).value.(isRead := true)) == once
  {
    var doc := Get(notifications, id).value.(isRead := true);
    var once := Put(notifications, id, doc);
    GetPut(notifications, next, id, doc, id);
    SameIdsWellKeyed(notifications, once, next);
    PutUnchanged(once, next, id, doc);
  }

  predicate UnreadOf(userId: Id, n: Notification)
  {
    n.userId == userId && !n.isRead
  }

  /** `getUnreadCount`: the caller's unread notifications; 0 when signed out. */
  function GetUnreadCount(notifications: seq<Row<Notification>>, caller: Option<Id>): (n: nat)
    ensures caller.None? ==> n == 0
    ensures n <= |notifications|
  {
    if caller.None? then 0 else |Where(notifications, UnreadBy(caller.value))|
  }

  function UnreadBy(userId: Id): Notification -> bool
  {
    (n: Notification) => UnreadOf(userId, n)
  }

  /** A new notification raises its recipient's unread count by one. */
  lemma SendRaisesUnread(notifications: seq<Row<Notification>>, row: Row<Notification>)
    requires !row.doc.isRead
    ensures GetUnreadCount(notifications + [row], Some(row.doc.userId))
            == GetUnreadCount(notifications, Some(row.doc.userId)) + 1
  {
    WhereAppend(notifications, [row], UnreadBy(row.doc.userId));
  }

  /** Marking an unread notification read lowers the caller's unread count by exactly one. */
  lemma MarkAsReadLowersUnread(notifications: seq<Row<Notification>>, next: Id, caller: Option<Id>, id: Id)
    requires WellKeyed(notifications, next) && MarkAsReadCheck(notifications, caller, id).Ok?
    requires !Get(notifications, id).value.isRead
    ensures GetUnreadCount(Put(notifications, id, Get(notifications, id).value.(isRead := true)), caller)
            == GetUnreadCount(notifications, caller) - 1
  {
    var n := Get(notifications, id).value;
    var k :| 0 <= k < |notifications| && notifications[k] == Row(id, n);
    PutAt(notifications, next, k, n.(isRead := true));
    WhereAtUpdate(notifications, k, Row(id, n.(isRead := true)), UnreadBy(caller.value));
  }

  // ---------------------------------------------------------------------------
  // updatePreferences and getPreferences
  // ---------------------------------------------------------------------------

  const DefaultPreferences := Preferences(true, true, ["form_assigned", "status_changed", "photo_uploaded"],
                                          "Asia/Kolkata", "en")

  /** The arguments of `updatePreferences`; an absent one leaves its field alone. */
  datatype PreferencesPatch = PreferencesPatch(
    emailNotifications: Option<bool>,
    pushNotifications: Option<bool>,
    notificationTypes: Option<seq<string>>,
    timezone: Option<string>,
    language: Option<string>)

  function Or<T>(o: Option<T>, d: T): T
  {
    if o.Some? then o.value else d
  }

  /** The supplied fields over `p`. */
  function Patched(p: Preferences, u: PreferencesPatch): Preferences
  {
    Preferences(Or(u.emailNotifications, p.emailNotifications), Or(u.pushNotifications, p.pushNotifications),
                Or(u.notificationTypes, p.notificationTypes), Or(u.timezone, p.timezone), Or(u.language, p.language))
  }

  /** An empty patch changes nothing, and applying the same patch twice is applying it once. */
  lemma PatchedFields(p: Preferences, u: PreferencesPatch)
    ensures u == PreferencesPatch(None, None, None, None, None) ==> Patched(p, u) == p
    ensures Patched(Patched(p, u), u) == Patched(p, u)
  {
  }

  function OwnedBy(userId: Id): PreferencesRow -> bool
  {
    (r: PreferencesRow) => r.userId == userId
  }

  /** `getPreferences`: the caller's first record, or the defaults. */
  function GetPreferences(preferences: seq<Row<PreferencesRow>>, caller: Option<Id>): (r: Result<Preferences, Error>)
    ensures caller.None? <==> r == Err(NotAuthenticated)
    ensures caller.Some? && (forall i :: 0 <= i < |preferences| ==> preferences[i].doc.userId != caller.value)
      ==> r == Ok(DefaultPreferences)
  {
    if caller.None? then Err(NotAuthenticated)
    else match First(preferences, OwnedBy(caller.value))
      case None => Ok(DefaultPreferences)
      case Some(row) => Ok(row.doc.prefs)
  }

  /**
   * The table after `updatePreferences`: the caller's first record patched,
   * or a new record of the defaults patched.
   */
  function PreferencesAfter(preferences: seq<Row<PreferencesRow>>, next: Id, userId: Id, u: PreferencesPatch)
    : seq<Row<PreferencesRow>>
  {
    match First(preferences, OwnedBy(userId))
    case Some(row) => Put(preferences, row.id, PreferencesRow(userId, Patched(row.doc.prefs, u)))
    case None => preferences + [Row(next, PreferencesRow(userId, Patched(DefaultPreferences, u)))]
  }

  /** `updatePreferences`. */
  method UpdatePreferences(db: Db, caller: Option<Id>, u: PreferencesPatch) returns (r: Result<(), Error>)
    requires db.Valid()
    modifies db`preferences, db`nextId
    ensures db.Valid()
    ensures caller.None? <==> r == Err(NotAuthenticated)
    ensures caller.None? ==> db.preferences == old(db.preferences) && db.nextId == old(db.nextId)
    ensures caller.Some? ==> db.preferences == PreferencesAfter(old(db.preferences), old(db.nextId), caller.value, u)
  {
    if caller.None? {
      return Err(NotAuthenticated);
    }
    var existing := First(db.preferences, OwnedBy(caller.value));
    if existing.Some? {
      db.PutPreferences(existing.value.id, PreferencesRow(caller.value, Patched(existing.value.doc.prefs, u)));
    } else {
      var _ := db.InsertPreferences(PreferencesRow(caller.value, Patched(DefaultPreferences, u)));
    }
    r := Ok(());
  }

  lemma {:induction false} FirstIndexSame<T>(t: seq<Row<T>>, s: seq<Row<T>>, p: T -> bool)
    requires |t| == |s| && forall i :: 0 <= i < |t| ==> p(t[i].doc) == p(s[i].doc)
    ensures FirstIndex(t, p) == FirstIndex(s, p)
  {
    if t != [] && !p(t[0].doc) {
      FirstIndexSame(t[1..], s[1..], p);
    }
  }

  /**
   * What `getPreferences` returns after `updatePreferences` is the patch
   * applied to what it returned before (the defaults when there was no
   * record).
   */
  lemma GetAfterUpdate(preferences: seq<Row<PreferencesRow>>, next: Id, userId: Id, u: PreferencesPatch)
    requires WellKeyed(preferences, next)
    ensures GetPreferences(PreferencesAfter(preferences, next, userId, u), Some(userId))
            == Ok(Patched(GetPreferences(preferences, Some(userId)).value, u))
  {
    var after := PreferencesAfter(preferences, next, userId, u);
    match First(preferences, OwnedBy(userId))
    case Some(row) =>
      var k := FirstIndex(preferences, OwnedBy(userId));
      var doc := PreferencesRow(userId, Patched(row.doc.prefs, u));
      assert row == preferences[k] && row.doc.userId == userId;
      PutAt(preferences, next, k, doc);
      assert after == preferences[k := Row(row.id, doc)];
      FirstIndexSame(preferences, after, OwnedBy(userId));
      assert First(after, OwnedBy(userId)) == Some(Row(row.id, doc));
    case None =>
      var row := Row(next, PreferencesRow(userId, Patched(DefaultPreferences, u)));
      assert after == preferences + [row];
      var k := FirstIndex(after, OwnedBy(userId));
      assert after[|preferences|] == row && OwnedBy(userId)(row.doc);
      assert k == |preferences|;
  }

  /** Another user's preferences are untouched. */
  lemma GetAfterUpdateOther(preferences: seq<Row<PreferencesRow>>, next: Id, userId: Id, u: PreferencesPatch, other: Id)
    requires WellKeyed(preferences, next) && other != userId
    ensures GetPreferences(PreferencesAfter(preferences, next, userId, u), Some(other))
            == GetPreferences(preferences, Some(other))
  {
    var after := PreferencesAfter(preferences, next, userId, u);
    match First(preferences, OwnedBy(userId))
    case Some(row) =>
      var k := FirstIndex(preferences, OwnedBy(userId));
      var doc := PreferencesRow(userId, Patched(row.doc.prefs, u));
      assert row == preferences[k] && row.doc.userId == userId;
      PutAt(preferences, next, k, doc);
      assert after == preferences[k := Row(row.id, doc)];
      FirstIndexSame(preferences, after, OwnedBy(other));
      var j := FirstIndex(preferences, OwnedBy(other));
      if j < |preferences| {
        assert j != k;
      }
    case None =>
      var row := Row(next, PreferencesRow(userId, Patched(DefaultPreferences, u)));
      assert after == preferences + [row];
      FirstIndexAppend(preferences, row, OwnedBy(other));
  }

  /** Appending a row that fails `p` leaves the first match where it was. */
  lemma {:induction false} FirstIndexAppend<T>(t: seq<Row<T>>, row: Row<T>, p: T -> bool)
    requires !p(row.doc)
    ensures First(t + [row], p) == First(t, p)
  {
    if t != [] && !p(t[0].doc) {
      assert (t + [row])[1..] == t[1..] + [row];
      FirstIndexAppend(t[1..], row, p);
    }
  }
}
