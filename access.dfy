/**
 * Share links (convex/access.ts): the random token, creating and revoking a
 * link, opening a form through a token, and the admin list of links.
 */
module Access {
  import opened Common
  import opened Tables
  import opened Sorting
  import opened Schema
  import opened Users

  // ---------------------------------------------------------------------------
  // safeRandomId: an RFC 4122 version-4 UUID from 16 random bytes
  // ---------------------------------------------------------------------------

  predicate IsLowerHex(c: char)
  {
    ('0' <= c <= '9') || ('a' <= c <= 'f')
  }

  function HexDigit(n: int): (c: char)
    requires 0 <= n < 16
    ensures IsLowerHex(c)
  {
    if n < 10 then (48 + n) as char else (87 + n) as char
  }

  /** The value of a hexadecimal digit; 0 for any other character. */
  function HexValue(c: char): (n: int)
    ensures 0 <= n < 16
  {
    if '0' <= c <= '9' then c as int - 48
    else if 'a' <= c <= 'f' then c as int - 87
    else 0
  }

  lemma HexValueOfDigit(n: int)
    requires 0 <= n < 16
    ensures HexValue(HexDigit(n)) == n
  {
  }

  /** `n.toString(16)`. */
  function ToHex(n: nat): (r: string)
    ensures |r| >= 1
  {
    if n < 16 then [HexDigit(n)] else ToHex(n / 16) + [HexDigit(n % 16)]
  }

  /** `b.toString(16).padStart(2, "0")`. */
  function ByteHex(b: bv8): string
  {
    PadStart(ToHex(b as nat), 2, '0')
  }

  /** Each byte is written as its two nibbles, high first. */
  lemma ByteHexNibbles(b: bv8)
    ensures ByteHex(b) == [HexDigit(b as int / 16), HexDigit(b as int % 16)]
  {
    if b as int >= 16 {
      assert ToHex(b as nat) == ToHex(b as nat / 16) + [HexDigit(b as int % 16)];
    }
  }

  /** The bytes as hexadecimal, two digits each, joined without separators. */
  function HexRun(bs: seq<bv8>): (r: string)
    ensures |r| == 2 * |bs|
  {
    if bs == [] then []
    else
      ByteHexNibbles(bs[0]);
      ByteHex(bs[0]) + HexRun(bs[1..])
  }

  lemma {:induction false} HexRunShape(bs: seq<bv8>)
    ensures forall k :: 0 <= k < |HexRun(bs)| ==> IsLowerHex(HexRun(bs)[k])
  {
    if bs != [] {
      ByteHexNibbles(bs[0]);
      HexRunShape(bs[1..]);
    }
  }

  /** Hexadecimal pairs back to bytes; a trailing odd digit is dropped. */
  function UnHex(s: string): (r: seq<bv8>)
  {
    if |s| < 2 then [] else [(HexValue(s[0]) * 16 + HexValue(s[1])) as bv8] + UnHex(s[2..])
  }

  lemma {:induction false} UnHexHexRun(bs: seq<bv8>)
    ensures UnHex(HexRun(bs)) == bs
  {
    if bs != [] {
      ByteHexNibbles(bs[0]);
      HexRunShape(bs[1..]);
      var s := HexRun(bs);
      assert s == ByteHex(bs[0]) + HexRun(bs[1..]);
      assert s[2..] == HexRun(bs[1..]);
      HexValueOfDigit(bs[0] as int / 16);
      HexValueOfDigit(bs[0] as int % 16);
      UnHexHexRun(bs[1..]);
    }
  }

  /** The template `8-4-4-4-12` over the hexadecimal of the 16 bytes. */
  function FormatUuid(bs: seq<bv8>): (s: string)
    requires |bs| == 16
    ensures |s| == 36
  {
    HexRun(bs[0..4]) + "-" + HexRun(bs[4..6]) + "-" + HexRun(bs[6..8]) + "-" + HexRun(bs[8..10]) + "-"
    + HexRun(bs[10..16])
  }

  /** The five hexadecimal groups of a UUID string, read back as 16 bytes. */
  function ParseUuid(s: string): seq<bv8>
    requires |s| == 36
  {
    UnHex(s[0..8]) + UnHex(s[9..13]) + UnHex(s[14..18]) + UnHex(s[19..23]) + UnHex(s[24..36])
  }

  /** Cutting `x + "-" + y` at the hyphen. */
  lemma CutAtHyphen(x: string, y: string)
    ensures (x + "-" + y)[..|x|] == x && (x + "-" + y)[|x|] == '-' && (x + "-" + y)[|x| + 1..] == y
  {
  }

  lemma SliceOfPrefix(s: string, i: nat, j: nat)
    requires i <= j <= |s|
    ensures s[i..j] == s[..j][i..]
  {
  }

  /** Where the five groups and the four hyphens sit in the `8-4-4-4-12` template. */
  lemma TemplateGroups(a: string, b: string, c: string, d: string, e: string)
    requires |a| == 8 && |b| == 4 && |c| == 4 && |d| == 4 && |e| == 12
    ensures var s := a + "-" + b + "-" + c + "-" + d + "-" + e;
      && s[0..8] == a && s[9..13] == b && s[14..18] == c && s[19..23] == d && s[24..36] == e
      && s[8] == '-' && s[13] == '-' && s[18] == '-' && s[23] == '-'
  {
    var p1 := a + "-" + b;
    var p2 := p1 + "-" + c;
    var p3 := p2 + "-" + d;
    var s := p3 + "-" + e;
    CutAtHyphen(p3, e);
    CutAtHyphen(p2, d);
    CutAtHyphen(p1, c);
    CutAtHyphen(a, b);
    SliceOfPrefix(s, 19, 23);
    SliceOfPrefix(s, 14, 18);
    SliceOfPrefix(p3, 14, 18);
    SliceOfPrefix(s, 9, 13);
    SliceOfPrefix(p3, 9, 13);
    SliceOfPrefix(p2, 9, 13);
    SliceOfPrefix(s, 0, 8);
    SliceOfPrefix(p3, 0, 8);
    SliceOfPrefix(p2, 0, 8);
    SliceOfPrefix(p1, 0, 8);
  }

  lemma UuidGroups(bs: seq<bv8>)
    requires |bs| == 16
    ensures var s := FormatUuid(bs);
      && s[0..8] == HexRun(bs[0..4]) && s[9..13] == HexRun(bs[4..6]) && s[14..18] == HexRun(bs[6..8])
      && s[19..23] == HexRun(bs[8..10]) && s[24..36] == HexRun(bs[10..16])
      && s[8] == '-' && s[13] == '-' && s[18] == '-' && s[23] == '-'
  {
    TemplateGroups(HexRun(bs[0..4]), HexRun(bs[4..6]), HexRun(bs[6..8]), HexRun(bs[8..10]), HexRun(bs[10..16]));
  }

  /** 36 characters: lower-case hexadecimal digits, with hyphens at 8, 13, 18 and 23 only. */
  lemma UuidShape(bs: seq<bv8>)
    requires |bs| == 16
    ensures |FormatUuid(bs)| == 36
    ensures forall k :: 0 <= k < 36 ==>
      if k in {8, 13, 18, 23} then FormatUuid(bs)[k] == '-' else IsLowerHex(FormatUuid(bs)[k])
  {
    var s := FormatUuid(bs);
    UuidGroups(bs);
    HexRunShape(bs[0..4]);
    HexRunShape(bs[4..6]);
    HexRunShape(bs[6..8]);
    HexRunShape(bs[8..10]);
    HexRunShape(bs[10..16]);
    forall k | 0 <= k < 36 && k !in {8, 13, 18, 23} ensures IsLowerHex(s[k]) {
      if k < 8 {
        assert s[k] == s[0..8][k];
      } else if k < 13 {
        assert s[k] == s[9..13][k - 9];
      } else if k < 18 {
        assert s[k] == s[14..18][k - 14];
      } else if k < 23 {
        assert s[k] == s[19..23][k - 19];
      } else {
        assert s[k] == s[24..36][k - 24];
      }
    }
  }

  lemma SliceJoin(s: seq<bv8>, i: nat, j: nat, k: nat)
    requires i <= j <= k <= |s|
    ensures s[i..j] + s[j..k] == s[i..k]
  {
  }

  /** The token encodes the bytes: reading it back gives them again. */
  lemma UuidRoundTrip(bs: seq<bv8>)
    requires |bs| == 16
    ensures ParseUuid(FormatUuid(bs)) == bs
  {
    var s := FormatUuid(bs);
    var g0, g1, g2, g3, g4 := bs[0..4], bs[4..6], bs[6..8], bs[8..10], bs[10..16];
    UuidGroups(bs);
    UnHexHexRun(g0);
    UnHexHexRun(g1);
    UnHexHexRun(g2);
    UnHexHexRun(g3);
    UnHexHexRun(g4);
    assert ParseUuid(s) == g0 + g1 + g2 + g3 + g4;
    SliceJoin(bs, 0, 4, 6);
    SliceJoin(bs, 0, 6, 8);
    SliceJoin(bs, 0, 8, 10);
    SliceJoin(bs, 0, 10, 16);
    assert bs[0..16] == bs;
  }

  /**
   * The version and variant bits: the high nibble of byte 6 becomes 4 and
   * the top two bits of byte 8 become `10`; every other bit is kept.
   */
  function WithVersionBits(bs: seq<bv8>): (r: seq<bv8>)
    requires |bs| == 16
    ensures |r| == 16
    ensures r[6] >> 4 == 4 && r[6] & 0x0f == bs[6] & 0x0f
    ensures r[8] >> 6 == 2 && r[8] & 0x3f == bs[8] & 0x3f
    ensures forall k :: 0 <= k < 16 && k != 6 && k != 8 ==> r[k] == bs[k]
  {
    bs[6 := (bs[6] & 0x0f) | 0x40][8 := (bs[8] & 0x3f) | 0x80]
  }

  /** The first character of a run is the high nibble of its first byte. */
  lemma HexRunFirst(bs: seq<bv8>)
    requires bs != []
    ensures HexRun(bs)[0] == HexDigit(bs[0] as int / 16)
  {
    ByteHexNibbles(bs[0]);
  }

  /** In the token, the version digit (position 14) is `4`. */
  lemma UuidVersionDigit(bs: seq<bv8>)
    requires |bs| == 16
    ensures FormatUuid(WithVersionBits(bs))[14] == '4'
  {
    var v := WithVersionBits(bs);
    var s := FormatUuid(v);
    UuidGroups(v);
    HexRunFirst(v[6..8]);
    assert s[14] == s[14..18][0];
    assert v[6] as int / 16 == 4 by {
      assert v[6] >> 4 == 4;
    }
  }

  /** In the token, the variant digit (position 19) is 8, 9, a or b. */
  lemma UuidVariantDigit(bs: seq<bv8>)
    requires |bs| == 16
    ensures FormatUuid(WithVersionBits(bs))[19] in {'8', '9', 'a', 'b'}
  {
    var v := WithVersionBits(bs);
    var s := FormatUuid(v);
    UuidGroups(v);
    HexRunFirst(v[8..10]);
    assert s[19] == s[19..23][0];
    var n := v[8] as int / 16;
    assert 8 <= n < 12 by {
      assert v[8] >> 6 == 2;
    }
    assert s[19] == HexDigit(n);
    VariantHexDigit(n);
  }

  lemma VariantHexDigit(n: int)
    requires 8 <= n < 12
    ensures HexDigit(n) in {'8', '9', 'a', 'b'}
  {
    if n == 8 {
      assert HexDigit(n) == '8';
    } else if n == 9 {
      assert HexDigit(n) == '9';
    } else if n == 10 {
      assert HexDigit(n) == 'a';
    } else {
      assert HexDigit(n) == 'b';
    }
  }

  /**
   * `safeRandomId` on the `getRandomValues` path: `bytes` holds the random
   * bytes; the version and variant bits are set in place, then the bytes
   * are written out in the UUID layout.
   */
  method SafeRandomId(bytes: array<bv8>) returns (token: string)
    requires bytes.Length == 16
    modifies bytes
    ensures bytes[..] == WithVersionBits(old(bytes[..]))
    ensures token == FormatUuid(bytes[..])
  {
    bytes[6] := (bytes[6] & 0x0f) | 0x40;
    bytes[8] := (bytes[8] & 0x3f) | 0x80;
    token := FormatUuid(bytes[..]);
  }

  // ---------------------------------------------------------------------------
  // Link lookup by token: `withIndex("by_token", …).unique()`
  // ---------------------------------------------------------------------------

  /**
   * No row, the one row, or an error when more than one row carries the
   * token (`unique()` throws then).
   */
  function LinkByToken(links: seq<Row<AccessLink>>, token: string): (r: Result<Option<Row<AccessLink>>, Error>)
    ensures r.Err? ==> r.error == TokenNotUnique
    ensures r == Ok(None) <==> forall i :: 0 <= i < |links| ==> links[i].doc.token != token
    ensures r.Ok? && r.value.Some? ==>
      exists i :: 0 <= i < |links| && links[i] == r.value.value && links[i].doc.token == token
                  && forall j :: 0 <= j < |links| && j != i ==> links[j].doc.token != token
  {
    if links == [] then Ok(None)
    else
      var rest := LinkByToken(links[1..], token);
      assert forall j :: 1 <= j < |links| ==> links[j] == links[1..][j - 1];
      if links[0].doc.token != token then rest
      else if rest == Ok(None) then Ok(Some(links[0]))
      else Err(TokenNotUnique)
  }

  /** The converse: a token carried by exactly one row finds that row. */
  lemma {:induction false} LinkByTokenOne(links: seq<Row<AccessLink>>, token: string, i: nat)
    requires i < |links| && links[i].doc.token == token
    requires forall j :: 0 <= j < |links| && j != i ==> links[j].doc.token != token
    ensures LinkByToken(links, token) == Ok(Some(links[i]))
  {
    var tail := links[1..];
    if i > 0 {
      forall j | 0 <= j < |tail| && j != i - 1 ensures tail[j].doc.token != token {
        assert tail[j] == links[j + 1];
      }
      LinkByTokenOne(tail, token, i - 1);
    } else {
      assert forall j :: 0 <= j < |tail| ==> tail[j] == links[j + 1];
    }
  }

  /**
   * Rewriting the one row a token finds, keeping its token, leaves the
   * token finding the rewritten row.
   */
  lemma PutKeepsLinkFound(links: seq<Row<AccessLink>>, next: Id, token: string, id: Id, doc: AccessLink)
    requires WellKeyed(links, next)
    requires LinkByToken(links, token).Ok? && LinkByToken(links, token).value.Some?
    requires LinkByToken(links, token).value.value.id == id && doc.token == token
    ensures LinkByToken(Put(links, id, doc), token) == Ok(Some(Row(id, doc)))
  {
    var i :| 0 <= i < |links| && links[i] == LinkByToken(links, token).value.value && links[i].doc.token == token
             && forall j :: 0 <= j < |links| && j != i ==> links[j].doc.token != token;
    WellKeyedIds(links, next);
    var u := Put(links, id, doc);
    forall j | 0 <= j < |u| && j != i ensures u[j].doc.token != token {
      assert links[j].id != id;
    }
    LinkByTokenOne(u, token, i);
  }

  // ---------------------------------------------------------------------------
  // generateAccessLink, revokeAccessLink
  // ---------------------------------------------------------------------------

  /** Signed in, with an active `admin` role. */
  function AdminCheck(roles: seq<Row<UserRole>>, caller: Option<Id>): (r: Result<Id, Error>)
    ensures r.Ok? <==> CallerIs(roles, caller, Admin)
    ensures r.Ok? ==> caller == Some(r.value)
    ensures caller.None? ==> r == Err(NotAuthenticated)
    ensures caller.Some? && !CallerIs(roles, caller, Admin) ==> r == Err(AdminAccessRequired)
  {
    if caller.None? then Err(NotAuthenticated)
    else if CallerIs(roles, caller, Admin) then Ok(caller.value)
    else Err(AdminAccessRequired)
  }

  const DefaultExpiryHours := 72
  const MillisPerHour := 60 * 60 * 1000

  /** `Date.now() + (expiryHours ?? 72) * 60 * 60 * 1000`. */
  function LinkExpiry(now: int, expiryHours: Option<int>): int
  {
    now + (if expiryHours.Some? then expiryHours.value else DefaultExpiryHours) * MillisPerHour
  }

  function NewLink(token: string, formId: Id, containerIds: seq<Id>, createdBy: Id, expiresAt: int): AccessLink
  {
    AccessLink(token, formId, containerIds, createdBy, expiresAt, false, None, None, 0, None)
  }

  /**
   * `generateAccessLink`: admin only; the token from the random bytes, a
   * live link that has not been opened. Returns the token and the expiry.
   */
  method GenerateAccessLink(db: Db, caller: Option<Id>, formId: Id, containerIds: seq<Id>, expiryHours: Option<int>,
                            random: array<bv8>, now: int) returns (r: Result<(string, int), Error>)
    requires db.Valid() && random.Length == 16
    modifies db`links, db`nextId, random
    ensures db.Valid()
    ensures r.Ok? <==> AdminCheck(db.roles, caller).Ok?
    ensures r.Err? ==> (r.error == AdminCheck(db.roles, caller).error && db.links == old(db.links)
                        && db.nextId == old(db.nextId) && random[..] == old(random[..]))
    ensures r.Ok? ==>
      && r.value == (FormatUuid(WithVersionBits(old(random[..]))), LinkExpiry(now, expiryHours))
      && db.links == old(db.links) + [Row(old(db.nextId), NewLink(r.value.0, formId, containerIds, caller.value, r.value.1))]
  {
    var check := AdminCheck(db.roles, caller);
    if check.Err? {
      return Err(check.error);
    }
    var token := SafeRandomId(random);
    var expiresAt := LinkExpiry(now, expiryHours);
    var _ := db.InsertLink(NewLink(token, formId, containerIds, check.value, expiresAt));
    r := Ok((token, expiresAt));
  }

  /** The checks of `revokeAccessLink`: an admin, and a token that finds one link. */
  function RevokeCheck(roles: seq<Row<UserRole>>, links: seq<Row<AccessLink>>, caller: Option<Id>, token: string)
    : (r: Result<(Id, Row<AccessLink>), Error>)
    ensures r.Ok? ==> AdminCheck(roles, caller) == Ok(r.value.0) && LinkByToken(links, token) == Ok(Some(r.value.1))
  {
    match AdminCheck(roles, caller)
    case Err(e) => Err(e)
    case Ok(userId) =>
      match LinkByToken(links, token)
      case Err(e) => Err(e)
      case Ok(None) => Err(AccessLinkNotFound)
      case Ok(Some(row)) => Ok((userId, row))
  }

  function Revoked(link: AccessLink, userId: Id, now: int): AccessLink
  {
    link.(isRevoked := true, revokedAt := Some(now), revokedBy := Some(userId))
  }

  /** `revokeAccessLink`: mark the link revoked, with when and by whom. */
  method RevokeAccessLink(db: Db, caller: Option<Id>, token: string, now: int) returns (r: Result<(), Error>)
    requires db.Valid()
    modifies db`links
    ensures db.Valid()
    ensures r.Ok? <==> RevokeCheck(db.roles, old(db.links), caller, token).Ok?
    ensures r.Err? ==> (r.error == RevokeCheck(db.roles, old(db.links), caller, token).error && db.links == old(db.links))
    ensures r.Ok? ==>
      var (userId, row) := RevokeCheck(db.roles, old(db.links), caller, token).value;
      db.links == Put(old(db.links), row.id, Revoked(row.doc, userId, now))
  {
    var check := RevokeCheck(db.roles, db.links, caller, token);
    if check.Err? {
      return Err(check.error);
    }
    var (userId, row) := check.value;
    db.PutLink(row.id, Revoked(row.doc, userId, now));
    r := Ok(());
  }

  // ---------------------------------------------------------------------------
  // accessFormByToken
  // ---------------------------------------------------------------------------

  /** The form fields a link shows. */
  datatype SharedForm = SharedForm(
    refId: string,
    status: FormStatus,
    transportDetails: Option<TransportDetails>,
    bookingDetails: BookingDetails,
    createdAt: int,
    submittedAt: Option<int>)

  /** A shared container with its live photos (their URLs are not modelled). */
  datatype SharedContainer = SharedContainer(id: Id, container: Container, photos: seq<Row<Photo>>)

  datatype SharedView = SharedView(form: SharedForm, containers: seq<SharedContainer>, expiresAt: int, accessCount: int)

  function Shared(f: Form): SharedForm
  {
    SharedForm(f.refId, f.status, f.transportDetails, f.bookingDetails, f.createdAt, f.submittedAt)
  }

  /** The container's photos that are not deleted. */
  function LiveContainerPhotos(photos: seq<Row<Photo>>, containerId: Id): seq<Row<Photo>>
  {
    Where(photos, (p: Photo) => p.containerId == Some(containerId) && !p.isDeleted)
  }

  /** The link's containers in the link's order, each with its live photos; a container that is gone is dropped. */
  function SharedContainers(containers: seq<Row<Container>>, photos: seq<Row<Photo>>, ids: seq<Id>)
    : (r: seq<SharedContainer>)
    ensures |r| <= |ids|
    ensures forall k :: 0 <= k < |r| ==> r[k].id in ids && Get(containers, r[k].id) == Some(r[k].container)
  {
    if ids == [] then []
    else
      var here := match Get(containers, ids[0])
        case None => []
        case Some(c) => [SharedContainer(ids[0], c, LiveContainerPhotos(photos, ids[0]))];
      here + SharedContainers(containers, photos, ids[1..])
  }

  /** Every listed container that still exists is shared, with exactly its live photos. */
  lemma {:induction false} SharedContainersComplete(containers: seq<Row<Container>>, photos: seq<Row<Photo>>,
                                                    ids: seq<Id>, i: nat)
    requires i < |ids| && Get(containers, ids[i]).Some?
    ensures exists k :: (0 <= k < |SharedContainers(containers, photos, ids)|
      && SharedContainers(containers, photos, ids)[k]
         == SharedContainer(ids[i], Get(containers, ids[i]).value, LiveContainerPhotos(photos, ids[i])))
  {
    var r := SharedContainers(containers, photos, ids);
    if i == 0 {
      assert r[0] == SharedContainer(ids[0], Get(containers, ids[0]).value, LiveContainerPhotos(photos, ids[0]));
    } else {
      SharedContainersComplete(containers, photos, ids[1..], i - 1);
      var rest := SharedContainers(containers, photos, ids[1..]);
      var k :| 0 <= k < |rest|
        && rest[k] == SharedContainer(ids[i], Get(containers, ids[i]).value, LiveContainerPhotos(photos, ids[i]));
      var off := |r| - |rest|;
      assert r[off + k] == rest[k];
    }
  }

  /**
   * The checks of `accessFormByToken`, which needs no sign-in: a token that
   * finds one link, not revoked, not past its expiry, and a live form.
   */
  function AccessCheck(links: seq<Row<AccessLink>>, forms: seq<Row<Form>>, token: string, now: int)
    : (r: Result<(Row<AccessLink>, Form), Error>)
    ensures r.Ok? ==>
      && LinkByToken(links, token) == Ok(Some(r.value.0))
      && !r.value.0.doc.isRevoked && now <= r.value.0.doc.expiresAt
      && Get(forms, r.value.0.doc.formId) == Some(r.value.1) && !r.value.1.isDeleted
  {
    match LinkByToken(links, token)
    case Err(e) => Err(e)
    case Ok(None) => Err(InvalidAccessLink)
    case Ok(Some(row)) =>
      if row.doc.isRevoked then Err(AccessLinkRevoked)
      else if now > row.doc.expiresAt then Err(AccessLinkExpired)
      else match Get(forms, row.doc.formId)
        case None => Err(FormNotFound)
        case Some(f) => if f.isDeleted then Err(FormNotFound) else Ok((row, f))
  }

  /**
   * Refusals: an unknown token, a revoked link, a link past its expiry. A
   * live link to a live form opens up to and including its expiry instant.
   */
  lemma AccessRules(links: seq<Row<AccessLink>>, forms: seq<Row<Form>>, token: string, now: int)
    ensures (forall i :: 0 <= i < |links| ==> links[i].doc.token != token)
      ==> AccessCheck(links, forms, token, now) == Err(InvalidAccessLink)
    ensures LinkByToken(links, token).Ok? && LinkByToken(links, token).value.Some? ==>
      var link := LinkByToken(links, token).value.value.doc;
      && (link.isRevoked ==> AccessCheck(links, forms, token, now) == Err(AccessLinkRevoked))
      && (!link.isRevoked && now > link.expiresAt ==> AccessCheck(links, forms, token, now) == Err(AccessLinkExpired))
      && ((!link.isRevoked && now <= link.expiresAt && Get(forms, link.formId).Some?
           && !Get(forms, link.formId).value.isDeleted) ==> AccessCheck(links, forms, token, now).Ok?)
  {
  }

  function Opened(link: AccessLink, now: int): AccessLink
  {
    link.(accessCount := link.accessCount + 1, lastAccessedAt := Some(now))
  }

  /**
   * `accessFormByToken`: after the checks, count the visit and return the
   * form summary, the shared containers and the new count.
   */
  method AccessFormByToken(db: Db, token: string, now: int) returns (r: Result<SharedView, Error>)
    requires db.Valid()
    modifies db`links
    ensures db.Valid()
    ensures r.Ok? <==> AccessCheck(old(db.links), db.forms, token, now).Ok?
    ensures r.Err? ==> (r.error == AccessCheck(old(db.links), db.forms, token, now).error && db.links == old(db.links))
    ensures r.Ok? ==>
      var (row, f) := AccessCheck(old(db.links), db.forms, token, now).value;
      && db.links == Put(old(db.links), row.id, Opened(row.doc, now))
      && r.value == SharedView(Shared(f), SharedContainers(db.containers, db.photos, row.doc.containerIds),
                               row.doc.expiresAt, row.doc.accessCount + 1)
      && Get(db.links, row.id).value.accessCount == r.value.accessCount
  {
    var check := AccessCheck(db.links, db.forms, token, now);
    if check.Err? {
      return Err(check.error);
    }
    var (row, f) := check.value;
    var shared := SharedContainers(db.containers, db.photos, row.doc.containerIds);
    ghost var before := db.links;
    db.PutLink(row.id, Opened(row.doc, now));
    GetPut(before, db.nextId, row.id, Opened(row.doc, now), row.id);
    GetRow(before, db.nextId, IndexOf(before, row));
    r := Ok(SharedView(Shared(f), shared, row.doc.expiresAt, row.doc.accessCount + 1));
  }

  function IndexOf<T(==)>(t: seq<Row<T>>, row: Row<T>): (i: nat)
    requires row in t
    ensures i < |t| && t[i] == row
  {
    if t[0] == row then 0 else 1 + IndexOf(t[1..], row)
  }

  /** Once a link is revoked, its token opens nothing, at any later time. */
  lemma RevokedLinkRefused(roles: seq<Row<UserRole>>, links: seq<Row<AccessLink>>, next: Id, forms: seq<Row<Form>>,
                           caller: Option<Id>, token: string, now: int, later: int)
    requires WellKeyed(links, next) && RevokeCheck(roles, links, caller, token).Ok?
    ensures var (userId, row) := RevokeCheck(roles, links, caller, token).value;
      AccessCheck(Put(links, row.id, Revoked(row.doc, userId, now)), forms, token, later) == Err(AccessLinkRevoked)
  {
    var (userId, row) := RevokeCheck(roles, links, caller, token).value;
    PutKeepsLinkFound(links, next, token, row.id, Revoked(row.doc, userId, now));
  }

  /** After a visit the token finds the link with its raised count, so each visit adds exactly one. */
  lemma VisitCounted(links: seq<Row<AccessLink>>, next: Id, forms: seq<Row<Form>>, token: string, now: int)
    requires WellKeyed(links, next) && AccessCheck(links, forms, token, now).Ok?
    ensures var row := AccessCheck(links, forms, token, now).value.0;
      && LinkByToken(Put(links, row.id, Opened(row.doc, now)), token) == Ok(Some(Row(row.id, Opened(row.doc, now))))
      && Opened(row.doc, now).accessCount == row.doc.accessCount + 1
  {
    var row := AccessCheck(links, forms, token, now).value.0;
    PutKeepsLinkFound(links, next, token, row.id, Opened(row.doc, now));
  }

  /**
   * A link made with the default expiry at `now` opens at exactly 72 hours
   * later and is expired one millisecond after that.
   */
  lemma DefaultLinkLifetime(links: seq<Row<AccessLink>>, next: Id, forms: seq<Row<Form>>, token: string, formId: Id,
                            containerIds: seq<Id>, createdBy: Id, now: int)
    requires WellKeyed(links, next) && forall i :: 0 <= i < |links| ==> links[i].doc.token != token
    requires Get(forms, formId).Some? && !Get(forms, formId).value.isDeleted
    ensures var t := links + [Row(next, NewLink(token, formId, containerIds, createdBy, LinkExpiry(now, None)))];
      && AccessCheck(t, forms, token, now + 259200000).Ok?
      && AccessCheck(t, forms, token, now + 259200001) == Err(AccessLinkExpired)
  {
    var t := links + [Row(next, NewLink(token, formId, containerIds, createdBy, LinkExpiry(now, None)))];
    forall j | 0 <= j < |t| && j != |links| ensures t[j].doc.token != token {
      assert t[j] == links[j];
    }
    LinkByTokenOne(t, token, |links|);
  }

  // ---------------------------------------------------------------------------
  // listAccessLinks
  // ---------------------------------------------------------------------------

  /** A link with its form's reference id and status, and its creator's name and email, when they exist. */
  datatype LinkListing = LinkListing(link: Row<AccessLink>, form: Option<(string, FormStatus)>, createdBy: Option<User>)

  function CreationOrder(row: Row<AccessLink>): int
  {
    row.id
  }

  function Listing(forms: seq<Row<Form>>, users: seq<Row<User>>, row: Row<AccessLink>): LinkListing
  {
    var f := Get(forms, row.doc.formId);
    LinkListing(row, if f.Some? then Some((f.value.refId, f.value.status)) else None, Get(users, row.doc.createdBy))
  }

  /** `listAccessLinks`: admin only; every link, newest first, with its form and creator. */
  function ListAccessLinks(roles: seq<Row<UserRole>>, forms: seq<Row<Form>>, users: seq<Row<User>>,
                           links: seq<Row<AccessLink>>, caller: Option<Id>): (r: Result<seq<LinkListing>, Error>)
    ensures r.Ok? <==> AdminCheck(roles, caller).Ok?
    ensures r.Err? ==> r.error == AdminCheck(roles, caller).error
    ensures r.Ok? ==> |r.value| == |links|
  {
    match AdminCheck(roles, caller)
    case Err(e) => Err(e)
    case Ok(_) =>
      var sorted := SortDesc(links, CreationOrder);
      Ok(seq(|sorted|, k requires 0 <= k < |sorted| => Listing(forms, users, sorted[k])))
  }

  /** Since ids grow with creation time, the list is the table back to front. */
  lemma ListAccessLinksNewestFirst(roles: seq<Row<UserRole>>, forms: seq<Row<Form>>, users: seq<Row<User>>,
                                   links: seq<Row<AccessLink>>, next: Id, caller: Option<Id>)
    requires WellKeyed(links, next) && ListAccessLinks(roles, forms, users, links, caller).Ok?
    ensures var r := ListAccessLinks(roles, forms, users, links, caller).value;
      forall k :: 0 <= k < |r| ==>
        && r[k].link == links[|links| - 1 - k]
        && (r[k].form.Some? <==> Get(forms, r[k].link.doc.formId).Some?)
  {
    IncreasingIds(links);
    SortDescIncreasing(links, CreationOrder);
  }
}
