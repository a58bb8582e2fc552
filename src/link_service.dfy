/** Share links (internal/service/link_service.go): creation with defaults, lookup precedence,
    the one-time-link latch and the domain-index rotation. */
module LinkService {
  import opened Wrappers
  import opened Tables
  import opened Sql
  import opened Helpers
  import opened LinkRepo
  import opened Text

  const ErrLinkNotFound := "link not found"
  const ErrOneTimeLinkUsed := "one-time link already used"

  datatype CreateLinkOptions = CreateLinkOptions(
    room: string,
    userType: string,
    mobile: string,
    share: int,
    requireJoinPermission: int,
    requireUserName: int,
    requirePassword: int,
    password: string,
    oneTimeLink: int,
    userAgent: string,
    daysExpired: int)

  /** Which lookup `GetLinkDetail` runs. */
  datatype LinkLookup = ByLinkId(linkId: string) | ByRoom(room: string, userType: string) | NoLookup

  /** A non-empty linkID wins over the room; the room is looked up as a `guest` link; with
      neither there is no lookup. */
  function DetailLookup(linkId: string, room: string): (l: LinkLookup)
    ensures l.ByLinkId? <==> linkId != ""
    ensures l.ByLinkId? ==> l.linkId == linkId
    ensures l.ByRoom? <==> linkId == "" && room != ""
    ensures l.ByRoom? ==> l == ByRoom(room, "guest")
  {
    if linkId != "" then ByLinkId(linkId)
    else if room != "" then ByRoom(room, "guest")
    else NoLookup
  }

  /** The row parameters `CreateLink` inserts. Only the listed options are carried over: the
      request's user type becomes the link type, and the user type column itself is `""`. */
  function LinkParams(linkId: string, opts: CreateLinkOptions, now: string, expiredAt: string): (p: CreateLinkParams)
    ensures p.linkId == linkId && p.room == opts.room && p.linkType == opts.userType && p.userType == ""
    ensures p.oneTimeLink == opts.oneTimeLink && p.dtmCreated == now && p.dtmExpired == expiredAt
  {
    CreateLinkParams(opts.share, opts.mobile, linkId, opts.room, 0, "", "", opts.userType, "", 0,
      opts.requireJoinPermission, opts.requireUserName, opts.requirePassword, opts.oneTimeLink,
      opts.password, now, expiredAt, opts.userAgent)
  }

  /** The row `CreateLink` inserts carries each option in its own column, is created `now`, and
      has no record, domain index, coordinates or enabled flag yet. */
  lemma CreatedLinkCarriesOptions(id: nat, linkId: string, opts: CreateLinkOptions, now: string, expiredAt: string)
    ensures var r := Inserted(id, LinkParams(linkId, opts, now, expiredAt));
      && r.id == id && r.linkId == Some(linkId) && r.room == Some(opts.room)
      && r.linkType == Some(opts.userType) && r.userType == Some("")
      && r.share == Some(opts.share) && r.mobile == opts.mobile
      && r.requireJoinPermission == Some(opts.requireJoinPermission) && r.requireUserName == Some(opts.requireUserName)
      && r.requirePassword == Some(opts.requirePassword) && r.password == Some(opts.password)
      && r.oneTimeLink == Some(opts.oneTimeLink) && r.userAgent == Some(opts.userAgent)
      && r.dtmCreated == Some(now) && r.dtmExpired == Some(expiredAt)
      && r.recordId == Some(0) && r.isAdmin == Some("0") && r.crmSender == Some("") && r.userName == Some("")
      && r.domainIndex.None? && r.enabled.None? && r.latitude.None? && r.longitude.None?
  {
    assert DigitChar(0) == '0';
  }

  /** A link made by `CreateLink` is never what `GetLinkDetail` finds by room: its user type is
      `""`, not `guest`. */
  lemma CreatedLinkNotFoundByRoom(id: nat, linkId: string, opts: CreateLinkOptions, now: string, expiredAt: string,
                                  room: string)
    ensures var l := DetailLookup("", room);
      l.ByRoom? ==> !RoomAndType(l.room, l.userType)(Inserted(id, LinkParams(linkId, opts, now, expiredAt)))
  {
  }

  /** On an unknown linkID the check never latches: the status reads 0 before and after. */
  lemma UnknownLinkNeverLatches(t: seq<LinkConnect>, linkId: string)
    requires forall i :: 0 <= i < |t| ==> t[i].linkId != Some(linkId)
    ensures OneTimeLinkStatus(t, linkId) == Ok(0)
    ensures WithOneTimeLink(t, linkId, 1) == t
  {
    FirstWhereIsFirst(t, HasLinkId(linkId));
  }

  class LinkService {
    const linkRepo: LinkRepository
    const rng: Rand
    const customCharset: string
    const roomDayDefaultTimeout: int
    const apiUrl: string

    constructor (linkRepo: LinkRepository, rng: Rand, customCharset: string, roomDayDefaultTimeout: int, apiUrl: string)
      ensures this.linkRepo == linkRepo && this.rng == rng && this.customCharset == customCharset
      ensures this.roomDayDefaultTimeout == roomDayDefaultTimeout && this.apiUrl == apiUrl
    {
      this.linkRepo := linkRepo;
      this.rng := rng;
      this.customCharset := customCharset;
      this.roomDayDefaultTimeout := roomDayDefaultTimeout;
      this.apiUrl := apiUrl;
    }

    method GetLinkDetail(linkId: string, room: string, db: Outcome)
      returns (link: Option<LinkConnect>, err: Error, ghost lookup: LinkLookup)
      ensures lookup == DetailLookup(linkId, room)
      ensures linkId != "" ==>
        err == Wrap("get link by ID", db)
        && link == (if db.Success? then Project(FirstWhere(linkRepo.rows, HasLinkId(linkId)), ByLinkIdView) else None)
      ensures linkId == "" && room != "" ==>
        err == Wrap("get link by room", db)
        && link == (if db.Success? then Project(LastWhere(linkRepo.rows, RoomAndType(room, "guest")), ByRoomView) else None)
      ensures linkId == "" && room == "" ==> link.None? && err == Some(ErrLinkNotFound)
    {
      lookup := DetailLookup(linkId, room);
      if linkId != "" {
        link, err := linkRepo.GetByLinkID(linkId, db);
        return;
      }
      if room != "" {
        ghost var st;
        link, err, st := linkRepo.GetByRoomAndUserType(room, "guest", db);
        return;
      }
      link, err := None, Some(ErrLinkNotFound);
    }

    /** Inserts a link with a fresh six-character ID expiring `daysExpired` days ahead (the
        configured default for 0), then reads it back by that ID. */
    method CreateLink(opts: CreateLinkOptions, now: string, addDays: int -> string, createDb: Outcome, lookupDb: Outcome)
      returns (link: Option<LinkConnect>, err: Error)
      requires linkRepo.Valid()
      modifies linkRepo, rng`used
      ensures linkRepo.Valid()
      ensures createDb.Failure? ==> link.None? && err == Wrap("create link", createDb) && linkRepo.rows == old(linkRepo.rows)
      ensures createDb.Failure? ==> linkRepo.nextId == old(linkRepo.nextId)
      ensures createDb.Success? ==> |linkRepo.rows| == |old(linkRepo.rows)| + 1
      ensures createDb.Success? ==>
        var row := linkRepo.rows[|linkRepo.rows| - 1];
        && row.linkId.Some?
        && linkRepo.rows == old(linkRepo.rows) + [Inserted(old(linkRepo.nextId), LinkParams(row.linkId.value, opts, now,
             addDays(if opts.daysExpired == 0 then roomDayDefaultTimeout else opts.daysExpired)))]
        && linkRepo.nextId == old(linkRepo.nextId) + 1
        && |row.linkId.value| == 6
        && (customCharset == "" ==> 'N' !in row.linkId.value && 'n' !in row.linkId.value)
        && row.linkType == Some(opts.userType) && row.userType == Some("") && row.room == Some(opts.room)
        && row.dtmExpired == Some(addDays(if opts.daysExpired == 0 then roomDayDefaultTimeout else opts.daysExpired))
        && err == Wrap("get link by ID", lookupDb)
        && (lookupDb.Success? && (forall i :: 0 <= i < |old(linkRepo.rows)| ==> old(linkRepo.rows)[i].linkId != row.linkId)
            ==> link == Some(ByLinkIdView(row)))
    {
      var linkId := GenerateLinkID(customCharset, rng);
      var days := opts.daysExpired;
      if days == 0 {
        days := roomDayDefaultTimeout;
      }
      var p := LinkParams(linkId, opts, now, addDays(days));
      ghost var before := linkRepo.rows;
      var id;
      id, err := linkRepo.Create(p, createDb);
      if err.Some? {
        return None, err;
      }
      if forall i :: 0 <= i < |before| ==> before[i].linkId != Some(linkId) {
        FirstWhereAfterAppend(before, Inserted(id, p), HasLinkId(linkId));
      }
      ghost var lookup;
      link, err, lookup := GetLinkDetail(linkId, "", lookupDb);
    }

    /** Refuses a link whose one-time status is already 1; otherwise sets it to 1. A failed
        status lookup is returned and nothing is written. */
    method CheckAndUpdateOneTimeLink(linkId: string, statusDb: Outcome, updateDb: Outcome) returns (err: Error)
      requires linkRepo.Valid()
      modifies linkRepo`rows
      ensures linkRepo.Valid()
      ensures statusDb.Failure? ==>
        err == Wrap("get one time link status", statusDb) && linkRepo.rows == old(linkRepo.rows)
      ensures statusDb.Success? && OneTimeLinkStatus(old(linkRepo.rows), linkId).Err? ==>
        err == Some(OneTimeLinkStatus(old(linkRepo.rows), linkId).error) && linkRepo.rows == old(linkRepo.rows)
      ensures statusDb.Success? && OneTimeLinkStatus(old(linkRepo.rows), linkId) == Ok(1) ==>
        err == Some(ErrOneTimeLinkUsed) && linkRepo.rows == old(linkRepo.rows)
      ensures statusDb.Success? && OneTimeLinkStatus(old(linkRepo.rows), linkId).Ok? && OneTimeLinkStatus(old(linkRepo.rows), linkId) != Ok(1) ==>
        err == Wrap("update one time link", updateDb)
        && linkRepo.rows == if updateDb.Success? then WithOneTimeLink(old(linkRepo.rows), linkId, 1) else old(linkRepo.rows)
    {
      var status;
      status, err := linkRepo.GetOneTimeLinkStatus(linkId, statusDb);
      if err.Some? {
        return;
      }
      if status == 1 {
        return Some(ErrOneTimeLinkUsed);
      }
      err := linkRepo.UpdateOneTimeLink(linkId, 1, updateDb);
    }

    /** Writes `last + 1` as the link's domain index, where a failed lookup of the last index
        counts as 0, and answers the configured API URL; a failed write is returned. */
    method GetDomain(service: int, sender: string, linkType: string, linkId: string, lastDb: Outcome, updateDb: Outcome)
      returns (url: string, err: Error)
      requires linkRepo.Valid()
      modifies linkRepo`rows
      ensures linkRepo.Valid()
      ensures err == Wrap("update domain index", updateDb)
      ensures url == if updateDb.Success? then apiUrl else ""
      ensures var last := if lastDb.Success? then LastDomainIndex(old(linkRepo.rows), linkId) else 0;
        linkRepo.rows == if updateDb.Success? then WithDomainIndex(old(linkRepo.rows), linkId, last + 1) else old(linkRepo.rows)
    {
      var lastIndex, lastErr := linkRepo.GetLastDomainIndex(linkId, lastDb);
      if lastErr.Some? {
        lastIndex := 0;
      }
      err := linkRepo.UpdateDomainIndex(linkId, lastIndex + 1, updateDb);
      if err.Some? {
        return "", err;
      }
      url := apiUrl;
    }
  }
}
