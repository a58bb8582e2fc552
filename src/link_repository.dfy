/** The `link_connect` table and the statements `LinkRepository` runs on it
    (internal/repository/link_repository.go). */
module LinkRepo {
  import opened Wrappers
  import opened Tables
  import opened Sql
  import opened Text

  /** A `link_connect` row; `None` is SQL NULL. Coordinates are carried as opaque values. */
  datatype LinkConnect = LinkConnect(
    id: nat,
    recordId: Option<int>,
    mobile: string,
    linkId: Option<string>,
    domainIndex: Option<int>,
    share: Option<int>,
    enabled: Option<int>,
    userName: Option<string>,
    room: Option<string>,
    userType: Option<string>,
    linkType: Option<string>,
    crmSender: Option<string>,
    latitude: Option<real>,
    longitude: Option<real>,
    userAgent: Option<string>,
    requireJoinPermission: Option<int>,
    requireUserName: Option<int>,
    requirePassword: Option<int>,
    oneTimeLink: Option<int>,
    password: Option<string>,
    isAdmin: Option<string>,
    dtmCreated: Option<string>,
    dtmExpired: Option<string>)

  datatype CreateLinkParams = CreateLinkParams(
    share: int,
    mobile: string,
    linkId: string,
    room: string,
    recordId: int,
    crmSender: string,
    userType: string,
    linkType: string,
    userName: string,
    isAdmin: int,
    requireJoinPermission: int,
    requireUserName: int,
    requirePassword: int,
    oneTimeLink: int,
    password: string,
    dtmCreated: string,
    dtmExpired: string,
    userAgent: string)

  /** The text stored when the integer `isAdmin` parameter is written to the string column. */
  function AdminText(i: int): string {
    if i < 0 then "-" + Decimal(-i) else Decimal(i)
  }

  /** The row `Create` inserts: every listed column gets its parameter, the others are NULL. */
  function Inserted(id: nat, p: CreateLinkParams): (r: LinkConnect)
    ensures r.id == id && r.linkId == Some(p.linkId) && r.room == Some(p.room)
    ensures r.userType == Some(p.userType) && r.linkType == Some(p.linkType)
    ensures r.oneTimeLink == Some(p.oneTimeLink) && r.dtmExpired == Some(p.dtmExpired)
    ensures r.domainIndex.None? && r.enabled.None?
  {
    LinkConnect(id, Some(p.recordId), p.mobile, Some(p.linkId), None, Some(p.share), None, Some(p.userName),
      Some(p.room), Some(p.userType), Some(p.linkType), Some(p.crmSender), None, None, Some(p.userAgent),
      Some(p.requireJoinPermission), Some(p.requireUserName), Some(p.requirePassword), Some(p.oneTimeLink),
      Some(p.password), Some(AdminText(p.isAdmin)), Some(p.dtmCreated), Some(p.dtmExpired))
  }

  /** `GetByLinkID` does not select id, recordId, domainIndex, share, the coordinates, userAgent
      or password; those are left as Go zero values. */
  function ByLinkIdView(r: LinkConnect): LinkConnect {
    r.(id := 0, recordId := None, domainIndex := None, share := None, latitude := None, longitude := None,
       userAgent := None, password := None)
  }

  /** `GetByRoomAndUserType` does not select id, recordId, domainIndex, share, userAgent or
      password; those are left as Go zero values. */
  function ByRoomView(r: LinkConnect): LinkConnect {
    r.(id := 0, recordId := None, domainIndex := None, share := None, userAgent := None, password := None)
  }

  function HasLinkId(linkId: string): LinkConnect -> bool {
    (r: LinkConnect) => r.linkId == Some(linkId)
  }

  /** `WHERE linkID != ?`: SQL's `!=` is never true on a NULL linkID. */
  function OtherLinkId(linkId: string): LinkConnect -> bool {
    (r: LinkConnect) => r.linkId.Some? && r.linkId.value != linkId
  }

  /** `GetByRoomAndUserType`'s filter: the room, and the user type only when one is given. */
  function RoomAndType(room: string, userType: string): LinkConnect -> bool {
    (r: LinkConnect) => r.room == Some(room) && (userType == "" || r.userType == Some(userType))
  }

  /** `WHERE room = ? AND share = 1 AND userName = ?`. */
  function SharedIn(room: string, userName: string): LinkConnect -> bool {
    (r: LinkConnect) => r.room == Some(room) && r.share == Some(1) && r.userName == Some(userName)
  }

  /** `WHERE room = ? AND userType = 'user'`. */
  function UserIn(room: string): LinkConnect -> bool {
    (r: LinkConnect) => r.room == Some(room) && r.userType == Some("user")
  }

  function RoomAndLinkType(room: string, linkType: string): LinkConnect -> bool {
    (r: LinkConnect) => r.room == Some(room) && r.linkType == Some(linkType)
  }

  /** `GetByRoomAndUserType`'s statement: the user-type clause and its argument are added
      together, only for a non-empty user type, before `ORDER BY id DESC LIMIT 1`. */
  method RoomAndUserTypeStatement(room: string, userType: string) returns (st: Statement)
    ensures Bound(st)
    ensures st.args == if userType == "" then [Str(room)] else [Str(room), Str(userType)]
    ensures st.query[|st.query| - 1] == Text(" ORDER BY id DESC LIMIT 1")
  {
    var query: Query := [Text("SELECT ... FROM link_connect WHERE room = "), Hole];
    var args: seq<Arg> := [Str(room)];
    if userType != "" {
      HolesAppend(query, [Text(" AND userType = "), Hole]);
      query := query + [Text(" AND userType = "), Hole];
      args := args + [Str(userType)];
    }
    HolesAppend(query, [Text(" ORDER BY id DESC LIMIT 1")]);
    query := query + [Text(" ORDER BY id DESC LIMIT 1")];
    st := Statement(query, args);
  }

  /** `UPDATE link_connect SET oneTimeLink = ? WHERE linkID = ?`. */
  function WithOneTimeLink(t: seq<LinkConnect>, linkId: string, status: int): (r: seq<LinkConnect>)
    ensures |r| == |t|
    ensures forall i :: 0 <= i < |t| ==>
      r[i] == if t[i].linkId == Some(linkId) then t[i].(oneTimeLink := Some(status)) else t[i]
  {
    UpdateWhere(t, HasLinkId(linkId), (r: LinkConnect) => r.(oneTimeLink := Some(status)))
  }

  /** `UPDATE link_connect SET domainIndex = ? WHERE linkID = ?`. */
  function WithDomainIndex(t: seq<LinkConnect>, linkId: string, index: int): (r: seq<LinkConnect>)
    ensures |r| == |t|
    ensures forall i :: 0 <= i < |t| ==>
      r[i] == if t[i].linkId == Some(linkId) then t[i].(domainIndex := Some(index)) else t[i]
  {
    UpdateWhere(t, HasLinkId(linkId), (r: LinkConnect) => r.(domainIndex := Some(index)))
  }

  /** `UPDATE link_connect SET enabled = ? WHERE room = ? AND linkType = ?`. */
  function WithEnabled(t: seq<LinkConnect>, room: string, linkType: string, enabled: int): (r: seq<LinkConnect>)
    ensures |r| == |t|
    ensures forall i :: 0 <= i < |t| ==>
      r[i] == if t[i].room == Some(room) && t[i].linkType == Some(linkType) then t[i].(enabled := Some(enabled)) else t[i]
  {
    UpdateWhere(t, RoomAndLinkType(room, linkType), (r: LinkConnect) => r.(enabled := Some(enabled)))
  }

  /** `UPDATE link_connect SET latitude = ?, longitude = ? ... WHERE linkID = ?`. The statement
      also writes the `accuracy` column, which no read of the modelled rows returns. */
  function WithLatLng(t: seq<LinkConnect>, linkId: string, latitude: real, longitude: real): (r: seq<LinkConnect>)
    ensures |r| == |t|
    ensures forall i :: 0 <= i < |t| ==>
      r[i] == if t[i].linkId == Some(linkId) then t[i].(latitude := Some(latitude), longitude := Some(longitude)) else t[i]
  {
    UpdateWhere(t, HasLinkId(linkId), (r: LinkConnect) => r.(latitude := Some(latitude), longitude := Some(longitude)))
  }

  /** `SELECT oneTimeLink FROM link_connect WHERE linkID = ?`: 0 when no row matches, the
      driver's error when the column is NULL. */
  function OneTimeLinkStatus(t: seq<LinkConnect>, linkId: string): (r: Result<int>)
    ensures FirstWhere(t, HasLinkId(linkId)).None? ==> r == Ok(0)
    ensures FirstWhere(t, HasLinkId(linkId)).Some? && FirstWhere(t, HasLinkId(linkId)).value.oneTimeLink.Some? ==>
      r == Ok(FirstWhere(t, HasLinkId(linkId)).value.oneTimeLink.value)
    ensures r.Err? <==> FirstWhere(t, HasLinkId(linkId)).Some? && FirstWhere(t, HasLinkId(linkId)).value.oneTimeLink.None?
  {
    match FirstWhere(t, HasLinkId(linkId))
    case None => Ok(0)
    case Some(row) =>
      if row.oneTimeLink.Some? then Ok(row.oneTimeLink.value)
      else Err(Wrap("get one time link status", NullScan(0, "oneTimeLink", "int")).value)
  }

  /** `SELECT IFNULL(domainIndex, 0) ... WHERE linkID != ? ORDER BY id DESC LIMIT 1`. */
  function LastDomainIndex(t: seq<LinkConnect>, linkId: string): int {
    match LastWhere(t, OtherLinkId(linkId))
    case None => 0
    case Some(row) => if row.domainIndex.Some? then row.domainIndex.value else 0
  }

  /** The last domain index is 0 when every row's linkID is NULL or the argument; otherwise it
      is the index (NULL read as 0) of the newest row with another linkID. */
  lemma LastDomainIndexMeaning(t: seq<LinkConnect>, linkId: string)
    ensures (forall i :: 0 <= i < |t| ==> t[i].linkId.None? || t[i].linkId == Some(linkId)) ==> LastDomainIndex(t, linkId) == 0
    ensures (exists i :: 0 <= i < |t| && t[i].linkId.Some? && t[i].linkId != Some(linkId)) ==>
      exists k :: 0 <= k < |t| && t[k].linkId.Some? && t[k].linkId != Some(linkId)
        && (forall j :: k < j < |t| ==> t[j].linkId.None? || t[j].linkId == Some(linkId))
        && LastDomainIndex(t, linkId) == (if t[k].domainIndex.Some? then t[k].domainIndex.value else 0)
  {
    LastWhereIsLast(t, OtherLinkId(linkId));
  }

  /** Setting a link's one-time status to 1 latches it: reading the status back gives 1
      whenever the link exists. */
  lemma OneTimeLinkLatches(t: seq<LinkConnect>, linkId: string)
    requires exists i :: 0 <= i < |t| && t[i].linkId == Some(linkId)
    ensures OneTimeLinkStatus(WithOneTimeLink(t, linkId, 1), linkId) == Ok(1)
  {
    var u := WithOneTimeLink(t, linkId, 1);
    FirstWhereIsFirst(u, HasLinkId(linkId));
    var i :| 0 <= i < |t| && t[i].linkId == Some(linkId);
    assert HasLinkId(linkId)(u[i]);
  }

  class LinkRepository {
    var rows: seq<LinkConnect>
    var nextId: nat

    /** Ids are below the next id and ascend along the table, as an auto-increment key does. */
    predicate Valid()
      reads this
    {
      && (forall i :: 0 <= i < |rows| ==> rows[i].id < nextId)
      && (forall i, j :: 0 <= i < j < |rows| ==> rows[i].id < rows[j].id)
    }

    constructor (rows: seq<LinkConnect>, nextId: nat)
      requires forall i :: 0 <= i < |rows| ==> rows[i].id < nextId
      requires forall i, j :: 0 <= i < j < |rows| ==> rows[i].id < rows[j].id
      ensures this.rows == rows && this.nextId == nextId && Valid()
    {
      this.rows := rows;
      this.nextId := nextId;
    }

    method Create(p: CreateLinkParams, db: Outcome) returns (id: int, err: Error)
      requires Valid()
      modifies this
      ensures Valid()
      ensures err == Wrap("create link", db)
      ensures db.Success? ==>
        id == old(nextId) && rows == old(rows) + [Inserted(old(nextId), p)] && nextId == old(nextId) + 1
      ensures db.Failure? ==> id == 0 && rows == old(rows) && nextId == old(nextId)
    {
      err := Wrap("create link", db);
      if db.Success? {
        id := nextId;
        rows := rows + [Inserted(nextId, p)];
        nextId := nextId + 1;
      } else {
        id := 0;
      }
    }

    /** The first row with the linkID, seen through the selected columns; no matching row is
        `(nil, nil)`. */
    method GetByLinkID(linkId: string, db: Outcome) returns (r: Option<LinkConnect>, err: Error)
      ensures err == Wrap("get link by ID", db)
      ensures r == if db.Success? then Project(FirstWhere(rows, HasLinkId(linkId)), ByLinkIdView) else None
      ensures db.Success? ==> (r.Some? <==> exists x :: x in rows && x.linkId == Some(linkId))
      ensures r.Some? ==> r.value.linkId == Some(linkId) && r.value.id == 0 && r.value.password.None?
    {
      err := Wrap("get link by ID", db);
      r := if db.Success? then Project(FirstWhere(rows, HasLinkId(linkId)), ByLinkIdView) else None;
      FirstWhereIsFirst(rows, HasLinkId(linkId));
    }

    /** The newest row of the room (of that user type, when one is given); none is `(nil, nil)`. */
    method GetByRoomAndUserType(room: string, userType: string, db: Outcome)
      returns (r: Option<LinkConnect>, err: Error, ghost st: Statement)
      ensures Bound(st)
      ensures err == Wrap("get link by room", db)
      ensures r == if db.Success? then Project(LastWhere(rows, RoomAndType(room, userType)), ByRoomView) else None
      ensures db.Success? ==> (r.Some? <==> exists x :: x in rows && RoomAndType(room, userType)(x))
      ensures r.Some? ==> r.value.room == Some(room) && (userType != "" ==> r.value.userType == Some(userType))
      ensures r.Some? ==> r.value.id == 0 && r.value.password.None?
      ensures Valid() && r.Some? ==>
        exists x :: x in rows && RoomAndType(room, userType)(x) && r.value == ByRoomView(x)
          && forall y :: y in rows && RoomAndType(room, userType)(y) ==> y.id <= x.id
    {
      st := RoomAndUserTypeStatement(room, userType);
      err := Wrap("get link by room", db);
      r := if db.Success? then Project(LastWhere(rows, RoomAndType(room, userType)), ByRoomView) else None;
      LastWhereIsLast(rows, RoomAndType(room, userType));
      if Valid() {
        LastWhereHasGreatestKey(rows, RoomAndType(room, userType), (x: LinkConnect) => x.id);
      }
    }

    /** The share link's linkID, compared against `userName`; no row is `""` with no error. */
    method GetShareURL(room: string, userType: string, db: Outcome) returns (linkId: string, err: Error)
      ensures db.Failure? ==> linkId == "" && err == Wrap("get share URL", db)
      ensures db.Success? && FirstWhere(rows, SharedIn(room, userType)).None? ==> linkId == "" && err.None?
      ensures db.Success? && FirstWhere(rows, SharedIn(room, userType)).Some? ==>
        var row := FirstWhere(rows, SharedIn(room, userType)).value;
        if row.linkId.Some? then linkId == row.linkId.value && err.None?
        else linkId == "" && err == Wrap("get share URL", NullScan(0, "linkID", "string"))
    {
      linkId, err := "", Wrap("get share URL", db);
      if db.Success? {
        var found := FirstWhere(rows, SharedIn(room, userType));
        if found.Some? {
          if found.value.linkId.Some? {
            linkId := found.value.linkId.value;
          } else {
            err := Wrap("get share URL", NullScan(0, "linkID", "string"));
          }
        }
      }
    }

    method GetOneTimeLinkStatus(linkId: string, db: Outcome) returns (status: int, err: Error)
      ensures db.Failure? ==> status == 0 && err == Wrap("get one time link status", db)
      ensures db.Success? ==> match OneTimeLinkStatus(rows, linkId)
        case Ok(s) => status == s && err.None?
        case Err(e) => status == 0 && err == Some(e)
    {
      if db.Failure? {
        return 0, Wrap("get one time link status", db);
      }
      match OneTimeLinkStatus(rows, linkId)
      case Ok(s) => status, err := s, None;
      case Err(e) => status, err := 0, Some(e);
    }

    method UpdateOneTimeLink(linkId: string, status: int, db: Outcome) returns (err: Error)
      requires Valid()
      modifies this`rows
      ensures Valid()
      ensures err == Wrap("update one time link", db)
      ensures rows == if db.Success? then WithOneTimeLink(old(rows), linkId, status) else old(rows)
    {
      err := Wrap("update one time link", db);
      if db.Success? {
        rows := WithOneTimeLink(rows, linkId, status);
      }
    }

    /** The room's `user` mobile; no row is `""` with no error. */
    method GetUserMobile(room: string, db: Outcome) returns (mobile: string, err: Error)
      ensures err == Wrap("get user mobile", db)
      ensures mobile == if db.Success? && FirstWhere(rows, UserIn(room)).Some? then FirstWhere(rows, UserIn(room)).value.mobile else ""
    {
      err := Wrap("get user mobile", db);
      var found := FirstWhere(rows, UserIn(room));
      mobile := if db.Success? && found.Some? then found.value.mobile else "";
    }

    method UpdateDomainIndex(linkId: string, index: int, db: Outcome) returns (err: Error)
      requires Valid()
      modifies this`rows
      ensures Valid()
      ensures err == Wrap("update domain index", db)
      ensures rows == if db.Success? then WithDomainIndex(old(rows), linkId, index) else old(rows)
    {
      err := Wrap("update domain index", db);
      if db.Success? {
        rows := WithDomainIndex(rows, linkId, index);
      }
    }

    method GetLastDomainIndex(excludeLinkId: string, db: Outcome) returns (index: int, err: Error)
      ensures err == Wrap("get last domain index", db)
      ensures index == if db.Success? then LastDomainIndex(rows, excludeLinkId) else 0
      ensures Valid() && db.Success? && LastWhere(rows, OtherLinkId(excludeLinkId)).Some? ==>
        exists x :: x in rows && OtherLinkId(excludeLinkId)(x)
          && index == (if x.domainIndex.Some? then x.domainIndex.value else 0)
          && forall y :: y in rows && OtherLinkId(excludeLinkId)(y) ==> y.id <= x.id
    {
      err := Wrap("get last domain index", db);
      index := if db.Success? then LastDomainIndex(rows, excludeLinkId) else 0;
      if Valid() {
        LastWhereHasGreatestKey(rows, OtherLinkId(excludeLinkId), (x: LinkConnect) => x.id);
      }
    }

    method UpdateLatLng(linkId: string, latitude: real, longitude: real, accuracy: int, db: Outcome) returns (err: Error)
      requires Valid()
      modifies this`rows
      ensures Valid()
      ensures err == Wrap("update lat/lng", db)
      ensures rows == if db.Success? then WithLatLng(old(rows), linkId, latitude, longitude) else old(rows)
    {
      err := Wrap("update lat/lng", db);
      if db.Success? {
        rows := WithLatLng(rows, linkId, latitude, longitude);
      }
    }

    method UpdateLinkEnabled(room: string, linkType: string, enabled: int, db: Outcome) returns (err: Error)
      requires Valid()
      modifies this`rows
      ensures Valid()
      ensures err == Wrap("update link enabled", db)
      ensures rows == if db.Success? then WithEnabled(old(rows), room, linkType, enabled) else old(rows)
    {
      err := Wrap("update link enabled", db);
      if db.Success? {
        rows := WithEnabled(rows, room, linkType, enabled);
      }
    }
  }
}
