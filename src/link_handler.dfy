/** The link routes (internal/handler/link_handler.go): request validation in front of the link
    service. A request body that does not parse is `None`. Replies carry the HTTP status, the
    envelope's `OK`/`FAIL` status, its message and its data; a service error is a `FAIL`
    envelope sent with status 200. */
module LinkHandler {
  import opened Wrappers
  import opened Text
  import opened Sql
  import Tables
  import LinkRepo
  import LinkService

  const StatusOK := 200
  const StatusBadRequest := 400

  datatype Data =
    | NoData
    | Updated(pointsCount: Option<nat>)
    | ShareUrl(url: string)
    | Link(link: Option<LinkRepo.LinkConnect>)
    | SmsSent(message: string, mobile: string)

  datatype Reply = Reply(code: int, status: string, message: string, data: Data)

  function OkReply(data: Data): Reply { Reply(StatusOK, "OK", "", data) }
  function Failed(message: string): Reply { Reply(StatusOK, "FAIL", message, NoData) }
  function BadRequest(message: string): Reply { Reply(StatusBadRequest, "FAIL", message, NoData) }

  datatype LatLngPoint = LatLngPoint(latitude: real, longitude: real, accuracy: int)
  datatype MultiRequest = MultiRequest(linkId: string, points: seq<LatLngPoint>)
  datatype HlsRequest = HlsRequest(room: string, userType: string, daysExpired: int)
  datatype SendRequest = SendRequest(message: string, mobile: string, room: string)

  /** `SendCustomMessage`: the message must be present, then the mobile, then the message must
      not be all white space; a valid request is acknowledged with the mobile it names. No
      message is sent. */
  function SendCustomMessage(body: Option<SendRequest>): (r: Reply)
    ensures body.None? ==> r == BadRequest("Invalid request body")
    ensures body.Some? && body.value.message == "" ==> r == BadRequest("Message is required")
    ensures body.Some? && body.value.message != "" && body.value.mobile == "" ==> r == BadRequest("Mobile is required")
    ensures body.Some? && body.value.message != "" && body.value.mobile != "" && IsBlank(body.value.message) ==>
      r == BadRequest("Message cannot be empty")
    ensures r.status == "OK" <==> body.Some? && body.value.mobile != "" && !IsBlank(body.value.message)
    ensures r.status == "OK" ==> r == OkReply(SmsSent("SMS sent successfully", body.value.mobile))
  {
    match body
    case None => BadRequest("Invalid request body")
    case Some(req) =>
      if req.message == "" then BadRequest("Message is required")
      else if req.mobile == "" then BadRequest("Mobile is required")
      else if IsBlank(req.message) then BadRequest("Message cannot be empty")
      else OkReply(SmsSent("SMS sent successfully", req.mobile))
  }

  /** `CreateHLSLink`'s options: the room and expiry of the request, the link type forced to
      `"hls"` whatever the request asked for, every other option zero. */
  function HlsLinkOptions(req: HlsRequest): (opts: LinkService.CreateLinkOptions)
    ensures opts.userType == "hls" && opts.room == req.room && opts.daysExpired == req.daysExpired
    ensures opts.mobile == "" && opts.password == "" && opts.userAgent == ""
    ensures opts.share == 0 && opts.oneTimeLink == 0
    ensures opts.requireJoinPermission == 0 && opts.requireUserName == 0 && opts.requirePassword == 0
  {
    LinkService.CreateLinkOptions(req.room, "hls", "", 0, 0, 0, 0, "", 0, "", req.daysExpired)
  }

  /** `c.Query("userType", "guest")`: an absent or empty parameter reads as `"guest"`. */
  function ShareUserType(query: string): (userType: string)
    ensures userType != ""
    ensures query != "" ==> userType == query
  {
    if query == "" then "guest" else query
  }

  /** The table after one `UpdateLatLng` per point, in order. */
  function ApplyPoints(t: seq<LinkRepo.LinkConnect>, linkId: string, points: seq<LatLngPoint>): seq<LinkRepo.LinkConnect>
    decreases |points|
  {
    if points == [] then t
    else ApplyPoints(LinkRepo.WithLatLng(t, linkId, points[0].latitude, points[0].longitude), linkId, points[1..])
  }

  /** A later position of the same link overwrites an earlier one. */
  lemma LatLngOverwrites(t: seq<LinkRepo.LinkConnect>, linkId: string, a: LatLngPoint, b: LatLngPoint)
    ensures LinkRepo.WithLatLng(LinkRepo.WithLatLng(t, linkId, a.latitude, a.longitude), linkId, b.latitude, b.longitude)
         == LinkRepo.WithLatLng(t, linkId, b.latitude, b.longitude)
  {
  }

  /** Writing only the last point leaves the table as writing every point in order would. */
  lemma {:induction false} LastPointSuffices(t: seq<LinkRepo.LinkConnect>, linkId: string, points: seq<LatLngPoint>)
    requires points != []
    ensures ApplyPoints(t, linkId, points)
         == LinkRepo.WithLatLng(t, linkId, points[|points| - 1].latitude, points[|points| - 1].longitude)
    decreases |points|
  {
    if |points| > 1 {
      var t' := LinkRepo.WithLatLng(t, linkId, points[0].latitude, points[0].longitude);
      LastPointSuffices(t', linkId, points[1..]);
      LatLngOverwrites(t, linkId, points[0], points[|points| - 1]);
    }
  }

  class LinkHandler {
    const linkService: LinkService.LinkService

    constructor (linkService: LinkService.LinkService)
      ensures this.linkService == linkService
    {
      this.linkService := linkService;
    }

    /** `MultiLatLng`: only the last point is written; with no points nothing is written and
        the reply still reports success with a count of 0. */
    method MultiLatLng(body: Option<MultiRequest>, db: Outcome) returns (r: Reply)
      requires linkService.linkRepo.Valid()
      modifies linkService.linkRepo`rows
      ensures linkService.linkRepo.Valid()
      ensures body.None? ==> r == BadRequest("Invalid request body") && linkService.linkRepo.rows == old(linkService.linkRepo.rows)
      ensures body.Some? && body.value.points == [] ==>
        r == OkReply(Updated(Some(0))) && linkService.linkRepo.rows == old(linkService.linkRepo.rows)
      ensures body.Some? && body.value.points != [] ==>
        var last := body.value.points[|body.value.points| - 1];
        && linkService.linkRepo.rows
           == (if db.Success? then LinkRepo.WithLatLng(old(linkService.linkRepo.rows), body.value.linkId, last.latitude, last.longitude)
               else old(linkService.linkRepo.rows))
        && r == (if db.Success? then OkReply(Updated(Some(|body.value.points|)))
                 else Failed(Wrap("update lat/lng", db).value))
    {
      if body.None? {
        return BadRequest("Invalid request body");
      }
      var req := body.value;
      if |req.points| > 0 {
        var last := req.points[|req.points| - 1];
        var err := linkService.linkRepo.UpdateLatLng(req.linkId, last.latitude, last.longitude, last.accuracy, db);
        if err.Some? {
          return Failed(err.value);
        }
      }
      r := OkReply(Updated(Some(|req.points|)));
    }

    /** `GetShareURL`: an empty room is refused before the repository is asked; otherwise the
        room's shared link of the requested user type, `guest` by default. */
    method GetShareURL(room: string, userTypeQuery: string, db: Outcome) returns (r: Reply, ghost asked: Option<string>)
      ensures room == "" ==> r == BadRequest("Room required") && asked.None?
      ensures room != "" ==> asked == Some(ShareUserType(userTypeQuery))
      ensures room != "" && db.Failure? ==> r == Failed(Wrap("get share URL", db).value)
      ensures room != "" && db.Success? ==>
        var found := Tables.FirstWhere(linkService.linkRepo.rows, LinkRepo.SharedIn(room, ShareUserType(userTypeQuery)));
        r == (if found.Some? && found.value.linkId.None?
              then Failed(Wrap("get share URL", NullScan(0, "linkID", "string")).value)
              else OkReply(ShareUrl(if found.Some? then found.value.linkId.value else "")))
    {
      if room == "" {
        return BadRequest("Room required"), None;
      }
      var userType := ShareUserType(userTypeQuery);
      asked := Some(userType);
      var url, err := linkService.linkRepo.GetShareURL(room, userType, db);
      if err.Some? {
        return Failed(err.value), asked;
      }
      r := OkReply(ShareUrl(url));
    }

    /** `CreateHLSLink`: a link of type `"hls"` is created for the request's room, whatever
        user type the request names. */
    method CreateHLSLink(body: Option<HlsRequest>, now: string, addDays: int -> string, createDb: Outcome, lookupDb: Outcome)
      returns (r: Reply)
      requires linkService.linkRepo.Valid()
      modifies linkService.linkRepo, linkService.rng`used
      ensures linkService.linkRepo.Valid()
      ensures body.None? ==> r == BadRequest("Invalid request body") && linkService.linkRepo.rows == old(linkService.linkRepo.rows)
      ensures body.Some? && createDb.Failure? ==>
        r == Failed(Wrap("create link", createDb).value) && linkService.linkRepo.rows == old(linkService.linkRepo.rows)
      ensures body.Some? && createDb.Success? ==>
        && |linkService.linkRepo.rows| == |old(linkService.linkRepo.rows)| + 1
        && linkService.linkRepo.rows[|linkService.linkRepo.rows| - 1].linkType == Some("hls")
        && linkService.linkRepo.rows[|linkService.linkRepo.rows| - 1].room == Some(body.value.room)
        && (r.status == "OK" <==> lookupDb.Success?)
    {
      if body.None? {
        return BadRequest("Invalid request body");
      }
      var link, err := linkService.CreateLink(HlsLinkOptions(body.value), now, addDays, createDb, lookupDb);
      if err.Some? {
        return Failed(err.value);
      }
      r := OkReply(Link(link));
    }
  }
}
