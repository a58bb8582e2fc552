/** Statistics over the room, user, link, record and case tables
    (internal/repository/stats_repository.go). The repository owns no table: each read takes the
    tables it queries. `GROUP BY` results are listed in order of first appearance; the
    `ORDER BY count DESC` that follows is the database's. */
module StatsRepo {
  import opened Wrappers
  import opened Text
  import opened Tables
  import opened Sql
  import RoomRepo
  import UserRepo
  import LinkRepo
  import RecordRepo

  /** The scan error of the room counts: the first NULL sum is `openRooms`, column 1. */
  const RoomScanError := NullScan(1, "openRooms", "int").message
  /** The scan error of the user counts: the NULL sum is `activeUsers`, column 1. */
  const UserScanError := NullScan(1, "activeUsers", "int").message

  /** A `case_data` row, as far as the statistics read it. */
  datatype CaseData = CaseData(id: nat, service: Option<int>, status: string)

  // ---------------------------------------------------------------- summary

  datatype RoomCount = RoomCount(total: nat, open: nat, closed: nat)
  datatype UserCount = UserCount(total: nat, active: nat)

  datatype StatsSummary = StatsSummary(
    totalRooms: int,
    openRooms: int,
    closedRooms: int,
    totalUsers: int,
    activeUsers: int,
    totalLinks: int,
    totalRecords: int,
    totalCases: int)

  /** `WHERE service = <n>`, appended only for a positive service. */
  function RoomOfService(service: int): RoomRepo.RoomConference -> bool {
    (r: RoomRepo.RoomConference) => service <= 0 || r.service == Some(service)
  }

  function CaseOfService(service: int): CaseData -> bool {
    (c: CaseData) => service <= 0 || c.service == Some(service)
  }

  function RoomIs(status: string): RoomRepo.RoomConference -> bool {
    (r: RoomRepo.RoomConference) => r.status == Some(status)
  }

  function UserIs(status: string): UserRepo.RoomUser -> bool {
    (u: UserRepo.RoomUser) => u.status == Some(status)
  }

  /** SQL `SUM(CASE WHEN p THEN 1 ELSE 0 END)`: NULL over no rows. */
  function SumOf<R>(t: seq<R>, p: R -> bool): (s: Option<nat>)
    ensures s.None? <==> t == []
    ensures s.Some? ==> s.value == CountWhere(t, p)
  {
    if t == [] then None else Some(CountWhere(t, p))
  }

  /** Rows of the same table with two different statuses are counted apart, so together they
      are no more than the table. */
  lemma {:induction false} TwoStatusesBounded<R>(t: seq<R>, p: R -> bool, q: R -> bool)
    requires forall x :: !(p(x) && q(x))
    ensures CountWhere(t, p) + CountWhere(t, q) <= |t|
  {
    if t != [] {
      TwoStatusesBounded(t[..|t| - 1], p, q);
    }
  }

  /** The room query as written: scanning the NULL sums of an empty selection fails. */
  function RoomCounts(rooms: seq<RoomRepo.RoomConference>, service: int): (r: Result<RoomCount>)
    ensures r.Err? <==> Filter(rooms, RoomOfService(service)) == []
    ensures r.Err? ==> r.error == RoomScanError
  {
    var f := Filter(rooms, RoomOfService(service));
    match (SumOf(f, RoomIs("open")), SumOf(f, RoomIs("close")))
    case (Some(o), Some(c)) => Ok(RoomCount(|f|, o, c))
    case _ => Err(RoomScanError)
  }

  /** The room query with its sums read as 0 over no rows: it always succeeds, and the open
      and closed rooms of the service are part of its rooms. */
  function RoomCountsCoalesced(rooms: seq<RoomRepo.RoomConference>, service: int): (r: RoomCount)
    ensures r.total == CountWhere(rooms, RoomOfService(service))
    ensures r.open + r.closed <= r.total
  {
    var f := Filter(rooms, RoomOfService(service));
    FilterIsSelection(rooms, RoomOfService(service));
    TwoStatusesBounded(f, RoomIs("open"), RoomIs("close"));
    RoomCount(|f|, CountWhere(f, RoomIs("open")), CountWhere(f, RoomIs("close")))
  }

  /** Where the written query succeeds it agrees with the corrected one. */
  lemma RoomCountsAgree(rooms: seq<RoomRepo.RoomConference>, service: int)
    requires Filter(rooms, RoomOfService(service)) != []
    ensures RoomCounts(rooms, service) == Ok(RoomCountsCoalesced(rooms, service))
  {
  }

  /** A service without rooms: every statement succeeds, yet the summary is an error. */
  lemma {:induction false} SummaryOfServiceWithoutRooms(rooms: seq<RoomRepo.RoomConference>, service: int)
    requires service > 0 && forall i :: 0 <= i < |rooms| ==> rooms[i].service != Some(service)
    ensures RoomCounts(rooms, service) == Err(RoomScanError)
    ensures RoomCountsCoalesced(rooms, service) == RoomCount(0, 0, 0)
  {
    FilterIsSelection(rooms, RoomOfService(service));
    CountZeroIffNone(rooms, RoomOfService(service));
  }

  /** The user query as written: `SUM` over an empty `room_user` is NULL and fails the scan. */
  function UserCounts(users: seq<UserRepo.RoomUser>): (r: Result<UserCount>)
    ensures r.Err? <==> users == []
    ensures r.Err? ==> r.error == UserScanError
  {
    match SumOf(users, UserIs("connection"))
    case Some(a) => Ok(UserCount(|users|, a))
    case None => Err(UserScanError)
  }

  function UserCountsCoalesced(users: seq<UserRepo.RoomUser>): (r: UserCount)
    ensures r.total == |users| && r.active <= r.total
    ensures r.active == CountWhere(users, UserIs("connection"))
  {
    CountBounded(users, UserIs("connection"));
    UserCount(|users|, CountWhere(users, UserIs("connection")))
  }

  /** `GetSummary` as written. The five reads run in order and the first failure is returned;
      the room and case counts are restricted to a positive service, the others never are. */
  method GetSummary(service: int, rooms: seq<RoomRepo.RoomConference>, users: seq<UserRepo.RoomUser>,
                    links: seq<LinkRepo.LinkConnect>, records: seq<RecordRepo.RecordMedia>, cases: seq<CaseData>,
                    roomDb: Outcome, userDb: Outcome, linkDb: Outcome, recordDb: Outcome, caseDb: Outcome)
    returns (summary: Option<StatsSummary>, err: Error)
    ensures summary.Some? <==> err.None?
    ensures roomDb.Failure? ==> err == Wrap("get room stats", roomDb)
    ensures roomDb.Success? && RoomCounts(rooms, service).Err? ==> err == Wrap("get room stats", Failure(RoomScanError))
    ensures roomDb.Success? && RoomCounts(rooms, service).Ok? && userDb.Success? && users == [] ==>
      err == Wrap("get user stats", Failure(UserScanError))
    ensures summary.Some? ==>
      var rc := RoomCountsCoalesced(rooms, service);
      var uc := UserCountsCoalesced(users);
      summary.value == StatsSummary(rc.total, rc.open, rc.closed, uc.total, uc.active, |links|, |records|,
                                    CountWhere(cases, CaseOfService(service)))
    ensures summary.Some? <==>
      && roomDb.Success? && userDb.Success? && linkDb.Success? && recordDb.Success? && caseDb.Success?
      && Filter(rooms, RoomOfService(service)) != [] && users != []
  {
    if roomDb.Failure? {
      return None, Wrap("get room stats", roomDb);
    }
    var rc := RoomCounts(rooms, service);
    if rc.Err? {
      return None, Wrap("get room stats", Failure(rc.error));
    }
    RoomCountsAgree(rooms, service);
    if userDb.Failure? {
      return None, Wrap("get user stats", userDb);
    }
    var uc := UserCounts(users);
    if uc.Err? {
      return None, Wrap("get user stats", Failure(uc.error));
    }
    if linkDb.Failure? {
      return None, Wrap("get link stats", linkDb);
    }
    if recordDb.Failure? {
      return None, Wrap("get record stats", recordDb);
    }
    if caseDb.Failure? {
      return None, Wrap("get case stats", caseDb);
    }
    FilterIsSelection(cases, CaseOfService(service));
    summary := Some(StatsSummary(rc.value.total, rc.value.open, rc.value.closed, uc.value.total, uc.value.active,
                                 |links|, |records|, CountWhere(cases, CaseOfService(service))));
    err := None;
  }

  /** `GetSummary` with its sums read as 0 over no rows: it fails only when a read fails, and
      its open and closed rooms and active users are within their totals. */
  method GetSummaryCorrected(service: int, rooms: seq<RoomRepo.RoomConference>, users: seq<UserRepo.RoomUser>,
                             links: seq<LinkRepo.LinkConnect>, records: seq<RecordRepo.RecordMedia>, cases: seq<CaseData>,
                             roomDb: Outcome, userDb: Outcome, linkDb: Outcome, recordDb: Outcome, caseDb: Outcome)
    returns (summary: Option<StatsSummary>, err: Error)
    ensures summary.Some? <==> err.None?
    ensures summary.Some? <==> roomDb.Success? && userDb.Success? && linkDb.Success? && recordDb.Success? && caseDb.Success?
    ensures summary.Some? ==>
      && summary.value.totalRooms == CountWhere(rooms, RoomOfService(service))
      && summary.value.openRooms + summary.value.closedRooms <= summary.value.totalRooms
      && summary.value.totalUsers == |users| && summary.value.activeUsers <= summary.value.totalUsers
      && summary.value.totalLinks == |links| && summary.value.totalRecords == |records|
      && summary.value.totalCases == CountWhere(cases, CaseOfService(service))
  {
    if roomDb.Failure? {
      return None, Wrap("get room stats", roomDb);
    }
    var rc := RoomCountsCoalesced(rooms, service);
    if userDb.Failure? {
      return None, Wrap("get user stats", userDb);
    }
    var uc := UserCountsCoalesced(users);
    if linkDb.Failure? {
      return None, Wrap("get link stats", linkDb);
    }
    if recordDb.Failure? {
      return None, Wrap("get record stats", recordDb);
    }
    if caseDb.Failure? {
      return None, Wrap("get case stats", caseDb);
    }
    summary := Some(StatsSummary(rc.total, rc.open, rc.closed, uc.total, uc.active,
                                 |links|, |records|, CountWhere(cases, CaseOfService(service))));
    err := None;
  }

  // ---------------------------------------------------------------- devices

  datatype Device = IOS | Android | Windows | Mac | Linux | Other

  function DeviceName(d: Device): string {
    match d
    case IOS => "iOS"
    case Android => "Android"
    case Windows => "Windows"
    case Mac => "Mac"
    case Linux => "Linux"
    case Other => "Other"
  }

  /** `ua LIKE '%sub%'` under MySQL's default case-insensitive collation; NULL never matches. */
  predicate Like(ua: Option<string>, sub: string) {
    ua.Some? && Contains(ToLower(ua.value), ToLower(sub))
  }

  /** The `CASE` of `GetDeviceStats`: the first matching branch wins. */
  function Classify(ua: Option<string>): (d: Device)
    ensures d == IOS <==> Like(ua, "iPhone") || Like(ua, "iPad")
    ensures d == Android <==> !(Like(ua, "iPhone") || Like(ua, "iPad")) && Like(ua, "Android")
    ensures d == Windows <==> !(Like(ua, "iPhone") || Like(ua, "iPad")) && !Like(ua, "Android") && Like(ua, "Windows")
    ensures d == Mac <==>
      !(Like(ua, "iPhone") || Like(ua, "iPad")) && !Like(ua, "Android") && !Like(ua, "Windows") && Like(ua, "Mac")
    ensures d == Linux <==>
      !(Like(ua, "iPhone") || Like(ua, "iPad")) && !Like(ua, "Android") && !Like(ua, "Windows") && !Like(ua, "Mac")
      && Like(ua, "Linux")
    ensures ua.None? ==> d == Other
  {
    if Like(ua, "iPhone") || Like(ua, "iPad") then IOS
    else if Like(ua, "Android") then Android
    else if Like(ua, "Windows") then Windows
    else if Like(ua, "Mac") then Mac
    else if Like(ua, "Linux") then Linux
    else Other
  }

  const AllDevices: seq<Device> := [IOS, Android, Windows, Mac, Linux, Other]

  function IsDevice(d: Device): LinkRepo.LinkConnect -> bool {
    (l: LinkRepo.LinkConnect) => Classify(l.userAgent) == d
  }

  function DeviceTotal(links: seq<LinkRepo.LinkConnect>, ds: seq<Device>): nat {
    if ds == [] then 0 else CountWhere(links, IsDevice(ds[0])) + DeviceTotal(links, ds[1..])
  }

  /** Every link lands in exactly one category, so the six counts add up to the table. */
  lemma DeviceTotalIsSum(links: seq<LinkRepo.LinkConnect>)
    ensures DeviceTotal(links, AllDevices) ==
      CountWhere(links, IsDevice(IOS)) + CountWhere(links, IsDevice(Android)) + CountWhere(links, IsDevice(Windows))
      + CountWhere(links, IsDevice(Mac)) + CountWhere(links, IsDevice(Linux)) + CountWhere(links, IsDevice(Other))
  {
    var ds := AllDevices;
    assert ds[5..][1..] == [];
    assert DeviceTotal(links, ds[5..]) == CountWhere(links, IsDevice(Other));
    assert ds[4..][1..] == ds[5..];
    assert DeviceTotal(links, ds[4..]) == CountWhere(links, IsDevice(Linux)) + DeviceTotal(links, ds[5..]);
    assert ds[3..][1..] == ds[4..];
    assert DeviceTotal(links, ds[3..]) == CountWhere(links, IsDevice(Mac)) + DeviceTotal(links, ds[4..]);
    assert ds[2..][1..] == ds[3..];
    assert DeviceTotal(links, ds[2..]) == CountWhere(links, IsDevice(Windows)) + DeviceTotal(links, ds[3..]);
    assert ds[1..][1..] == ds[2..];
    assert DeviceTotal(links, ds[1..]) == CountWhere(links, IsDevice(Android)) + DeviceTotal(links, ds[2..]);
  }

  /** Every link lands in exactly one category, so the six counts add up to the table. */
  lemma {:induction false} DeviceCountsCoverLinks(links: seq<LinkRepo.LinkConnect>)
    ensures DeviceTotal(links, AllDevices) == |links|
  {
    DeviceTotalIsSum(links);
    if links != [] {
      var t := links[..|links| - 1];
      DeviceCountsCoverLinks(t);
      DeviceTotalIsSum(t);
    }
  }

  datatype DeviceStats = DeviceStats(device: string, count: nat)

  /** One entry per category that occurs, with its count. */
  function DeviceGroups(links: seq<LinkRepo.LinkConnect>, ds: seq<Device>): (g: seq<DeviceStats>)
    ensures forall i :: 0 <= i < |g| ==> g[i].count > 0
    ensures forall d :: d in ds && CountWhere(links, IsDevice(d)) > 0 ==> DeviceStats(DeviceName(d), CountWhere(links, IsDevice(d))) in g
    ensures forall s :: s in g ==> exists d :: d in ds && s == DeviceStats(DeviceName(d), CountWhere(links, IsDevice(d)))
  {
    if ds == [] then []
    else
      var n := CountWhere(links, IsDevice(ds[0]));
      (if n > 0 then [DeviceStats(DeviceName(ds[0]), n)] else []) + DeviceGroups(links, ds[1..])
  }

  /** The device breakdown of every link; the service argument is not used. */
  method GetDeviceStats(links: seq<LinkRepo.LinkConnect>, service: int, db: Outcome)
    returns (stats: seq<DeviceStats>, err: Error)
    ensures err == Wrap("get device stats", db)
    ensures stats == if db.Success? then DeviceGroups(links, AllDevices) else []
  {
    err := Wrap("get device stats", db);
    stats := if db.Success? then DeviceGroups(links, AllDevices) else [];
  }

  // ---------------------------------------------------------------- types and cases

  datatype TypeStats = TypeStats(key: string, count: nat)

  /** The distinct values, each at its first appearance. */
  function Distinct(s: seq<string>): (d: seq<string>)
    ensures forall x :: x in d <==> x in s
    ensures forall i, j :: 0 <= i < j < |d| ==> d[i] != d[j]
  {
    if s == [] then []
    else
      var rest := Distinct(s[..|s| - 1]);
      if s[|s| - 1] in rest then rest else rest + [s[|s| - 1]]
  }

  function Occurrences(s: seq<string>, x: string): nat {
    if s == [] then 0 else Occurrences(s[..|s| - 1], x) + (if s[|s| - 1] == x then 1 else 0)
  }

  /** `GROUP BY key` with `COUNT(*)`: one entry per distinct key, with how often it occurs. */
  function GroupCounts(keys: seq<string>): (g: seq<TypeStats>)
    ensures forall i :: 0 <= i < |g| ==> g[i].key in keys
    ensures forall x :: x in keys ==> exists i :: 0 <= i < |g| && g[i].key == x
    ensures forall i :: 0 <= i < |g| ==> g[i].count == Occurrences(keys, g[i].key)
    ensures forall i, j :: 0 <= i < j < |g| ==> g[i].key != g[j].key
  {
    var d := Distinct(keys);
    var g := seq(|d|, i requires 0 <= i < |d| => TypeStats(d[i], Occurrences(keys, d[i])));
    assert forall x :: x in keys ==> exists i :: 0 <= i < |g| && g[i].key == x by {
      forall x | x in keys
        ensures exists i :: 0 <= i < |g| && g[i].key == x
      {
        var i :| 0 <= i < |d| && d[i] == x;
        assert g[i].key == x;
      }
    }
    g
  }

  /** The non-NULL, non-empty values, in table order. */
  function Present(s: seq<Option<string>>): (r: seq<string>)
    ensures forall x :: x in r <==> x != "" && Some(x) in s
  {
    if s == [] then []
    else
      var last := s[|s| - 1];
      Present(s[..|s| - 1]) + (if last.Some? && last.value != "" then [last.value] else [])
  }

  function LinkTypes(links: seq<LinkRepo.LinkConnect>): seq<Option<string>> {
    seq(|links|, i requires 0 <= i < |links| => links[i].linkType)
  }

  function UserTypes(users: seq<UserRepo.RoomUser>): seq<Option<string>> {
    seq(|users|, i requires 0 <= i < |users| => users[i].userType)
  }

  /** Link counts per link type, leaving out NULL and empty types; the service is not used. */
  method GetTypeStats(links: seq<LinkRepo.LinkConnect>, service: int, db: Outcome) returns (stats: seq<TypeStats>, err: Error)
    ensures err == Wrap("get type stats", db)
    ensures stats == if db.Success? then GroupCounts(Present(LinkTypes(links))) else []
    ensures forall i :: 0 <= i < |stats| ==> stats[i].key != ""
  {
    err := Wrap("get type stats", db);
    stats := if db.Success? then GroupCounts(Present(LinkTypes(links))) else [];
  }

  /** User counts per user type, leaving out NULL and empty types; the service is not used. */
  method GetUserStats(users: seq<UserRepo.RoomUser>, service: int, db: Outcome) returns (stats: seq<TypeStats>, err: Error)
    ensures err == Wrap("get user stats", db)
    ensures stats == if db.Success? then GroupCounts(Present(UserTypes(users))) else []
    ensures forall i :: 0 <= i < |stats| ==> stats[i].key != ""
  {
    err := Wrap("get user stats", db);
    stats := if db.Success? then GroupCounts(Present(UserTypes(users))) else [];
  }

  function CaseStatuses(cases: seq<CaseData>): seq<string> {
    seq(|cases|, i requires 0 <= i < |cases| => cases[i].status)
  }

  /** Case counts per status, over the service's cases when the service is positive. */
  method GetCaseStats(cases: seq<CaseData>, service: int, db: Outcome) returns (stats: seq<TypeStats>, err: Error)
    ensures err == Wrap("get case stats", db)
    ensures stats == if db.Success? then GroupCounts(CaseStatuses(Filter(cases, CaseOfService(service)))) else []
  {
    err := Wrap("get case stats", db);
    stats := if db.Success? then GroupCounts(CaseStatuses(Filter(cases, CaseOfService(service)))) else [];
  }

  // ---------------------------------------------------------------- date ranges

  /** `GetDailyStats`'s statement: the service clause and argument come together, only for a
      positive service. */
  method DailyStatsStatement(startDate: string, endDate: string, service: int) returns (st: Statement)
    ensures Bound(st)
    ensures st.args == [Str(startDate), Str(endDate)] + (if service > 0 then [Int(service)] else [])
  {
    var query: Query := [Text("SELECT DATE(dtmCreated) as date, COUNT(*) as count FROM room_conference WHERE dtmCreated BETWEEN "), Hole];
    HolesAppend(query, [Text(" AND "), Hole]);
    query := query + [Text(" AND "), Hole];
    var args: seq<Arg> := [Str(startDate), Str(endDate)];
    if service > 0 {
      HolesAppend(query, [Text(" AND service = "), Hole]);
      query := query + [Text(" AND service = "), Hole];
      args := args + [Int(service)];
    }
    HolesAppend(query, [Text(" GROUP BY DATE(dtmCreated) ORDER BY date")]);
    query := query + [Text(" GROUP BY DATE(dtmCreated) ORDER BY date")];
    st := Statement(query, args);
  }

  /** `GetMonthlyStats`'s statement, built the same way around the year. */
  method MonthlyStatsStatement(year: int, service: int) returns (st: Statement)
    ensures Bound(st)
    ensures st.args == [Int(year)] + (if service > 0 then [Int(service)] else [])
  {
    var query: Query := [Text("SELECT MONTH(dtmCreated) as month, COUNT(*) as count FROM room_conference WHERE YEAR(dtmCreated) = "), Hole];
    var args: seq<Arg> := [Int(year)];
    if service > 0 {
      HolesAppend(query, [Text(" AND service = "), Hole]);
      query := query + [Text(" AND service = "), Hole];
      args := args + [Int(service)];
    }
    HolesAppend(query, [Text(" GROUP BY MONTH(dtmCreated) ORDER BY month")]);
    query := query + [Text(" GROUP BY MONTH(dtmCreated) ORDER BY month")];
    st := Statement(query, args);
  }
}
