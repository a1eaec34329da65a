/**
 The credential decoration `_auth_params` and the operations of `ClouDNSAPI`
 whose parameter set is a dictionary literal. Each such operation is a
 constructor of `Operation` carrying the operation's arguments (with the
 Python defaults), and `Perform` is the Python method: build the dictionary,
 then call `make_request` with the operation's endpoint and HTTP method.
 */
module Operations {
  import opened Wire
  import opened Dispatch

  /** A client instance: the credentials fixed by `ClouDNSAPI.__init__`. */
  datatype Client = Client(authId: Value, authPassword: Value)

  /** The dictionary holding only the credentials. */
  function Credentials(c: Client): map<string, Value> {
    map["auth-id" := c.authId, "auth-password" := c.authPassword]
  }

  /** The credentials are in `p` under their wire names. */
  predicate CarriesCredentials(c: Client, p: map<string, Value>) {
    && "auth-id" in p && p["auth-id"] == c.authId
    && "auth-password" in p && p["auth-password"] == c.authPassword
  }

  /** `_auth_params(additional_params)`: the credentials, updated with the
      extra parameters when these are given and non-empty. The update of a
      freshly built local dictionary is the map union `params + extra`: the
      extra value wins on a clash. */
  function AuthParams(c: Client, extra: Option<map<string, Value>>): (p: map<string, Value>)
    ensures extra.None? || extra.value == map[] ==> p == Credentials(c)
    ensures extra.Some? ==> p.Keys == {"auth-id", "auth-password"} + extra.value.Keys
    ensures extra.Some? ==> forall k :: k in extra.value ==> p[k] == extra.value[k]
    ensures extra.Some? && "auth-id" !in extra.value ==> p["auth-id"] == c.authId
    ensures extra.Some? && "auth-password" !in extra.value ==> p["auth-password"] == c.authPassword
  {
    var params := Credentials(c);
    if extra.Some? && |extra.value| > 0 then params + extra.value else params
  }

  /** One constructor per dictionary-literal operation of the client. */
  datatype Operation =
    | Login
    | GetCurrentIp
    | GetAccountBalance
    | GetAvailableNameServers(detailedInfo: Value := VInt(0))
    | DeleteDomainZone(domainName: Value)
    | ListZones(page: Value := VInt(1), rowsPerPage: Value := VInt(20), search: Value := VNone,
                groupId: Value := VNone, hasCloudDomains: Value := VNone)
    | GetPagesCount(rowsPerPage: Value := VInt(10), search: Value := VNone, groupId: Value := VNone,
                    hasCloudDomains: Value := VNone)
    | GetZonesStats
    | GetZoneInfo(domainName: Value)
    | UpdateZone(domainName: Value)
    | GetUpdateStatus(domainName: Value)
    | IsUpdated(domainName: Value)
    | ChangeZoneStatus(domainName: Value, status: Value := VNone)
    | GetRecordsStats
    | GetRecord(domainName: Value, recordId: Value)
    | ListRecords(domainName: Value, host: Value := VNone, hostLike: Value := VNone,
                  recordType: Value := VNone, rowsPerPage: Value := VInt(20), page: Value := VInt(1),
                  orderBy: Value := VNone)
    | GetRecordsPagesCount(domainName: Value, host: Value := VNone, recordType: Value := VNone,
                           rowsPerPage: Value := VInt(20))
    | DeleteRecord(domainName: Value, recordId: Value)
    | CopyRecords(domainName: Value, fromDomain: Value, deleteCurrentRecords: Value := VBool(false))

  function Endpoint(op: Operation): string {
    match op
    case Login => "login/login.json"
    case GetCurrentIp => "ip/get-my-ip.json"
    case GetAccountBalance => "account/get-balance.json"
    case GetAvailableNameServers(_) => "dns/available-name-servers.json"
    case DeleteDomainZone(_) => "dns/delete.json"
    case ListZones(_, _, _, _, _) => "dns/list-zones.json"
    case GetPagesCount(_, _, _, _) => "dns/get-pages-count.json"
    case GetZonesStats => "dns/get-zones-stats.json"
    case GetZoneInfo(_) => "dns/get-zone-info.json"
    case UpdateZone(_) => "dns/update-zone.json"
    case GetUpdateStatus(_) => "dns/update-status.json"
    case IsUpdated(_) => "dns/is-updated.json"
    case ChangeZoneStatus(_, _) => "dns/change-status.json"
    case GetRecordsStats => "dns/get-records-stats.json"
    case GetRecord(_, _) => "dns/get-record.json"
    case ListRecords(_, _, _, _, _, _, _) => "dns/records.json"
    case GetRecordsPagesCount(_, _, _, _) => "dns/get-records-pages-count.json"
    case DeleteRecord(_, _) => "dns/delete-record.json"
    case CopyRecords(_, _, _) => "dns/copy-records.json"
  }

  /** The operations the client issues as POST; every other one is a GET. */
  predicate IsPost(op: Operation) {
    op.Login? || op.DeleteDomainZone? || op.UpdateZone? || op.ChangeZoneStatus? || op.DeleteRecord?
    || op.CopyRecords?
  }

  function HttpMethod(op: Operation): string {
    if IsPost(op) then "POST" else "GET"
  }

  /** The one operation that hands its dictionary to `make_request` as
      `data=`; all others pass it as `params=`. */
  predicate PassesData(op: Operation) {
    op.Login?
  }

  /** The domain name argument of an operation that takes one. */
  function DomainName(op: Operation): Option<Value> {
    if op.DeleteDomainZone? || op.GetZoneInfo? || op.UpdateZone? || op.GetUpdateStatus?
       || op.IsUpdated? || op.ChangeZoneStatus? || op.GetRecord? || op.ListRecords?
       || op.GetRecordsPagesCount? || op.DeleteRecord? || op.CopyRecords?
    then Some(op.domainName)
    else None
  }

  /** The extra dictionary an operation hands to `_auth_params`, `None` for
      the operations that call it without arguments. */
  function Extra(op: Operation): (r: Option<map<string, Value>>)
    requires !op.Login? && !op.DeleteDomainZone?
    ensures r.Some? ==> "auth-id" !in r.value && "auth-password" !in r.value
    ensures DomainName(op).Some? ==> r.Some? && "domain-name" in r.value && r.value["domain-name"] == DomainName(op).value
  {
    match op
    case GetCurrentIp => None
    case GetAccountBalance => None
    case GetAvailableNameServers(detailedInfo) => Some(map["detailed-info" := detailedInfo])
    case ListZones(page, rowsPerPage, search, groupId, hasCloudDomains) =>
      Some(map["page" := page, "rows-per-page" := rowsPerPage, "search" := search,
               "group-id" := groupId, "has-cloud-domains" := hasCloudDomains])
    case GetPagesCount(rowsPerPage, search, groupId, hasCloudDomains) =>
      Some(map["rows-per-page" := rowsPerPage, "search" := search, "group-id" := groupId,
               "has-cloud-domains" := hasCloudDomains])
    case GetZonesStats => None
    case GetZoneInfo(domainName) => Some(map["domain-name" := domainName])
    case UpdateZone(domainName) => Some(map["domain-name" := domainName])
    case GetUpdateStatus(domainName) => Some(map["domain-name" := domainName])
    case IsUpdated(domainName) => Some(map["domain-name" := domainName])
    case ChangeZoneStatus(domainName, status) => Some(map["domain-name" := domainName, "status" := status])
    case GetRecordsStats => None
    case GetRecord(domainName, recordId) => Some(map["domain-name" := domainName, "record-id" := recordId])
    case ListRecords(domainName, host, hostLike, recordType, rowsPerPage, page, orderBy) =>
      Some(map["domain-name" := domainName, "host" := host, "host-like" := hostLike,
               "type" := recordType, "rows-per-page" := rowsPerPage, "page" := page,
               "order-by" := orderBy])
    case GetRecordsPagesCount(domainName, host, recordType, rowsPerPage) =>
      Some(map["domain-name" := domainName, "host" := host, "type" := recordType,
               "rows-per-page" := rowsPerPage])
    case DeleteRecord(domainName, recordId) => Some(map["domain-name" := domainName, "record-id" := recordId])
    case CopyRecords(domainName, fromDomain, deleteCurrentRecords) =>
      Some(map["domain-name" := domainName, "from-domain" := fromDomain,
               "delete-current-records" := FlagValue(deleteCurrentRecords)])
  }

  /** The dictionary an operation builds before calling `make_request`. */
  function BuildParams(c: Client, op: Operation): (p: map<string, Value>)
    ensures CarriesCredentials(c, p)
    ensures DomainName(op).Some? ==> "domain-name" in p && p["domain-name"] == DomainName(op).value
    ensures |p| > 0
  {
    match op
    case Login => map["auth-id" := c.authId, "auth-password" := c.authPassword]
    case DeleteDomainZone(domainName) =>
      map["auth-id" := c.authId, "auth-password" := c.authPassword, "domain-name" := domainName]
    case _ => AuthParams(c, Extra(op))
  }

  /** The Python method of the client for `op`: one request to its URL; a
      GET carries the whole dictionary as its query, `login` carries it as
      its body, and every other POST (which passes only `params=`) sends an
      empty body. */
  function Perform(c: Client, op: Operation, transport: Transport): (r: Exchange)
    ensures |r.sent| == 1
    ensures |r.sent| == 1 && r.sent[0].url == Url(Endpoint(op))
    ensures |r.sent| == 1 && r.outcome == Conclude(transport(r.sent[0]))
    ensures !IsPost(op) ==> r.sent == [Get(Url(Endpoint(op)), Dict(BuildParams(c, op)))]
    ensures op.Login? ==> r.sent == [Post(Url(Endpoint(op)), Dict(BuildParams(c, op)))]
    ensures IsPost(op) && !op.Login? ==> r.sent == [Post(Url(Endpoint(op)), Dict(map[]))]
  {
    var p := Dict(BuildParams(c, op));
    assert ParamsTruthy(p);
    if PassesData(op) then MakeRequest(Endpoint(op), HttpMethod(op), None, Some(p), transport)
    else MakeRequest(Endpoint(op), HttpMethod(op), Some(p), None, transport)
  }

  /** The credentials and the domain name reach the wire exactly for the
      GET operations and `login`. */
  lemma CredentialsOnWire(c: Client, op: Operation, transport: Transport)
    ensures var req := Perform(c, op, transport).sent[0];
            var payload := if req.Get? then req.query.entries else req.body.entries;
            && (CarriesCredentials(c, payload) <==> !IsPost(op) || op.Login?)
            && (DomainName(op).Some? && !IsPost(op) ==> payload["domain-name"] == DomainName(op).value)
            && (IsPost(op) && !op.Login? ==> payload == map[])
  {
  }

  /** Arguments left at `None` are sent as `None`-valued keys: the
      dictionary always holds every key the operation names. */
  lemma UnsetArgumentsKept(c: Client, op: Operation)
    requires !op.Login? && !op.DeleteDomainZone? && Extra(op).Some?
    ensures forall k :: k in Extra(op).value ==> k in BuildParams(c, op) && BuildParams(c, op)[k] == Extra(op).value[k]
    ensures BuildParams(c, op).Keys == {"auth-id", "auth-password"} + Extra(op).value.Keys
  {
  }

  /** `copy_records` sends its flag as 1 or 0, 1 exactly when the argument is
      truthy, beside both domain names unchanged. */
  lemma CopyRecordsFlag(c: Client, domainName: Value, fromDomain: Value, deleteCurrentRecords: Value)
    ensures var p := BuildParams(c, CopyRecords(domainName, fromDomain, deleteCurrentRecords));
            && "delete-current-records" in p && "domain-name" in p && "from-domain" in p
            && p["delete-current-records"] in {VInt(0), VInt(1)}
            && (p["delete-current-records"] == VInt(1) <==> Truthy(deleteCurrentRecords))
            && p["domain-name"] == domainName
            && p["from-domain"] == fromDomain
  {
    var flag := FlagValue(deleteCurrentRecords);
    var extra := map["domain-name" := domainName, "from-domain" := fromDomain, "delete-current-records" := flag];
    assert Extra(CopyRecords(domainName, fromDomain, deleteCurrentRecords)) == Some(extra);
    assert extra["delete-current-records"] == flag;
  }

  /** A transport that fails every request with status other than 200 and a
      JSON body makes every operation fail with an API error carrying that
      exact body. */
  lemma RejectedEverywhere(c: Client, op: Operation, transport: Transport, status: int, body: Json)
    requires status != 200
    requires forall req :: transport(req) == Response(status, Some(body))
    ensures Perform(c, op, transport).outcome == ApiError(body)
  {
  }
}
