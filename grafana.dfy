/**
 * The Grafana client: its authentication headers, the payloads and query
 * parameters its calls assemble, how the datasource endpoint is chosen,
 * how every failure becomes a `GrafanaError`, and the order-preserving
 * fan-out of `get_multiple_dashboards`/`create_multiple_dashboards`. The
 * network is the `transport` parameter of `Base`.
 */
module Grafana {
  import opened Wrappers
  import opened Text
  import opened Json
  import opened Exceptions
  import opened Fields
  import opened Base

  // ---------------------------------------------------------------------
  // Response models
  // ---------------------------------------------------------------------

  /** `GrafanaFolder`. */
  datatype Folder = Folder(id: int, uid: string, title: string)

  /**
   * `GrafanaDatasource`. Its fields are read under their Python names, so
   * Grafana's own `isDefault`/`jsonData` keys are ignored and the defaults
   * (`False`, `{}`) apply unless a response spells them `is_default`/`json_data`.
   */
  datatype Datasource = Datasource(
    id: int,
    uid: string,
    name: string,
    kind: string,
    url: string,
    access: string,
    isDefault: bool,
    jsonData: map<string, Json>)

  /** A required field of a model: pydantic rejects the object when it is missing. */
  function Required(m: map<string, Json>, key: string): (r: Result<Json, Error>)
    ensures r.Success? <==> key in m
    ensures r.Success? ==> r.value == m[key]
    ensures r.Failure? ==> r.error.kind == MalformedBody
  {
    if key in m then Success(m[key]) else Failure(Malformed("field required"))
  }

  /** `GrafanaFolder(**response)`; extra keys are ignored. */
  function FolderOf(j: Json): (r: Result<Folder, Error>)
    ensures r.Success? <==> j.JObj? && "id" in j.fields && j.fields["id"].JInt? &&
                            "uid" in j.fields && j.fields["uid"].JStr? &&
                            "title" in j.fields && j.fields["title"].JStr?
    ensures r.Success? ==> j.fields["id"] == JInt(r.value.id) && j.fields["uid"] == JStr(r.value.uid) &&
                           j.fields["title"] == JStr(r.value.title)
    ensures r.Failure? ==> r.error.kind == MalformedBody
  {
    var m :- AsObject(j);
    var id :- Required(m, "id");
    var id :- AsInt(id);
    var uid :- Required(m, "uid");
    var uid :- AsStr(uid);
    var title :- Required(m, "title");
    var title :- AsStr(title);
    Success(Folder(id, uid, title))
  }

  /** A required string field is present and a string. */
  predicate HasStr(m: map<string, Json>, key: string) {
    key in m && m[key].JStr?
  }

  /** `GrafanaDatasource(**response)`; extra keys are ignored. */
  function DatasourceOf(j: Json): (r: Result<Datasource, Error>)
    ensures r.Success? <==> && j.JObj? && "id" in j.fields && j.fields["id"].JInt?
                            && HasStr(j.fields, "uid") && HasStr(j.fields, "name") && HasStr(j.fields, "type")
                            && HasStr(j.fields, "url") && HasStr(j.fields, "access")
                            && Get(j.fields, "is_default", JBool(false)).JBool?
                            && Get(j.fields, "json_data", JObj(map[])).JObj?
    ensures r.Success? ==> j.JObj? && "id" in j.fields && j.fields["id"] == JInt(r.value.id)
    ensures r.Success? ==> "uid" in j.fields && j.fields["uid"] == JStr(r.value.uid)
    ensures r.Success? ==> "name" in j.fields && j.fields["name"] == JStr(r.value.name)
    ensures r.Success? ==> "type" in j.fields && j.fields["type"] == JStr(r.value.kind)
    ensures r.Success? ==> "url" in j.fields && j.fields["url"] == JStr(r.value.url)
    ensures r.Success? ==> "access" in j.fields && j.fields["access"] == JStr(r.value.access)
    ensures r.Success? ==> JBool(r.value.isDefault) == Get(j.fields, "is_default", JBool(false))
    ensures r.Success? ==> JObj(r.value.jsonData) == Get(j.fields, "json_data", JObj(map[]))
    ensures r.Failure? ==> r.error.kind == MalformedBody
  {
    var m :- AsObject(j);
    var id :- Required(m, "id");
    var id :- AsInt(id);
    var uid :- Required(m, "uid");
    var uid :- AsStr(uid);
    var name :- Required(m, "name");
    var name :- AsStr(name);
    var kind :- Required(m, "type");
    var kind :- AsStr(kind);
    var url :- Required(m, "url");
    var url :- AsStr(url);
    var access :- Required(m, "access");
    var access :- AsStr(access);
    var isDefault :- AsBool(Get(m, "is_default", JBool(false)));
    var jsonData :- AsObject(Get(m, "json_data", JObj(map[])));
    Success(Datasource(id, uid, name, kind, url, access, isDefault, jsonData))
  }

  // ---------------------------------------------------------------------
  // Failures
  // ---------------------------------------------------------------------

  /** `GrafanaError(f"{prefix}: {str(e)}")`. */
  function Wrap(prefix: string, e: Error): (w: Error)
    ensures w.kind == GrafanaError && w.statusCode.None? && IsA(w.kind, APIError)
    ensures Str(w) == prefix + ": " + Str(e)
  {
    NewAPIError(GrafanaError, prefix + ": " + Str(e), None, None)
  }

  /** The value of a call that returns the decoded body: any exception is re-raised wrapped. */
  function Answer(prefix: string, outcome: Outcome): (r: Result<Json, Error>)
    ensures r.Success? <==> outcome.Body?
    ensures r.Success? ==> r.value == outcome.json
    ensures r.Failure? ==> r.error == Wrap(prefix, outcome.error)
  {
    match outcome
    case Body(json) => Success(json)
    case Raised(e) => Failure(Wrap(prefix, e))
  }

  /** The value of a call that returns a `GrafanaFolder`: a malformed body is wrapped like a failed request. */
  function FolderAnswer(prefix: string, outcome: Outcome): (r: Result<Folder, Error>)
    ensures r.Success? <==> outcome.Body? && FolderOf(outcome.json).Success?
    ensures r.Success? ==> r == FolderOf(outcome.json)
    ensures r.Failure? ==> r.error.kind == GrafanaError
    ensures outcome.Raised? ==> r == Failure(Wrap(prefix, outcome.error))
  {
    match outcome
    case Raised(e) => Failure(Wrap(prefix, e))
    case Body(json) =>
      match FolderOf(json)
      case Success(folder) => Success(folder)
      case Failure(e) => Failure(Wrap(prefix, e))
  }

  /** The value of a call that returns a `GrafanaDatasource`. */
  function DatasourceAnswer(prefix: string, outcome: Outcome): (r: Result<Datasource, Error>)
    ensures r.Success? <==> outcome.Body? && DatasourceOf(outcome.json).Success?
    ensures r.Success? ==> r == DatasourceOf(outcome.json)
    ensures r.Failure? ==> r.error.kind == GrafanaError
    ensures outcome.Raised? ==> r == Failure(Wrap(prefix, outcome.error))
  {
    match outcome
    case Raised(e) => Failure(Wrap(prefix, e))
    case Body(json) =>
      match DatasourceOf(json)
      case Success(ds) => Success(ds)
      case Failure(e) => Failure(Wrap(prefix, e))
  }

  // ---------------------------------------------------------------------
  // Payloads and parameters
  // ---------------------------------------------------------------------

  /** The body `create_dashboard` posts. */
  function CreateDashboardPayload(dashboard: map<string, Json>, folderId: Option<int>, overwrite: bool)
    : (p: map<string, Json>)
    ensures p.Keys == {"dashboard"} + (if folderId.Some? then {"folderId"} else {}) + (if overwrite then {"overwrite"} else {})
    ensures p["dashboard"] == JObj(dashboard)
    ensures folderId.Some? ==> p["folderId"] == JInt(folderId.value)
    ensures overwrite ==> p["overwrite"] == JBool(true)
  {
    var p := map["dashboard" := JObj(dashboard)];
    var p := if folderId.Some? then p["folderId" := JInt(folderId.value)] else p;
    if overwrite then p["overwrite" := JBool(true)] else p
  }

  /** The body `update_dashboard` posts. */
  function UpdateDashboardPayload(dashboard: map<string, Json>, overwrite: bool, message: Option<string>)
    : (p: map<string, Json>)
    ensures p.Keys == {"dashboard", "overwrite"} + (if StrTruthy(message) then {"message"} else {})
    ensures p["dashboard"] == JObj(dashboard) && p["overwrite"] == JBool(overwrite)
    ensures StrTruthy(message) ==> p["message"] == JStr(message.value)
  {
    var p := map["dashboard" := JObj(dashboard), "overwrite" := JBool(overwrite)];
    if StrTruthy(message) then p["message" := JStr(message.value)] else p
  }

  /** `",".join(map(str, ids))`. */
  function IdList(ids: seq<int>): string {
    Join(",", seq(|ids|, i requires 0 <= i < |ids| => IntToString(ids[i])))
  }

  /** The comma-joined id list reads back, in order, as the ids it was made from. */
  lemma IdListRoundTrip(ids: seq<int>)
    requires |ids| >= 1
    ensures |Split(IdList(ids), ',')| == |ids|
    ensures forall i :: 0 <= i < |ids| ==> ParseInt(Split(IdList(ids), ',')[i]) == Some(ids[i])
  {
    var parts := seq(|ids|, i requires 0 <= i < |ids| => IntToString(ids[i]));
    forall i | 0 <= i < |parts|
      ensures ',' !in parts[i]
    {
      assert parts[i] == IntToString(ids[i]);
    }
    SplitJoin(parts, ',');
    assert Split(IdList(ids), ',') == parts;
    forall i | 0 <= i < |ids|
      ensures ParseInt(parts[i]) == Some(ids[i])
    {
      ParseIntOfIntToString(ids[i]);
    }
  }

  /** A non-empty list given to `search_dashboards`. */
  predicate ListTruthy<T>(o: Option<seq<T>>) {
    o.Some? && o.value != []
  }

  /** `if present: p[key] = value`. */
  function PutIf(p: map<string, Json>, present: bool, key: string, value: Json): (r: map<string, Json>)
    ensures r.Keys == if present then p.Keys + {key} else p.Keys
    ensures present ==> r[key] == value
    ensures forall k :: k in p && k != key ==> r[k] == p[k]
  {
    if present then p[key := value] else p
  }

  /** A list of strings as JSON. */
  function StrList(items: seq<string>): Json {
    JArr(seq(|items|, i requires 0 <= i < |items| => JStr(items[i])))
  }

  /** The query parameters `search_dashboards` sends: each one only for a truthy argument. */
  function SearchParams(query: Option<string>, tag: Option<seq<string>>, type_: Option<string>,
                        dashboardIds: Option<seq<int>>, folderIds: Option<seq<int>>,
                        limit: Option<int>, page: Option<int>): (p: map<string, Json>)
    ensures "query" in p <==> StrTruthy(query)
    ensures "tag" in p <==> ListTruthy(tag)
    ensures "type" in p <==> StrTruthy(type_)
    ensures "dashboardIds" in p <==> ListTruthy(dashboardIds)
    ensures "folderIds" in p <==> ListTruthy(folderIds)
    ensures "limit" in p <==> IntTruthy(limit)
    ensures "page" in p <==> IntTruthy(page)
    ensures p.Keys <= {"query", "tag", "type", "dashboardIds", "folderIds", "limit", "page"}
    ensures "dashboardIds" in p ==> p["dashboardIds"] == JStr(IdList(dashboardIds.value))
    ensures "folderIds" in p ==> p["folderIds"] == JStr(IdList(folderIds.value))
    ensures "tag" in p ==> p["tag"] == StrList(tag.value)
    ensures "query" in p ==> p["query"] == JStr(query.value)
    ensures "type" in p ==> p["type"] == JStr(type_.value)
    ensures "limit" in p ==> p["limit"] == JInt(limit.value)
    ensures "page" in p ==> p["page"] == JInt(page.value)
  {
    var p := PutIf(map[], StrTruthy(query), "query", JStr(query.GetOr("")));
    var p := PutIf(p, ListTruthy(tag), "tag", StrList(tag.GetOr([])));
    var p := PutIf(p, StrTruthy(type_), "type", JStr(type_.GetOr("")));
    var p := PutIf(p, ListTruthy(dashboardIds), "dashboardIds", JStr(IdList(dashboardIds.GetOr([]))));
    var p := PutIf(p, ListTruthy(folderIds), "folderIds", JStr(IdList(folderIds.GetOr([]))));
    var p := PutIf(p, IntTruthy(limit), "limit", JInt(limit.GetOr(0)));
    PutIf(p, IntTruthy(page), "page", JInt(page.GetOr(0)))
  }

  /**
   * A body with one fixed string field, plus a second string field only
   * when its value is truthy: the shape of the bodies `create_folder`
   * ("title", "uid") and `move_dashboard` ("dashboardUid", "folderUid") post.
   */
  function OptionalStrPayload(key: string, value: string, optKey: string, opt: Option<string>): (p: map<string, Json>)
    requires key != optKey
    ensures p.Keys == {key} + (if StrTruthy(opt) then {optKey} else {})
    ensures p[key] == JStr(value)
    ensures StrTruthy(opt) ==> p[optKey] == JStr(opt.value)
  {
    PutIf(map[key := JStr(value)], StrTruthy(opt), optKey, JStr(opt.GetOr("")))
  }

  /** The body `create_folder` posts: "uid" only for a truthy uid. */
  function CreateFolderPayload(title: string, uid: Option<string>): map<string, Json> {
    OptionalStrPayload("title", title, "uid", uid)
  }

  /** The body `update_folder` puts: "version" only for a truthy version (0 is dropped). */
  function UpdateFolderPayload(title: string, version: Option<int>): (p: map<string, Json>)
    ensures p.Keys == {"title"} + (if IntTruthy(version) then {"version"} else {})
    ensures p["title"] == JStr(title)
    ensures IntTruthy(version) ==> p["version"] == JInt(version.value)
  {
    PutIf(map["title" := JStr(title)], IntTruthy(version), "version", JInt(version.GetOr(0)))
  }

  /** The body `move_dashboard` posts: no "folderUid" (the root folder) unless one is given. */
  function MovePayload(dashboardUid: string, folderUid: Option<string>): map<string, Json> {
    OptionalStrPayload("dashboardUid", dashboardUid, "folderUid", folderUid)
  }

  /** The query parameters `get_alerts` sends: each one only for a truthy argument. */
  function AlertParams(dashboardId: Option<int>, panelId: Option<int>, query: Option<string>,
                       state: Option<string>, limit: Option<int>): (p: map<string, Json>)
    ensures "dashboardId" in p <==> IntTruthy(dashboardId)
    ensures "panelId" in p <==> IntTruthy(panelId)
    ensures "query" in p <==> StrTruthy(query)
    ensures "state" in p <==> StrTruthy(state)
    ensures "limit" in p <==> IntTruthy(limit)
    ensures p.Keys <= {"dashboardId", "panelId", "query", "state", "limit"}
    ensures "dashboardId" in p ==> p["dashboardId"] == JInt(dashboardId.value)
    ensures "panelId" in p ==> p["panelId"] == JInt(panelId.value)
    ensures "query" in p ==> p["query"] == JStr(query.value)
    ensures "state" in p ==> p["state"] == JStr(state.value)
    ensures "limit" in p ==> p["limit"] == JInt(limit.value)
  {
    var p := PutIf(map[], IntTruthy(dashboardId), "dashboardId", JInt(dashboardId.GetOr(0)));
    var p := PutIf(p, IntTruthy(panelId), "panelId", JInt(panelId.GetOr(0)));
    var p := PutIf(p, StrTruthy(query), "query", JStr(query.GetOr("")));
    var p := PutIf(p, StrTruthy(state), "state", JStr(state.GetOr("")));
    PutIf(p, IntTruthy(limit), "limit", JInt(limit.GetOr(0)))
  }

  // ---------------------------------------------------------------------
  // Datasource endpoint selection
  // ---------------------------------------------------------------------

  const DatasourcesPrefix := "api/datasources/"

  const MissingDatasource := NewAPIError(GrafanaError, "Either datasource_id or uid must be provided", None, None)

  /**
   * The endpoint `update_datasource` and `delete_datasource` address: by a
   * truthy id, else by a truthy uid, else a `GrafanaError` (raised before
   * any request, so not wrapped).
   */
  function DatasourceEndpoint(id: Option<int>, uid: Option<string>): (r: Result<string, Error>)
    ensures r.Failure? <==> !IntTruthy(id) && !StrTruthy(uid)
    ensures r.Failure? ==> r.error == MissingDatasource
    ensures IntTruthy(id) ==> r == Success(DatasourcesPrefix + IntToString(id.value))
    ensures !IntTruthy(id) && StrTruthy(uid) ==> r == Success(DatasourcesPrefix + "uid/" + uid.value)
  {
    if IntTruthy(id) then Success(DatasourcesPrefix + IntToString(id.value))
    else if StrTruthy(uid) then Success(DatasourcesPrefix + "uid/" + uid.value)
    else Failure(MissingDatasource)
  }

  /** How a datasource is addressed. */
  datatype DatasourceRef = ById(id: int) | ByUid(uid: string)

  /** Which datasource an endpoint path names, read back from the path. */
  function EndpointRef(endpoint: string): Option<DatasourceRef> {
    if |endpoint| >= |DatasourcesPrefix| && endpoint[..|DatasourcesPrefix|] == DatasourcesPrefix then
      var rest := endpoint[|DatasourcesPrefix|..];
      if |rest| >= 4 && rest[..4] == "uid/" then Some(ByUid(rest[4..]))
      else match ParseInt(rest)
        case Some(n) => Some(ById(n))
        case None => None
    else None
  }

  /**
   * The chosen endpoint names exactly the datasource selected: the id
   * when it is truthy (even if a uid is given too), else the uid. Id and
   * uid endpoints therefore never collide.
   */
  lemma DatasourceEndpointRoundTrip(id: Option<int>, uid: Option<string>)
    requires DatasourceEndpoint(id, uid).Success?
    ensures EndpointRef(DatasourceEndpoint(id, uid).value) ==
              if IntTruthy(id) then Some(ById(id.value)) else Some(ByUid(uid.value))
  {
    if IntTruthy(id) {
      IdEndpointRef(id.value);
    } else {
      UidEndpointRef(uid.value);
    }
  }

  lemma IdEndpointRef(n: int)
    ensures EndpointRef(DatasourcesPrefix + IntToString(n)) == Some(ById(n))
  {
    var endpoint := DatasourcesPrefix + IntToString(n);
    assert endpoint[..|DatasourcesPrefix|] == DatasourcesPrefix;
    var rest := endpoint[|DatasourcesPrefix|..];
    assert rest == IntToString(n);
    assert IsDigit(rest[0]) || rest[0] == '-';
    ParseIntOfIntToString(n);
  }

  lemma UidEndpointRef(u: string)
    ensures EndpointRef(DatasourcesPrefix + "uid/" + u) == Some(ByUid(u))
  {
    var endpoint := DatasourcesPrefix + "uid/" + u;
    assert endpoint[..|DatasourcesPrefix|] == DatasourcesPrefix;
    assert endpoint[|DatasourcesPrefix|..] == "uid/" + u;
  }

  // ---------------------------------------------------------------------
  // The client
  // ---------------------------------------------------------------------

  class GrafanaClient {
    const base: BaseClient
    const apiKey: Option<string>
    const username: Option<string>
    const password: Option<string>
    const orgId: Option<int>
    /** `base64.b64encode(s.encode()).decode()`, left uninterpreted. */
    const base64: string -> string

    constructor (url: string, apiKey: Option<string>, username: Option<string>, password: Option<string>,
                 orgId: Option<int>, timeout: int, maxRetries: int, rateLimit: Option<int>,
                 headers: Option<map<string, string>>, verifySsl: bool, base64: string -> string)
      ensures base.baseUrl == RStrip(url, '/') && base.headers == headers.GetOr(map[])
      ensures base.timeout == timeout && base.maxRetries == maxRetries && base.verifySsl == verifySsl
      ensures base.throttleRate.Some? <==> IntTruthy(rateLimit)
      ensures this.apiKey == apiKey && this.username == username && this.password == password
      ensures this.orgId == orgId && this.base64 == base64
    {
      this.base := new BaseClient(url, timeout, maxRetries, rateLimit, headers, verifySsl);
      this.apiKey := apiKey;
      this.username := username;
      this.password := password;
      this.orgId := orgId;
      this.base64 := base64;
    }

    /**
     * `_prepare_auth_headers`: Bearer for a truthy API key, else Basic for
     * a truthy username and password; the organisation header is added
     * for a truthy org id whichever authentication applied, and reads back
     * as that id.
     */
    function AuthHeaders(): (h: map<string, string>)
      ensures h.Keys <= {"Authorization", "X-Grafana-Org-Id"}
      ensures "Authorization" in h <==> StrTruthy(apiKey) || (StrTruthy(username) && StrTruthy(password))
      ensures StrTruthy(apiKey) ==> h["Authorization"] == "Bearer " + apiKey.value
      ensures !StrTruthy(apiKey) && "Authorization" in h ==>
                h["Authorization"] == "Basic " + base64(username.value + ":" + password.value)
      ensures "X-Grafana-Org-Id" in h <==> IntTruthy(orgId)
      ensures IntTruthy(orgId) ==> ParseInt(h["X-Grafana-Org-Id"]) == Some(orgId.value)
    {
      var h: map<string, string> :=
        if StrTruthy(apiKey) then map["Authorization" := "Bearer " + apiKey.value]
        else if StrTruthy(username) && StrTruthy(password) then
          map["Authorization" := "Basic " + base64(username.value + ":" + password.value)]
        else map[];
      if IntTruthy(orgId) then
        ParseIntOfIntToString(orgId.value);
        h["X-Grafana-Org-Id" := IntToString(orgId.value)]
      else h
    }

    /** The request `_request(verb, endpoint, params, body, auth headers)` forms. */
    function Call(verb: string, endpoint: string, params: map<string, Json>, body: Option<Json>): (r: HttpRequest)
      ensures r == base.Prepare(verb, endpoint, params, body, Some(AuthHeaders()))
      ensures r.headers.Keys == base.headers.Keys + AuthHeaders().Keys
    {
      base.Prepare(verb, endpoint, params, body, Some(AuthHeaders()))
    }

    function DashboardRequest(uid: string): HttpRequest {
      Call("GET", "api/dashboards/uid/" + uid, map[], None)
    }

    function CreateDashboardRequest(dashboard: map<string, Json>, folderId: Option<int>, overwrite: bool): HttpRequest {
      Call("POST", "api/dashboards/db", map[], Some(JObj(CreateDashboardPayload(dashboard, folderId, overwrite))))
    }

    /** `get_dashboard`. */
    method GetDashboard(uid: string, transport: HttpRequest -> Outcome)
      returns (r: Result<Json, Error>, sent: HttpRequest)
      ensures sent == DashboardRequest(uid)
      ensures r == Answer("Failed to get dashboard " + uid, transport(sent))
    {
      var outcome;
      sent, outcome := base.Request("GET", "api/dashboards/uid/" + uid, map[], None, Some(AuthHeaders()), transport);
      if outcome.Raised? {
        return Failure(Wrap("Failed to get dashboard " + uid, outcome.error)), sent;
      }
      return Success(outcome.json), sent;
    }

    /** `create_dashboard`: the payload is filled key by key. */
    method CreateDashboard(dashboard: map<string, Json>, folderId: Option<int>, overwrite: bool,
                           transport: HttpRequest -> Outcome)
      returns (r: Result<Json, Error>, sent: HttpRequest)
      ensures sent == CreateDashboardRequest(dashboard, folderId, overwrite)
      ensures r == Answer("Failed to create dashboard", transport(sent))
    {
      var payload := map["dashboard" := JObj(dashboard)];
      if folderId.Some? {
        payload := payload["folderId" := JInt(folderId.value)];
      }
      if overwrite {
        payload := payload["overwrite" := JBool(true)];
      }
      var outcome;
      sent, outcome := base.Request("POST", "api/dashboards/db", map[], Some(JObj(payload)), Some(AuthHeaders()), transport);
      if outcome.Raised? {
        return Failure(Wrap("Failed to create dashboard", outcome.error)), sent;
      }
      return Success(outcome.json), sent;
    }

    /** `update_dashboard`. */
    method UpdateDashboard(dashboard: map<string, Json>, overwrite: bool, message: Option<string>,
                           transport: HttpRequest -> Outcome)
      returns (r: Result<Json, Error>, sent: HttpRequest)
      ensures sent == Call("POST", "api/dashboards/db", map[], Some(JObj(UpdateDashboardPayload(dashboard, overwrite, message))))
      ensures r == Answer("Failed to update dashboard", transport(sent))
    {
      var payload := map["dashboard" := JObj(dashboard), "overwrite" := JBool(overwrite)];
      if StrTruthy(message) {
        payload := payload["message" := JStr(message.value)];
      }
      var outcome;
      sent, outcome := base.Request("POST", "api/dashboards/db", map[], Some(JObj(payload)), Some(AuthHeaders()), transport);
      if outcome.Raised? {
        return Failure(Wrap("Failed to update dashboard", outcome.error)), sent;
      }
      return Success(outcome.json), sent;
    }

    /** `search_dashboards`. */
    method SearchDashboards(query: Option<string>, tag: Option<seq<string>>, type_: Option<string>,
                            dashboardIds: Option<seq<int>>, folderIds: Option<seq<int>>,
                            limit: Option<int>, page: Option<int>, transport: HttpRequest -> Outcome)
      returns (r: Result<Json, Error>, sent: HttpRequest)
      ensures sent == Call("GET", "api/search", SearchParams(query, tag, type_, dashboardIds, folderIds, limit, page), None)
      ensures r == Answer("Failed to search dashboards", transport(sent))
    {
      var params := SearchParams(query, tag, type_, dashboardIds, folderIds, limit, page);
      var outcome;
      sent, outcome := base.Request("GET", "api/search", params, None, Some(AuthHeaders()), transport);
      if outcome.Raised? {
        return Failure(Wrap("Failed to search dashboards", outcome.error)), sent;
      }
      return Success(outcome.json), sent;
    }

    /** `get_folders`: one folder per item of the response, in order. */
    method GetFolders(transport: HttpRequest -> Outcome)
      returns (r: Result<seq<Folder>, Error>, sent: HttpRequest)
      ensures sent == Call("GET", "api/folders", map[], None)
      ensures transport(sent).Raised? ==> r == Failure(Wrap("Failed to get folders", transport(sent).error))
      ensures r.Success? <==> transport(sent).Body? && IterableOfObjects(transport(sent).json) &&
                              forall x :: x in Iterated(transport(sent).json).value ==> FolderOf(x).Success?
      ensures r.Success? ==>
                var items := Iterated(transport(sent).json).value;
                |r.value| == |items| && forall i :: 0 <= i < |items| ==> FolderOf(items[i]) == Success(r.value[i])
      ensures r.Failure? && transport(sent).Body? && IterableOfObjects(transport(sent).json) ==>
                exists i, e :: FailsFirstAt(FolderOf, Iterated(transport(sent).json).value, i, e) &&
                               r.error == Wrap("Failed to get folders", e)
      ensures r.Failure? ==> r.error.kind == GrafanaError
    {
      var outcome;
      sent, outcome := base.Request("GET", "api/folders", map[], None, Some(AuthHeaders()), transport);
      if outcome.Raised? {
        return Failure(Wrap("Failed to get folders", outcome.error)), sent;
      }
      var items := Iterated(outcome.json);
      if items.Failure? {
        return Failure(Wrap("Failed to get folders", items.error)), sent;
      }
      var folders: seq<Folder> := [];
      var i := 0;
      while i < |items.value|
        invariant 0 <= i <= |items.value| && |folders| == i
        invariant forall j :: 0 <= j < i ==> FolderOf(items.value[j]) == Success(folders[j])
      {
        var folder := FolderOf(items.value[i]);
        if folder.Failure? {
          assert FailsFirstAt(FolderOf, items.value, i, folder.error);
          return Failure(Wrap("Failed to get folders", folder.error)), sent;
        }
        folders := folders + [folder.value];
        i := i + 1;
      }
      return Success(folders), sent;
    }

    /** `create_folder`. */
    method CreateFolder(title: string, uid: Option<string>, transport: HttpRequest -> Outcome)
      returns (r: Result<Folder, Error>, sent: HttpRequest)
      ensures sent == Call("POST", "api/folders", map[], Some(JObj(CreateFolderPayload(title, uid))))
      ensures r == FolderAnswer("Failed to create folder", transport(sent))
    {
      var payload := map["title" := JStr(title)];
      if StrTruthy(uid) {
        payload := payload["uid" := JStr(uid.value)];
      }
      var outcome;
      sent, outcome := base.Request("POST", "api/folders", map[], Some(JObj(payload)), Some(AuthHeaders()), transport);
      r := FolderAnswer("Failed to create folder", outcome);
    }

    /** `update_folder`. */
    method UpdateFolder(uid: string, title: string, version: Option<int>, transport: HttpRequest -> Outcome)
      returns (r: Result<Folder, Error>, sent: HttpRequest)
      ensures sent == Call("PUT", "api/folders/" + uid, map[], Some(JObj(UpdateFolderPayload(title, version))))
      ensures r == FolderAnswer("Failed to update folder " + uid, transport(sent))
    {
      var payload := map["title" := JStr(title)];
      if IntTruthy(version) {
        payload := payload["version" := JInt(version.value)];
      }
      var outcome;
      sent, outcome := base.Request("PUT", "api/folders/" + uid, map[], Some(JObj(payload)), Some(AuthHeaders()), transport);
      r := FolderAnswer("Failed to update folder " + uid, outcome);
    }

    /** `move_dashboard`. */
    method MoveDashboard(dashboardUid: string, folderUid: Option<string>, transport: HttpRequest -> Outcome)
      returns (r: Result<Json, Error>, sent: HttpRequest)
      ensures sent == Call("POST", "api/dashboards/belongsTo", map[], Some(JObj(MovePayload(dashboardUid, folderUid))))
      ensures r == Answer("Failed to move dashboard", transport(sent))
    {
      var payload := map["dashboardUid" := JStr(dashboardUid)];
      if StrTruthy(folderUid) {
        payload := payload["folderUid" := JStr(folderUid.value)];
      }
      var outcome;
      sent, outcome := base.Request("POST", "api/dashboards/belongsTo", map[], Some(JObj(payload)), Some(AuthHeaders()),
                                    transport);
      if outcome.Raised? {
        return Failure(Wrap("Failed to move dashboard", outcome.error)), sent;
      }
      return Success(outcome.json), sent;
    }

    /** `get_datasources`: one datasource per item of the response, in order. */
    method GetDatasources(transport: HttpRequest -> Outcome)
      returns (r: Result<seq<Datasource>, Error>, sent: HttpRequest)
      ensures sent == Call("GET", "api/datasources", map[], None)
      ensures transport(sent).Raised? ==> r == Failure(Wrap("Failed to get datasources", transport(sent).error))
      ensures r.Success? <==> transport(sent).Body? && IterableOfObjects(transport(sent).json) &&
                              forall x :: x in Iterated(transport(sent).json).value ==> DatasourceOf(x).Success?
      ensures r.Success? ==>
                var items := Iterated(transport(sent).json).value;
                |r.value| == |items| && forall i :: 0 <= i < |items| ==> DatasourceOf(items[i]) == Success(r.value[i])
      ensures r.Failure? && transport(sent).Body? && IterableOfObjects(transport(sent).json) ==>
                exists i, e :: FailsFirstAt(DatasourceOf, Iterated(transport(sent).json).value, i, e) &&
                               r.error == Wrap("Failed to get datasources", e)
      ensures r.Failure? ==> r.error.kind == GrafanaError
    {
      var outcome;
      sent, outcome := base.Request("GET", "api/datasources", map[], None, Some(AuthHeaders()), transport);
      if outcome.Raised? {
        return Failure(Wrap("Failed to get datasources", outcome.error)), sent;
      }
      var items := Iterated(outcome.json);
      if items.Failure? {
        return Failure(Wrap("Failed to get datasources", items.error)), sent;
      }
      var datasources: seq<Datasource> := [];
      var i := 0;
      while i < |items.value|
        invariant 0 <= i <= |items.value| && |datasources| == i
        invariant forall j :: 0 <= j < i ==> DatasourceOf(items.value[j]) == Success(datasources[j])
      {
        var ds := DatasourceOf(items.value[i]);
        if ds.Failure? {
          assert FailsFirstAt(DatasourceOf, items.value, i, ds.error);
          return Failure(Wrap("Failed to get datasources", ds.error)), sent;
        }
        datasources := datasources + [ds.value];
        i := i + 1;
      }
      return Success(datasources), sent;
    }

    /** `update_datasource`: no request at all when neither id nor uid is truthy. */
    method UpdateDatasource(datasource: map<string, Json>, id: Option<int>, uid: Option<string>,
                            transport: HttpRequest -> Outcome)
      returns (r: Result<Datasource, Error>, sent: Option<HttpRequest>)
      ensures sent.None? <==> DatasourceEndpoint(id, uid).Failure?
      ensures sent.None? ==> r == Failure(MissingDatasource)
      ensures sent.Some? ==> sent.value == Call("PUT", DatasourceEndpoint(id, uid).value, map[], Some(JObj(datasource)))
      ensures sent.Some? ==> r == DatasourceAnswer("Failed to update datasource", transport(sent.value))
    {
      var endpoint;
      if IntTruthy(id) {
        endpoint := DatasourcesPrefix + IntToString(id.value);
      } else if StrTruthy(uid) {
        endpoint := DatasourcesPrefix + "uid/" + uid.value;
      } else {
        return Failure(MissingDatasource), None;
      }
      var request, outcome := base.Request("PUT", endpoint, map[], Some(JObj(datasource)), Some(AuthHeaders()), transport);
      sent := Some(request);
      r := DatasourceAnswer("Failed to update datasource", outcome);
    }

    /** `delete_datasource`: no request at all when neither id nor uid is truthy. */
    method DeleteDatasource(id: Option<int>, uid: Option<string>, transport: HttpRequest -> Outcome)
      returns (r: Result<Json, Error>, sent: Option<HttpRequest>)
      ensures sent.None? <==> DatasourceEndpoint(id, uid).Failure?
      ensures sent.None? ==> r == Failure(MissingDatasource)
      ensures sent.Some? ==> sent.value == Call("DELETE", DatasourceEndpoint(id, uid).value, map[], None)
      ensures sent.Some? ==> r == Answer("Failed to delete datasource", transport(sent.value))
    {
      var endpoint;
      if IntTruthy(id) {
        endpoint := DatasourcesPrefix + IntToString(id.value);
      } else if StrTruthy(uid) {
        endpoint := DatasourcesPrefix + "uid/" + uid.value;
      } else {
        return Failure(MissingDatasource), None;
      }
      var request, outcome := base.Request("DELETE", endpoint, map[], None, Some(AuthHeaders()), transport);
      sent := Some(request);
      r := Answer("Failed to delete datasource", outcome);
    }

    /** `get_alerts`. */
    method GetAlerts(dashboardId: Option<int>, panelId: Option<int>, query: Option<string>, state: Option<string>,
                     limit: Option<int>, transport: HttpRequest -> Outcome)
      returns (r: Result<Json, Error>, sent: HttpRequest)
      ensures sent == Call("GET", "api/alerts", AlertParams(dashboardId, panelId, query, state, limit), None)
      ensures r == Answer("Failed to get alerts", transport(sent))
    {
      var params := AlertParams(dashboardId, panelId, query, state, limit);
      var outcome;
      sent, outcome := base.Request("GET", "api/alerts", params, None, Some(AuthHeaders()), transport);
      if outcome.Raised? {
        return Failure(Wrap("Failed to get alerts", outcome.error)), sent;
      }
      return Success(outcome.json), sent;
    }

    /**
     * `get_multiple_dashboards`, run one task after another: one entry per
     * uid, in input order, a failure kept in place as its exception
     * instead of being raised.
     */
    method GetMultipleDashboards(uids: seq<string>, transport: HttpRequest -> Outcome)
      returns (r: seq<Result<Json, Error>>, sent: seq<HttpRequest>)
      ensures |r| == |uids| && |sent| == |uids|
      ensures forall i :: 0 <= i < |uids| ==>
                sent[i] == DashboardRequest(uids[i]) &&
                r[i] == Answer("Failed to get dashboard " + uids[i], transport(sent[i]))
    {
      r, sent := [], [];
      var i := 0;
      while i < |uids|
        invariant 0 <= i <= |uids| && |r| == i && |sent| == i
        invariant forall j :: 0 <= j < i ==>
                    sent[j] == DashboardRequest(uids[j]) &&
                    r[j] == Answer("Failed to get dashboard " + uids[j], transport(sent[j]))
      {
        var result, request := GetDashboard(uids[i], transport);
        forall j | 0 <= j < i + 1
          ensures (sent + [request])[j] == DashboardRequest(uids[j])
          ensures (r + [result])[j] == Answer("Failed to get dashboard " + uids[j], transport((sent + [request])[j]))
        {
          if j < i {
            assert (sent + [request])[j] == sent[j] && (r + [result])[j] == r[j];
          }
        }
        r := r + [result];
        sent := sent + [request];
        i := i + 1;
      }
    }

    /**
     * `create_multiple_dashboards`, run one task after another: each
     * dashboard is created with no folder and without overwrite; one entry
     * per dashboard, in input order, failures kept in place.
     */
    method CreateMultipleDashboards(dashboards: seq<map<string, Json>>, transport: HttpRequest -> Outcome)
      returns (r: seq<Result<Json, Error>>, sent: seq<HttpRequest>)
      ensures |r| == |dashboards| && |sent| == |dashboards|
      ensures forall i :: 0 <= i < |dashboards| ==>
                sent[i] == CreateDashboardRequest(dashboards[i], None, false) &&
                r[i] == Answer("Failed to create dashboard", transport(sent[i]))
    {
      r, sent := [], [];
      var i := 0;
      while i < |dashboards|
        invariant 0 <= i <= |dashboards| && |r| == i && |sent| == i
        invariant forall j :: 0 <= j < i ==>
                    sent[j] == CreateDashboardRequest(dashboards[j], None, false) &&
                    r[j] == Answer("Failed to create dashboard", transport(sent[j]))
      {
        var result, request := CreateDashboard(dashboards[i], None, false, transport);
        r := r + [result];
        sent := sent + [request];
        i := i + 1;
      }
    }
  }
}
