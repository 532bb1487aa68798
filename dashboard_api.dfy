/**
 * The dashboard's API client and its queries: the request interceptor that
 * adds the bearer token from storage, the response interceptor that ends the
 * session on a 401, and for each query hook its cache key, its `enabled` flag,
 * its option constants and its query function, which refuses to send
 * anything while the context is not authenticated.
 */
module DashboardApi {
  import opened Wrappers
  import opened Text
  import opened Browser
  import opened Http
  import opened Auth

  const NotAuthenticatedMessage := "User not authenticated"
  const UnauthorizedStatus := 401

  const StatsPath := "/admin/dashboard-stats"
  const PatientsPath := "/admin/patients"

  /**
   * The request interceptor: with a non-empty `authToken` in storage the
   * request gets `Authorization: Bearer <token>`; otherwise it goes out as it
   * came. It never blocks a request and only reads storage.
   */
  function WithAuthorization(storage: map<string, string>, config: Request): (out: Request)
    ensures out.verb == config.verb && out.url == config.url && out.params == config.params && out.body == config.body
    ensures AuthTokenKey in storage && storage[AuthTokenKey] != "" ==>
              out.headers == config.headers[AuthorizationHeader := BearerPrefix + storage[AuthTokenKey]]
    ensures !(AuthTokenKey in storage && storage[AuthTokenKey] != "") ==> out == config
  {
    if AuthTokenKey in storage && storage[AuthTokenKey] != "" then
      config.(headers := config.headers[AuthorizationHeader := BearerPrefix + storage[AuthTokenKey]])
    else config
  }

  /** The header carries exactly the stored token after the `Bearer ` prefix, and applying the interceptor twice adds nothing. */
  lemma AuthorizationCarriesStoredToken(storage: map<string, string>, config: Request)
    requires AuthTokenKey in storage && storage[AuthTokenKey] != ""
    ensures var h := WithAuthorization(storage, config).headers;
            AuthorizationHeader in h && BearerPrefix <= h[AuthorizationHeader]
            && h[AuthorizationHeader][|BearerPrefix|..] == storage[AuthTokenKey]
    ensures WithAuthorization(storage, WithAuthorization(storage, config)) == WithAuthorization(storage, config)
  {
    var v := BearerPrefix + storage[AuthTokenKey];
    assert v[|BearerPrefix|..] == storage[AuthTokenKey];
  }

  /**
   * The response interceptor's error path: a 401 removes both session keys
   * and then navigates to `/loginpage`; any other error leaves storage and
   * location alone. Every error is rejected back to the caller unchanged.
   */
  method OnResponseError(win: Window, error: HttpError) returns (rejected: HttpError)
    modifies win
    ensures rejected == error
    ensures error.status == Some(UnauthorizedStatus) ==>
              win.storage == ClearSession(old(win.storage))
              && win.log == old(win.log) + [RemoveItem(AuthTokenKey), RemoveItem(UserDataKey), Assign(LogoutHref)]
    ensures error.status != Some(UnauthorizedStatus) ==> win.storage == old(win.storage) && win.log == old(win.log)
  {
    if error.status == Some(UnauthorizedStatus) {
      win.RemoveItem(AuthTokenKey);
      win.RemoveItem(UserDataKey);
      win.Navigate(LogoutHref);
    }
    rejected := error;
  }

  /** An element of a React Query key. */
  datatype KeyPart = Name(name: string) | Number(n: int)

  /** The options a hook passes to `useQuery`; None is an option the hook leaves at the library default. */
  datatype QueryOptions = QueryOptions(key: seq<KeyPart>, enabled: bool, retry: Option<nat>, staleTimeMs: Option<nat>, gcTimeMs: Option<nat>)

  /** `useDashboardStats()`: enabled only when authenticated, one retry, 5 minutes fresh, kept 10 minutes. */
  function DashboardStatsQuery(isAuthenticated: bool): (q: QueryOptions)
    ensures q.key == [Name("dashboardStats")]
    ensures q.enabled == isAuthenticated
    ensures q.retry == Some(1) && q.staleTimeMs == Some(5 * 60 * 1000) && q.gcTimeMs == Some(10 * 60 * 1000)
  {
    QueryOptions([Name("dashboardStats")], isAuthenticated, Some(1), Some(300000), Some(600000))
  }

  /** `useRecentPatients(page = 1, perPage = 10)`: one retry, 2 minutes fresh. */
  function RecentPatientsQuery(isAuthenticated: bool, page: int := 1, perPage: int := 10): (q: QueryOptions)
    ensures q.key == [Name("recentPatients"), Number(page), Number(perPage)]
    ensures q.enabled == isAuthenticated
    ensures q.retry == Some(1) && q.staleTimeMs == Some(2 * 60 * 1000) && q.gcTimeMs == None
  {
    QueryOptions([Name("recentPatients"), Number(page), Number(perPage)], isAuthenticated, Some(1), Some(120000), None)
  }

  /** `usePatientDetails(patientId)`: disabled for the id 0 (a falsy number), library defaults otherwise. */
  function PatientDetailsQuery(isAuthenticated: bool, patientId: int): (q: QueryOptions)
    ensures q.key == [Name("patientDetails"), Number(patientId)]
    ensures q.enabled <==> isAuthenticated && patientId != 0
    ensures q.retry == None && q.staleTimeMs == None && q.gcTimeMs == None
  {
    QueryOptions([Name("patientDetails"), Number(patientId)], isAuthenticated && patientId != 0, None, None, None)
  }

  /**
   * Cache keys separate exactly what should be separate: two calls of one hook
   * share an entry iff their arguments agree, the session state is not part of
   * any key, and different hooks never share an entry.
   */
  lemma QueryKeysIdentifyArguments(a1: bool, a2: bool, page1: int, perPage1: int, page2: int, perPage2: int, id1: int, id2: int)
    ensures (RecentPatientsQuery(a1, page1, perPage1).key == RecentPatientsQuery(a2, page2, perPage2).key)
            == (page1 == page2 && perPage1 == perPage2)
    ensures PatientDetailsQuery(a1, id1).key == PatientDetailsQuery(a2, id2).key <==> id1 == id2
    ensures RecentPatientsQuery(a1).key == RecentPatientsQuery(a2, 1, 10).key
    ensures DashboardStatsQuery(a1).key != RecentPatientsQuery(a2, page2, perPage2).key
    ensures DashboardStatsQuery(a1).key != PatientDetailsQuery(a2, id2).key
    ensures RecentPatientsQuery(a1, page1, perPage1).key != PatientDetailsQuery(a2, id2).key
  {
    var k1 := RecentPatientsQuery(a1, page1, perPage1).key;
    var k2 := RecentPatientsQuery(a2, page2, perPage2).key;
    if k1 == k2 {
      assert k1[1] == k2[1] && k1[2] == k2[2];
    }
    var d1 := PatientDetailsQuery(a1, id1).key;
    var d2 := PatientDetailsQuery(a2, id2).key;
    if d1 == d2 {
      assert d1[1] == d2[1];
    }
  }

  /** The server's response envelope: the payload under `data`. */
  datatype Envelope<T> = Envelope(data: T, message: string, status: int)

  datatype QueryError = NotAuthenticated | RequestFailed(error: HttpError)

  /** The message of the error a query function rejects with: its own text before sending, else the transport's. */
  function ErrorMessage(e: QueryError): (m: string)
    ensures e.NotAuthenticated? ==> m == NotAuthenticatedMessage
    ensures e.RequestFailed? ==> m == e.error.message
  {
    match e
    case NotAuthenticated => NotAuthenticatedMessage
    case RequestFailed(error) => error.message
  }

  /** One run of a query function: the request it handed to the transport, if any, and its outcome. */
  datatype Attempt<T> = Attempt(sent: Option<Request>, result: Result<T, QueryError>)

  /**
   * The shape shared by every query function and by the status mutation:
   * throw `User not authenticated` before sending anything, or send the
   * request (through the request interceptor) and unwrap `data` from the reply.
   */
  function Run<T>(isAuthenticated: bool, storage: map<string, string>, request: Request, reply: Result<Envelope<T>, HttpError>): (a: Attempt<T>)
    ensures !isAuthenticated ==> a == Attempt(None, Failure(NotAuthenticated))
    ensures isAuthenticated ==> a.sent == Some(WithAuthorization(storage, request))
    ensures isAuthenticated && reply.Success? ==> a.result == Success(reply.value.data)
    ensures isAuthenticated && reply.Failure? ==> a.result == Failure(RequestFailed(reply.error))
  {
    if !isAuthenticated then Attempt(None, Failure(NotAuthenticated))
    else
      var sent := Some(WithAuthorization(storage, request));
      match reply
      case Success(envelope) => Attempt(sent, Success(envelope.data))
      case Failure(e) => Attempt(sent, Failure(RequestFailed(e)))
  }

  function StatsRequest(): (r: Request)
    ensures r.verb == Get && r.url == StatsPath && r.params == [] && r.body == NoBody
  {
    NewRequest(Get, StatsPath, [], NoBody)
  }

  /** `GET /admin/patients` newest first, with the page and page size as given. */
  function PatientsRequest(page: int, perPage: int): (r: Request)
    ensures r.verb == Get && r.url == PatientsPath && r.body == NoBody
    ensures r.params == [("page", IntParam(page)), ("per_page", IntParam(perPage)),
                         ("sort_by", StrParam("created_at")), ("sort_order", StrParam("desc"))]
  {
    NewRequest(Get, PatientsPath,
      [("page", IntParam(page)), ("per_page", IntParam(perPage)),
       ("sort_by", StrParam("created_at")), ("sort_order", StrParam("desc"))],
      NoBody)
  }

  function PatientDetailsRequest(patientId: int): (r: Request)
    ensures r.verb == Get && r.url == PatientsPath + "/" + IntToString(patientId) && r.params == [] && r.body == NoBody
  {
    NewRequest(Get, PatientsPath + "/" + IntToString(patientId), [], NoBody)
  }

  function UpdateStatusRequest(patientId: int, status: string): (r: Request)
    ensures r.verb == Put && r.url == PatientsPath + "/" + IntToString(patientId) + "/status"
    ensures r.params == [] && r.body == StatusBody(status)
  {
    NewRequest(Put, PatientsPath + "/" + IntToString(patientId) + "/status", [], StatusBody(status))
  }

  /** The query function of `useDashboardStats`. */
  function FetchDashboardStats<T>(isAuthenticated: bool, storage: map<string, string>, reply: Result<Envelope<T>, HttpError>): (a: Attempt<T>)
    ensures !isAuthenticated ==> a == Attempt(None, Failure(NotAuthenticated))
    ensures isAuthenticated ==> a.sent == Some(WithAuthorization(storage, StatsRequest()))
    ensures isAuthenticated ==> Target(a.sent.value) == BaseUrl + StatsPath
    ensures isAuthenticated && reply.Success? ==> a.result == Success(reply.value.data)
    ensures isAuthenticated && reply.Failure? ==> a.result == Failure(RequestFailed(reply.error))
  {
    Run(isAuthenticated, storage, StatsRequest(), reply)
  }

  /** The query function of `useRecentPatients`. */
  function FetchRecentPatients<T>(isAuthenticated: bool, storage: map<string, string>, page: int, perPage: int, reply: Result<Envelope<T>, HttpError>): (a: Attempt<T>)
    ensures !isAuthenticated ==> a == Attempt(None, Failure(NotAuthenticated))
    ensures isAuthenticated ==> a.sent == Some(WithAuthorization(storage, PatientsRequest(page, perPage)))
    ensures isAuthenticated ==> Target(a.sent.value) == BaseUrl + PatientsPath
    ensures isAuthenticated && reply.Success? ==> a.result == Success(reply.value.data)
    ensures isAuthenticated && reply.Failure? ==> a.result == Failure(RequestFailed(reply.error))
  {
    Run(isAuthenticated, storage, PatientsRequest(page, perPage), reply)
  }

  /** The query function of `usePatientDetails`. */
  function FetchPatientDetails<T>(isAuthenticated: bool, storage: map<string, string>, patientId: int, reply: Result<Envelope<T>, HttpError>): (a: Attempt<T>)
    ensures !isAuthenticated ==> a == Attempt(None, Failure(NotAuthenticated))
    ensures isAuthenticated ==> a.sent == Some(WithAuthorization(storage, PatientDetailsRequest(patientId)))
    ensures isAuthenticated ==> Target(a.sent.value) == BaseUrl + PatientsPath + "/" + IntToString(patientId)
    ensures isAuthenticated && reply.Success? ==> a.result == Success(reply.value.data)
    ensures isAuthenticated && reply.Failure? ==> a.result == Failure(RequestFailed(reply.error))
  {
    Run(isAuthenticated, storage, PatientDetailsRequest(patientId), reply)
  }

  /** `mutate` of `useUpdatePatientStatus`; the reply body is returned whole, so its envelope is the payload. */
  function UpdatePatientStatus<T>(isAuthenticated: bool, storage: map<string, string>, patientId: int, status: string, reply: Result<T, HttpError>): (a: Attempt<T>)
    ensures !isAuthenticated ==> a == Attempt(None, Failure(NotAuthenticated))
    ensures isAuthenticated ==> a.sent == Some(WithAuthorization(storage, UpdateStatusRequest(patientId, status)))
    ensures isAuthenticated && reply.Success? ==> a.result == Success(reply.value)
    ensures isAuthenticated && reply.Failure? ==> a.result == Failure(RequestFailed(reply.error))
  {
    if !isAuthenticated then Attempt(None, Failure(NotAuthenticated))
    else
      var sent := Some(WithAuthorization(storage, UpdateStatusRequest(patientId, status)));
      match reply
      case Success(body) => Attempt(sent, Success(body))
      case Failure(e) => Attempt(sent, Failure(RequestFailed(e)))
  }

  /**
   * A query that is not enabled cannot reach the network through its own
   * query function: every query is enabled only when authenticated, and an
   * unauthenticated query function sends nothing and fails with
   * `User not authenticated`.
   */
  lemma DisabledQueriesSendNothing<T>(isAuthenticated: bool, storage: map<string, string>, page: int, perPage: int, patientId: int, reply: Result<Envelope<T>, HttpError>)
    ensures DashboardStatsQuery(isAuthenticated).enabled || FetchDashboardStats(isAuthenticated, storage, reply).sent.None?
    ensures RecentPatientsQuery(isAuthenticated, page, perPage).enabled || FetchRecentPatients(isAuthenticated, storage, page, perPage, reply).sent.None?
    ensures !isAuthenticated ==> !PatientDetailsQuery(isAuthenticated, patientId).enabled
    ensures !isAuthenticated ==> FetchPatientDetails(isAuthenticated, storage, patientId, reply) == Attempt(None, Failure(NotAuthenticated))
    ensures PatientDetailsQuery(isAuthenticated, patientId).enabled ==> FetchPatientDetails(isAuthenticated, storage, patientId, reply).sent.Some?
  {
  }

  /** An authenticated query sends the bearer token that is in storage at the time of the request. */
  lemma SentRequestsCarryStoredToken<T>(storage: map<string, string>, page: int, perPage: int, reply: Result<Envelope<T>, HttpError>)
    requires AuthTokenKey in storage && storage[AuthTokenKey] != ""
    ensures var a := FetchRecentPatients(true, storage, page, perPage, reply);
            a.sent.Some? && a.sent.value.headers[AuthorizationHeader] == BearerPrefix + storage[AuthTokenKey]
            && a.sent.value.params == PatientsRequest(page, perPage).params
  {
  }
}
