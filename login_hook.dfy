/**
 * `useLogin`: a mutation on its own axios client (separate from the dashboard
 * client, and without its interceptors). It posts the credentials to `/login`;
 * on success it writes the token and the serialised user to storage and sets
 * the client's common `Authorization` header. It never touches the session
 * context, and on failure it only logs.
 */
module LoginHook {
  import opened Wrappers
  import opened Browser
  import opened Http
  import opened Auth

  const LoginEndpoint := "/login"

  datatype Credentials = Credentials(email: string, password: string)

  datatype LoginData = LoginData(user: User, token: string, tokenType: string)

  datatype LoginResponse = LoginResponse(data: LoginData, message: string, status: int)

  /**
   * The login client: its window and `api.defaults.headers.common`. The
   * library's own common `Accept` default is left out, because the instance's
   * JSON `Accept` header always overrides it.
   */
  class LoginClient {
    const win: Window
    var commonHeaders: map<string, string>

    constructor (win: Window)
      ensures this.win == win && commonHeaders == map[]
    {
      this.win := win;
      commonHeaders := map[];
    }

    /** The request the mutation hands to the client: the credentials as a JSON body. */
    function LoginRequest(credentials: Credentials): (r: Request)
      reads this
      ensures r.verb == Post && r.url == LoginEndpoint && r.params == []
      ensures r.body == CredentialsBody(credentials.email, credentials.password)
      ensures r.headers.Keys == commonHeaders.Keys + JsonHeaders.Keys
      ensures forall h :: h in JsonHeaders ==> r.headers[h] == JsonHeaders[h]
      ensures forall h :: h in commonHeaders && h !in JsonHeaders ==> r.headers[h] == commonHeaders[h]
    {
      Request(Post, LoginEndpoint, [], CredentialsBody(credentials.email, credentials.password), commonHeaders + JsonHeaders)
    }

    /** `onSuccess`: store the token and the user, and remember the bearer header on this client. */
    method OnSuccess(response: LoginResponse, stringify: User -> string)
      modifies this, win
      ensures win.storage == SaveSession(old(win.storage), response.data.token, stringify(response.data.user))
      ensures win.log == old(win.log) + [SetItem(AuthTokenKey, response.data.token), SetItem(UserDataKey, stringify(response.data.user))]
      ensures commonHeaders == old(commonHeaders)[AuthorizationHeader := BearerPrefix + response.data.token]
    {
      win.SetItem(AuthTokenKey, response.data.token);
      win.SetItem(UserDataKey, stringify(response.data.user));
      commonHeaders := commonHeaders[AuthorizationHeader := BearerPrefix + response.data.token];
    }

    /**
     * One run of the mutation: send the login request, and with the server's
     * `reply` (the network is a parameter) run `onSuccess` or `onError`. The
     * response body is returned, or the error rethrown to the caller.
     */
    method Mutate(credentials: Credentials, reply: Result<LoginResponse, HttpError>, stringify: User -> string)
      returns (sent: Request, result: Result<LoginResponse, HttpError>)
      modifies this, win
      ensures sent == old(LoginRequest(credentials))
      ensures result == reply
      ensures reply.Success? ==>
                win.storage == SaveSession(old(win.storage), reply.value.data.token, stringify(reply.value.data.user))
                && win.log == old(win.log) + [SetItem(AuthTokenKey, reply.value.data.token), SetItem(UserDataKey, stringify(reply.value.data.user))]
                && commonHeaders == old(commonHeaders)[AuthorizationHeader := BearerPrefix + reply.value.data.token]
      ensures reply.Failure? ==> win.storage == old(win.storage) && win.log == old(win.log) && commonHeaders == old(commonHeaders)
    {
      sent := LoginRequest(credentials);
      if reply.Success? {
        OnSuccess(reply.value, stringify);
      }
      result := reply;
    }
  }

  /** After a successful login the stored session is one the next mount of the provider restores. */
  lemma SuccessfulLoginIsRestorable(codec: JsonCodec, storage: map<string, string>, response: LoginResponse, current: Session)
    requires RoundTrips(codec)
    requires response.data.token != ""
    ensures var saved := SaveSession(storage, response.data.token, codec.stringify(response.data.user));
            var r := RestoreStep(saved, current, codec.parse);
            r.session == Session(Some(response.data.token), Some(response.data.user))
            && IsAuthenticated(r.session.token, r.session.user)
  {
    LoginThenRestore(codec, storage, response.data.token, response.data.user, current);
  }
}
