/**
 * The login form: its field state, the validation in `handleLogin` (a
 * non-blank email that matches the login pattern, and a password of at least
 * six characters), the single mutation it then issues with the email exactly
 * as typed, and the choice of the error banner's text.
 */
module LoginPage {
  import opened Wrappers
  import opened Text
  import opened Http
  import opened Browser
  import opened Auth
  import opened LoginHook
  import opened EmailPatterns

  const MinPasswordLength := 6
  const InvalidCredentialsMessage := "Invalid credentials. Please try again."

  /** `email.trim()` is non-empty and `/\S+@\S+\.\S+/` matches somewhere in `email`. */
  predicate EmailAccepted(email: string) {
    Trim(email) != "" && LoginPattern(email)
  }

  /** `password` is non-empty and its `length`, in UTF-16 code units, is at least six. */
  predicate PasswordAccepted(password: string) {
    password != "" && Utf16Length(password) >= MinPasswordLength
  }

  predicate CanSubmit(email: string, password: string) {
    EmailAccepted(email) && PasswordAccepted(password)
  }

  /** The blank-email check is subsumed by the pattern, and the password check is a length bound alone. */
  lemma ValidationReduces(email: string, password: string)
    ensures CanSubmit(email, password) <==> LoginPattern(email) && Utf16Length(password) >= MinPasswordLength
  {
    if LoginPattern(email) {
      LoginPatternIsNotBlank(email);
    }
  }

  /**
   * Three characters outside the Basic Multilingual Plane are six UTF-16 code
   * units, so they pass the six-character check; five ASCII characters do not.
   */
  lemma PasswordCountsCodeUnits()
    ensures PasswordAccepted("\U{1F600}\U{1F600}\U{1F600}")
    ensures !PasswordAccepted("abcde")
  {
    assert Utf16Length("\U{1F600}\U{1F600}\U{1F600}") == 6 by {
      var s := "\U{1F600}\U{1F600}\U{1F600}";
      assert s[1..][1..][1..] == "";
    }
  }

  /** The state React Query keeps for the login mutation, as far as the page reads it. */
  datatype MutationState = Idle | Succeeded(response: LoginResponse) | Failed(error: HttpError)

  /** The error banner: shown only after a failure, with the error's message or the fixed fallback. */
  function ErrorBanner(state: MutationState): (banner: Option<string>)
    ensures banner.Some? <==> state.Failed?
    ensures state.Failed? && state.error.message != "" ==> banner == Some(state.error.message)
    ensures state.Failed? && state.error.message == "" ==> banner == Some(InvalidCredentialsMessage)
  {
    match state
    case Failed(e) => Some(if e.message != "" then e.message else InvalidCredentialsMessage)
    case _ => None
  }

  /** The login page: the two fields, the password-visibility toggle, and the mutation it drives. */
  class LoginForm {
    const client: LoginClient
    var email: string
    var password: string
    var showPassword: bool
    var mutation: MutationState

    constructor (client: LoginClient)
      ensures this.client == client
      ensures email == "" && password == "" && !showPassword && mutation == Idle
    {
      this.client := client;
      email := "";
      password := "";
      showPassword := false;
      mutation := Idle;
    }

    method SetEmail(value: string)
      modifies this
      ensures email == value && password == old(password) && showPassword == old(showPassword) && mutation == old(mutation)
    {
      email := value;
    }

    method SetPassword(value: string)
      modifies this
      ensures password == value && email == old(email) && showPassword == old(showPassword) && mutation == old(mutation)
    {
      password := value;
    }

    method ToggleShowPassword()
      modifies this
      ensures showPassword == !old(showPassword)
      ensures email == old(email) && password == old(password) && mutation == old(mutation)
    {
      showPassword := !showPassword;
    }

    /**
     * `handleLogin`: with invalid input nothing happens; otherwise exactly one
     * mutation is issued with the untrimmed email, and its failure is caught.
     * The page sits inside the auth provider `context`, which it never updates:
     * a successful login only reaches storage.
     */
    method HandleLogin(reply: Result<LoginResponse, HttpError>, stringify: User -> string, ghost context: AuthProvider)
      returns (sent: Option<Request>)
      requires context.win == client.win
      modifies this, client, client.win
      ensures email == old(email) && password == old(password) && showPassword == old(showPassword)
      ensures sent.Some? <==> CanSubmit(email, password)
      ensures sent.Some? ==> sent.value == old(client.LoginRequest(Credentials(email, password)))
      ensures !CanSubmit(email, password) ==>
                mutation == old(mutation) && client.win.storage == old(client.win.storage)
                && client.win.log == old(client.win.log) && client.commonHeaders == old(client.commonHeaders)
      ensures CanSubmit(email, password) && reply.Success? ==>
                mutation == Succeeded(reply.value)
                && client.win.storage == SaveSession(old(client.win.storage), reply.value.data.token, stringify(reply.value.data.user))
                && client.win.log == old(client.win.log) + [SetItem(AuthTokenKey, reply.value.data.token), SetItem(UserDataKey, stringify(reply.value.data.user))]
                && client.commonHeaders == old(client.commonHeaders)[AuthorizationHeader := BearerPrefix + reply.value.data.token]
      ensures CanSubmit(email, password) && reply.Failure? ==>
                mutation == Failed(reply.error) && client.win.storage == old(client.win.storage)
                && client.win.log == old(client.win.log) && client.commonHeaders == old(client.commonHeaders)
      ensures context.CurrentSession() == old(context.CurrentSession()) && context.isLoading == old(context.isLoading)
    {
      if !EmailAccepted(email) {
        return None;
      }
      if !PasswordAccepted(password) {
        return None;
      }
      var request, result := client.Mutate(Credentials(email, password), reply, stringify);
      sent := Some(request);
      match result
      case Success(response) =>
        mutation := Succeeded(response);
      case Failure(error) =>
        mutation := Failed(error);
    }
  }
}
