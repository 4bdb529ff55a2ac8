/** The session-aware API client of `src/services/api.ts`: the request
    interceptor that attaches the bearer token, the response interceptor
    that ends the session on a 401, `makeRequest`'s notification and
    rethrow, the authentication service and the one-descriptor service
    wrappers.  The browser state is a `World`; the server's answer to each
    request is a parameter. */
module Api {
  import opened Wrappers
  import opened Types
  import opened Http

  const SessionExpiredText := "Session expired. Please login again."
  const FallbackText := "An error occurred"
  const UnexpectedText := "An unexpected error occurred"
  const LoginPath := "/login"

  /** JavaScript truthiness of an optional string: present and not empty.
      `authService.isAuthenticated()` is `Truthy` of the stored token. */
  predicate Truthy(s: Option<string>) {
    s.Some? && s.value != ""
  }

  /** The header the request interceptor attaches for the stored token. */
  function AuthorizationHeader(token: Option<string>): (h: Option<string>)
    ensures h.Some? <==> Truthy(token)
    ensures h.Some? ==> h.value == "Bearer " + token.value
  {
    if Truthy(token) then Some("Bearer " + token.value) else None
  }

  /** How a server reads a bearer credential back out of the header. */
  function BearerToken(header: string): (t: Option<string>)
    ensures t.Some? ==> "Bearer " + t.value == header
  {
    if |header| >= 7 && header[..7] == "Bearer " then Some(header[7..]) else None
  }

  /** The header carries exactly the stored token, and nothing is attached
      for a session that `isAuthenticated` calls inactive. */
  lemma AuthorizationCarriesToken(token: Option<string>)
    ensures Truthy(token) ==> BearerToken(AuthorizationHeader(token).value) == token
    ensures !Truthy(token) ==> AuthorizationHeader(token) == None
  {
    if Truthy(token) {
      var h := "Bearer " + token.value;
      assert h[..7] == "Bearer ";
      assert h[7..] == token.value;
    }
  }

  /** The response interceptor's test `error.response?.status === 401`. */
  predicate Unauthorized(e: Failure) {
    e.AxiosFailure? && e.response.Some? && e.response.value.status == 401
  }

  /** `error.response?.data?.message || error.message || 'An error occurred'`. */
  function AxiosMessage(response: Option<ErrorResponse>, message: string): (m: string)
    ensures m != ""
    ensures response.Some? && Truthy(response.value.message) ==> m == response.value.message.value
    ensures !(response.Some? && Truthy(response.value.message)) && message != "" ==> m == message
    ensures !(response.Some? && Truthy(response.value.message)) && message == "" ==> m == FallbackText
  {
    if response.Some? && Truthy(response.value.message) then response.value.message.value
    else if message != "" then message
    else FallbackText
  }

  /** The text `makeRequest` toasts for a failure. */
  function FailureText(e: Failure): (m: string)
    ensures m != ""
    ensures e.OtherFailure? ==> m == UnexpectedText
  {
    match e
    case AxiosFailure(response, message) => AxiosMessage(response, message)
    case OtherFailure => UnexpectedText
  }

  /** What the user sees once the answer to a request arrives: nothing on
      success; on failure the interceptor's 401 handling (when it applies)
      and then `makeRequest`'s toast. */
  function ResponseEvents<T>(outcome: Result<T, Failure>): (r: seq<Event>)
    ensures outcome.Success? <==> r == []
    ensures outcome.Failure? ==> r[|r| - 1] == Toast(ErrorToast, FailureText(outcome.error))
    ensures outcome.Failure? ==> (|r| == 3 <==> Unauthorized(outcome.error))
    ensures outcome.Failure? && !Unauthorized(outcome.error) ==> |r| == 1
  {
    match outcome
    case Success(_) => []
    case Failure(e) =>
      (if Unauthorized(e) then [Toast(ErrorToast, SessionExpiredText), Redirect(LoginPath)] else [])
      + [Toast(ErrorToast, FailureText(e))]
  }

  /** Everything one `makeRequest` call adds to the log. */
  function RequestEvents<T>(token: Option<string>, d: Descriptor, outcome: Result<T, Failure>): seq<Event> {
    [Sent(Request(d, AuthorizationHeader(token)))] + ResponseEvents(outcome)
  }

  /** The stored token once the answer has been handled. */
  function TokenAfter<T>(token: Option<string>, outcome: Result<T, Failure>): (t: Option<string>)
    ensures t == None || t == token
    ensures outcome.Success? || !Unauthorized(outcome.error) ==> t == token
    ensures outcome.Failure? && Unauthorized(outcome.error) ==> t == None
  {
    if outcome.Failure? && Unauthorized(outcome.error) then None else token
  }

  /** Every call sends exactly one request, carrying the header for the
      token stored when it was sent. */
  lemma OneRequestPerCall<T>(token: Option<string>, d: Descriptor, outcome: Result<T, Failure>)
    ensures Requests(RequestEvents(token, d, outcome)) == [Request(d, AuthorizationHeader(token))]
  {
    var tail := ResponseEvents(outcome);
    assert RequestEvents(token, d, outcome) == [Sent(Request(d, AuthorizationHeader(token)))] + tail;
    RequestsAppend([Sent(Request(d, AuthorizationHeader(token)))], tail);
    NoRequests(tail);
  }

  /** A success is silent; a failure is toasted exactly once by
      `makeRequest`, after the "session expired" toast when it was a 401. */
  lemma NotificationsPerCall<T>(token: Option<string>, d: Descriptor, outcome: Result<T, Failure>)
    ensures outcome.Success? ==> Toasts(RequestEvents(token, d, outcome)) == []
    ensures outcome.Failure? && !Unauthorized(outcome.error) ==>
      Toasts(RequestEvents(token, d, outcome)) == [Toast(ErrorToast, FailureText(outcome.error))]
    ensures outcome.Failure? && Unauthorized(outcome.error) ==>
      Toasts(RequestEvents(token, d, outcome)) ==
        [Toast(ErrorToast, SessionExpiredText), Toast(ErrorToast, FailureText(outcome.error))]
  {
    var head := [Sent(Request(d, AuthorizationHeader(token)))];
    ToastsAppend(head, ResponseEvents(outcome));
    if outcome.Failure? {
      var e := outcome.error;
      if Unauthorized(e) {
        var a := [Toast(ErrorToast, SessionExpiredText), Redirect(LoginPath)];
        ToastsAppend(a, [Toast(ErrorToast, FailureText(e))]);
      }
    }
  }

  /** A 401 is the only answer that sends the user to the login page. */
  lemma RedirectOnlyOn401<T>(token: Option<string>, d: Descriptor, outcome: Result<T, Failure>)
    ensures Redirect(LoginPath) in RequestEvents(token, d, outcome)
        <==> outcome.Failure? && Unauthorized(outcome.error)
  {
  }

  /** The request interceptor, then the transport: one request goes out. */
  method Dispatch(w: World, d: Descriptor)
    modifies w
    ensures w.token == old(w.token)
    ensures w.events == old(w.events) + [Sent(Request(d, AuthorizationHeader(old(w.token))))]
  {
    var token := w.token;
    var authorization := None;
    if Truthy(token) {
      authorization := Some("Bearer " + token.value);
    }
    w.events := w.events + [Sent(Request(d, authorization))];
  }

  /** The response interceptor, then `makeRequest`'s `catch`: the answer
      is handed back unchanged, a failure after its notifications. */
  method Receive<T>(w: World, outcome: Result<T, Failure>) returns (r: Result<T, Failure>)
    modifies w
    ensures r == outcome
    ensures w.token == TokenAfter(old(w.token), outcome)
    ensures w.events == old(w.events) + ResponseEvents(outcome)
  {
    r := outcome;
    if outcome.Failure? {
      var e := outcome.error;
      if Unauthorized(e) {
        w.token := None;
        w.events := w.events + [Toast(ErrorToast, SessionExpiredText)];
        w.events := w.events + [Redirect(LoginPath)];
      }
      if e.AxiosFailure? {
        w.events := w.events + [Toast(ErrorToast, AxiosMessage(e.response, e.message))];
      } else {
        w.events := w.events + [Toast(ErrorToast, UnexpectedText)];
      }
    }
  }

  /** `makeRequest(config)`, given the server's answer to it. */
  method MakeRequest<T>(w: World, d: Descriptor, outcome: Result<T, Failure>) returns (r: Result<T, Failure>)
    modifies w
    ensures r == outcome
    ensures w.token == TokenAfter(old(w.token), outcome)
    ensures w.events == old(w.events) + RequestEvents(old(w.token), d, outcome)
  {
    Dispatch(w, d);
    r := Receive(w, outcome);
  }

  /** `authService.login`: the returned token is stored only once the
      request has succeeded. */
  method Login(w: World, email: string, password: string, outcome: Result<LoginReply, Failure>)
    returns (r: Result<LoginReply, Failure>)
    modifies w
    ensures r == outcome
    ensures outcome.Success? ==> w.token == Some(outcome.value.token)
    ensures outcome.Failure? ==> w.token == TokenAfter(old(w.token), outcome)
    ensures w.events == old(w.events) + RequestEvents(old(w.token), LoginRequest(email, password), outcome)
  {
    r := MakeRequest(w, LoginRequest(email, password), outcome);
    if r.Success? {
      w.token := Some(r.value.token);
    }
  }

  /** `authService.register`: no token is stored by registering. */
  method Register(w: World, branch: BranchData, user: UserData, outcome: Result<(), Failure>)
    returns (r: Result<(), Failure>)
    modifies w
    ensures r == outcome
    ensures w.token == TokenAfter(old(w.token), outcome)
    ensures w.events == old(w.events) + RequestEvents(old(w.token), RegisterRequest(branch, user), outcome)
  {
    r := MakeRequest(w, RegisterRequest(branch, user), outcome);
  }

  /** `authService.logout`: no request, the token goes, the page changes. */
  method Logout(w: World)
    modifies w
    ensures w.token == None
    ensures w.events == old(w.events) + [Redirect(LoginPath)]
  {
    w.token := None;
    w.events := w.events + [Redirect(LoginPath)];
  }

  // The service wrappers: each builds one descriptor for `makeRequest`.

  function LoginRequest(email: string, password: string): Descriptor {
    Descriptor(Post, Route("/auth/login", None), Some(Credentials(email, password)))
  }
  function RegisterRequest(branch: BranchData, user: UserData): Descriptor {
    Descriptor(Post, Route("/auth/register", None), Some(Registration(branch, user)))
  }
  function DashboardStats(): Descriptor {
    Descriptor(Get, Route("/dashboard", None), None)
  }
  function AllBranches(): Descriptor {
    Descriptor(Get, Route("/branches", None), None)
  }
  function GetBranch(id: int): Descriptor {
    Descriptor(Get, Route("/branches", Some(id)), None)
  }
  function UpdateBranch(id: int, data: BranchData): Descriptor {
    Descriptor(Put, Route("/branches", Some(id)), Some(BranchFields(data)))
  }
  function DeleteBranch(id: int): Descriptor {
    Descriptor(Delete, Route("/branches", Some(id)), None)
  }
  function AllUsers(): Descriptor {
    Descriptor(Get, Route("/users", None), None)
  }
  function Profile(): Descriptor {
    Descriptor(Get, Route("/user/profile", None), None)
  }
  function GetUser(id: int): Descriptor {
    Descriptor(Get, Route("/users", Some(id)), None)
  }
  function UpdateUser(id: int, data: UserEdit): Descriptor {
    Descriptor(Put, Route("/users", Some(id)), Some(UserFields(data)))
  }
  function DeleteUser(id: int): Descriptor {
    Descriptor(Delete, Route("/users", Some(id)), None)
  }
  function AllWorkouts(): Descriptor {
    Descriptor(Get, Route("/workouts", None), None)
  }
  function GetWorkout(id: int): Descriptor {
    Descriptor(Get, Route("/workouts", Some(id)), None)
  }
  function AddWorkout(data: WorkoutData): Descriptor {
    Descriptor(Post, Route("/workouts", None), Some(WorkoutFields(data)))
  }
  function UpdateWorkout(id: int, data: WorkoutData): Descriptor {
    Descriptor(Put, Route("/workouts", Some(id)), Some(WorkoutFields(data)))
  }
  function DeleteWorkout(id: int): Descriptor {
    Descriptor(Delete, Route("/workouts", Some(id)), None)
  }
}
