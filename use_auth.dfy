/** The authentication context of `src/hooks/useAuth.tsx`: the provider's
    `isAuthenticated` and `isLoading` state, the mount check of the stored
    token, `login`, `register` and `logout`, and the `useAuth` guard. */
module UseAuth {
  import opened Wrappers
  import opened Types
  import opened Http
  import Api

  const LoginSuccessText := "Login successful!"
  const RegisterSuccessText := "Registration successful! Please login."
  const LogoutText := "You have been logged out"
  const DashboardPath := "/dashboard"
  const MissingProviderText := "useAuth must be used within an AuthProvider"

  /** Everything the provider's `login` adds to the log: the exchange and,
      only on success, the toast and the move to the dashboard. */
  function LoginEvents(token: Option<string>, email: string, password: string,
                       outcome: Result<LoginReply, Failure>): seq<Event> {
    Api.RequestEvents(token, Api.LoginRequest(email, password), outcome)
    + if outcome.Success? then [Toast(SuccessToast, LoginSuccessText), Navigate(DashboardPath)] else []
  }

  /** Everything the provider's `register` adds to the log. */
  function RegisterEvents(token: Option<string>, branch: BranchData, user: UserData,
                          outcome: Result<(), Failure>): seq<Event> {
    Api.RequestEvents(token, Api.RegisterRequest(branch, user), outcome)
    + if outcome.Success? then [Toast(SuccessToast, RegisterSuccessText), Navigate(Api.LoginPath)] else []
  }

  /** A failed login never reaches the router; only a 401 changes the page,
      through the interceptor's redirect to the login page. */
  lemma FailedLoginStaysPut(token: Option<string>, email: string, password: string,
                            outcome: Result<LoginReply, Failure>)
    requires outcome.Failure?
    ensures forall e | e in LoginEvents(token, email, password, outcome) :: !e.Navigate?
    ensures Redirect(Api.LoginPath) in LoginEvents(token, email, password, outcome)
        <==> Api.Unauthorized(outcome.error)
  {
    Api.RedirectOnlyOn401(token, Api.LoginRequest(email, password), outcome);
  }

  class AuthProvider {
    const world: World
    var isAuthenticated: bool
    var isLoading: bool

    /** First render: not authenticated, still loading. */
    constructor (world: World)
      ensures this.world == world
      ensures !isAuthenticated && isLoading
    {
      this.world := world;
      isAuthenticated := false;
      isLoading := true;
    }

    /** The mount effect `checkAuth`. */
    method CheckAuth()
      modifies this
      ensures isAuthenticated == Api.Truthy(world.token)
      ensures !isLoading
    {
      var token := world.token;
      isAuthenticated := Api.Truthy(token);
      isLoading := false;
    }

    /** `login`: its failure is caught and not rethrown. */
    method Login(email: string, password: string, outcome: Result<LoginReply, Failure>)
      modifies this, world
      ensures !isLoading
      ensures isAuthenticated == (outcome.Success? || old(isAuthenticated))
      ensures outcome.Success? ==> world.token == Some(outcome.value.token)
      ensures outcome.Failure? ==> world.token == Api.TokenAfter(old(world.token), outcome)
      ensures world.events == old(world.events) + LoginEvents(old(world.token), email, password, outcome)
    {
      isLoading := true;
      var r := Api.Login(world, email, password, outcome);
      if r.Success? {
        isAuthenticated := true;
        world.events := world.events + [Toast(SuccessToast, LoginSuccessText)];
        world.events := world.events + [Navigate(DashboardPath)];
      }
      isLoading := false;
    }

    /** `register`: the session is left as it was; success leads to the login page. */
    method Register(branch: BranchData, user: UserData, outcome: Result<(), Failure>)
      modifies this, world
      ensures !isLoading
      ensures isAuthenticated == old(isAuthenticated)
      ensures world.token == Api.TokenAfter(old(world.token), outcome)
      ensures world.events == old(world.events) + RegisterEvents(old(world.token), branch, user, outcome)
    {
      isLoading := true;
      var r := Api.Register(world, branch, user, outcome);
      if r.Success? {
        world.events := world.events + [Toast(SuccessToast, RegisterSuccessText)];
        world.events := world.events + [Navigate(Api.LoginPath)];
      }
      isLoading := false;
    }

    /** `logout`. */
    method Logout()
      modifies this, world
      ensures !isAuthenticated && isLoading == old(isLoading)
      ensures world.token == None
      ensures world.events == old(world.events) + [Redirect(Api.LoginPath), Toast(InfoToast, LogoutText)]
    {
      Api.Logout(world);
      isAuthenticated := false;
      world.events := world.events + [Toast(InfoToast, LogoutText)];
    }
  }

  /** `useAuth()`: the provider's value, or the error thrown outside a provider. */
  function UseAuth<C>(context: Option<C>): (r: Result<C, string>)
    ensures r.Success? <==> context.Some?
    ensures context.Some? ==> r.value == context.value
    ensures context.None? ==> r.error == MissingProviderText
  {
    match context
    case Some(c) => Success(c)
    case None => Failure(MissingProviderText)
  }
}
