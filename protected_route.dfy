/** The route guard of `src/components/ProtectedRoute.tsx`. */
module ProtectedRoute {
  import Api

  /** What the guard renders. A redirect names its target, the location
      it came from (`state.from`) and whether it replaces the history entry. */
  datatype View = Spinner | RedirectTo(to: string, from: string, replace: bool) | Outlet


  function Guard(isLoading: bool, isAuthenticated: bool, location: string): (v: View)
    ensures v.Spinner? <==> isLoading
    ensures v.RedirectTo? <==> !isLoading && !isAuthenticated
    ensures v.Outlet? <==> !isLoading && isAuthenticated
    ensures v.RedirectTo? ==> v == RedirectTo(Api.LoginPath, location, true)
  {
    if isLoading then Spinner
    else if !isAuthenticated then RedirectTo(Api.LoginPath, location, true)
    else Outlet
  }
}
