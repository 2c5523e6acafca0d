/** The guard placed in front of every protected route. */
module ProtectedRoute {
  import opened Wrappers
  import opened Session

  /** What the guard renders. */
  datatype View =
    | Spinner                            // the full-screen "Loading dashboard..." panel
    | Redirect(to: string, replace: bool) // `<Navigate to=... replace />`
    | Outlet                             // the nested protected route

  /** The entry point unauthenticated visitors are sent to: the login page. */
  const LoginPath: string := "/"

  /**
   * The guard's decision on the context's `(loading, user)`: wait while the
   * session is being restored, then let a signed-in user through and send
   * everyone else to the login page without leaving a history entry.
   */
  function Decide(loading: bool, user: Option<User>): (v: View)
    ensures loading ==> v == Spinner
    ensures !loading && user == None ==> v == Redirect(LoginPath, true)
    ensures !loading && user != None ==> v == Outlet
    ensures v == Outlet <==> !loading && user.Some?
  {
    if loading then Spinner
    else if user.None? then Redirect(LoginPath, true)
    else Outlet
  }
}
