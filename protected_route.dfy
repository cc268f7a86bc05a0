/** The route guard in front of the search page. */
module ProtectedRoute {
  import opened Wrappers

  const LoadingText: string := "Loading..."
  const LoginPath: string := "/"
  const SessionExpiredMessage: string := "Your session expired. Please log in again."

  /** What the guard renders: the placeholder, a redirect carrying a message, or the protected children. */
  datatype View = Placeholder(text: string) | Redirect(to: string, message: string, replace: bool) | Children

  /**
   * The render decision for the `isAuthenticated` cell: null (checking) shows the placeholder,
   * `false` redirects to the login route replacing the history entry, `true` shows the children.
   */
  function Decide(isAuthenticated: Option<bool>): (v: View)
    ensures v.Placeholder? <==> isAuthenticated.None?
    ensures v.Children? <==> isAuthenticated == Some(true)
    ensures v.Redirect? <==> isAuthenticated == Some(false)
    ensures v.Placeholder? ==> v.text == LoadingText
    ensures v.Redirect? ==> v.to == LoginPath && v.message == SessionExpiredMessage && v.replace
  {
    match isAuthenticated
    case None => Placeholder(LoadingText)
    case Some(authenticated) =>
      if !authenticated then Redirect(LoginPath, SessionExpiredMessage, true) else Children
  }

  /** The value the mount effect stores: the probe's answer, or `false` when the probe throws. */
  function ProbeResult(probe: Outcome<bool>): (authenticated: bool)
    ensures authenticated <==> probe == Ok(true)
  {
    match probe
    case Ok(b) => b
    case Err(_) => false
  }

  /** A probe that throws ends in the redirect, whatever it threw. */
  lemma FailClosed(f: Failure)
    ensures Decide(Some(ProbeResult(Err(f)))) == Redirect(LoginPath, SessionExpiredMessage, true)
  {
  }

  /** `ProtectedRoute`: the `isAuthenticated` cell and whether the mount effect has run. */
  class Guard {
    var isAuthenticated: Option<bool>
    ghost var mounted: bool

    /** The first render: checking. */
    constructor ()
      ensures isAuthenticated.None? && !mounted
      ensures Render() == Placeholder(LoadingText)
    {
      isAuthenticated := None;
      mounted := false;
    }

    /** The mount effect, which runs once: the probe's answer is stored as it is; a thrown probe stores `false`. */
    method CheckAuth(probe: Outcome<bool>)
      requires !mounted
      modifies this
      ensures mounted
      ensures isAuthenticated == Some(ProbeResult(probe))
      ensures Render() == (if probe == Ok(true) then Children else Redirect(LoginPath, SessionExpiredMessage, true))
    {
      match probe {
        case Ok(authenticated) => isAuthenticated := Some(authenticated);
        case Err(_) => isAuthenticated := Some(false);
      }
      mounted := true;
    }

    function Render(): View
      reads this
    {
      Decide(isAuthenticated)
    }
  }
}
