/**
 * providers/AuthProvider.tsx: `AuthGuard` wraps every signed-in page. It
 * shows a spinner while the user query loads, nothing when it finished
 * without a user, and the page otherwise; its effect sends the browser to
 * the sign-in page when there is no token or no user.
 */
module AuthGuard {
  import opened Wrappers
  import opened Types

  const SignInPath: string := "/masuk"

  datatype View = Spinner | Nothing | Children

  /** `!!data`. */
  predicate IsAuthenticated(data: Option<User>) {
    data.Some?
  }

  /** The render: spinner while loading, nothing without data, the children otherwise. */
  function Render(isLoading: bool, data: Option<User>): (v: View)
    ensures v == Spinner <==> isLoading
    ensures v == Nothing <==> !isLoading && !IsAuthenticated(data)
    ensures v == Children <==> !isLoading && IsAuthenticated(data)
  {
    if isLoading then Spinner
    else if data.None? then Nothing
    else Children
  }

  /** Whether the effect redirects: no token, or a finished query without a user. */
  function RedirectTarget(hasToken: bool, isLoading: bool, data: Option<User>): (target: Option<string>)
    ensures target.Some? ==> target.value == SignInPath
    ensures !hasToken ==> target == Some(SignInPath)
    ensures target.Some? <==> !hasToken || (!IsAuthenticated(data) && !isLoading)
  {
    if !hasToken then Some(SignInPath)
    else if !IsAuthenticated(data) && !isLoading then Some(SignInPath)
    else None
  }

  /** Whenever the guard renders nothing, its effect sends the browser to the sign-in page. */
  lemma NothingRedirects(hasToken: bool, isLoading: bool, data: Option<User>)
    requires Render(isLoading, data) == Nothing
    ensures RedirectTarget(hasToken, isLoading, data) == Some(SignInPath)
  {
  }

  /** The page itself is only rendered for a loaded user. */
  lemma ChildrenNeedUser(isLoading: bool, data: Option<User>)
    requires Render(isLoading, data) == Children
    ensures data.Some? && !isLoading
  {
  }

  /** The browser location the effect writes to. */
  class Guard {
    var location: string

    constructor(location: string)
      ensures this.location == location
    {
      this.location := location;
    }

    /** The effect, run when `isAuthenticated` or `isLoading` changes. */
    method Effect(hasToken: bool, isLoading: bool, data: Option<User>)
      modifies this
      ensures RedirectTarget(hasToken, isLoading, data).Some? ==> location == SignInPath
      ensures RedirectTarget(hasToken, isLoading, data).None? ==> location == old(location)
    {
      if !hasToken {
        location := SignInPath;
        return;
      }
      if !IsAuthenticated(data) && !isLoading {
        location := SignInPath;
        return;
      }
    }
  }
}
