/** The guard around protected pages: a session refresh on mounting when a
    session cookie is present, a loader that shows for at most two seconds,
    and the three-way choice between loader, redirect and the page itself. */
module PrivateRoute {
  import opened Js
  import opened Http
  import AuthContext

  /** The cookie entry that marks a server session. */
  const SessionCookie := "sid="
  const SignInPath := "/auth"

  /** What the guard renders: the loader, a redirect to the sign-in page that
      remembers where the user was going, or the protected page. */
  datatype View = Loader | Redirect(to: string, from: string) | Children

  function Decide(loading: bool, localLoading: bool, showLoader: bool, authenticated: bool,
                  location: string): (v: View)
    ensures v == Loader <==> (loading || localLoading) && showLoader
    ensures v.Redirect? <==> !loading && !localLoading && !authenticated
    ensures v.Redirect? ==> v == Redirect(SignInPath, location)
  {
    if (loading || localLoading) && showLoader then Loader
    else if !loading && !localLoading && !authenticated then Redirect(SignInPath, location)
    else Children
  }

  /** The page itself shows when signed in and nothing is loading, and also
      when the loader timed out while a check is still running, whatever the
      session believes. */
  lemma ChildrenWhen(loading: bool, localLoading: bool, showLoader: bool, authenticated: bool,
                     location: string)
    ensures Decide(loading, localLoading, showLoader, authenticated, location) == Children
            <==> (if loading || localLoading then !showLoader else authenticated)
  {
  }

  /** Once both checks are settled the loader flag no longer matters and the
      session alone decides. */
  lemma SettledDecision(showLoader: bool, authenticated: bool, location: string)
    ensures Decide(false, false, showLoader, authenticated, location)
            == if authenticated then Children else Redirect(SignInPath, location)
  {
  }

  class Guard {
    const session: AuthContext.Session
    var showLoader: bool
    var localLoading: bool

    constructor (session: AuthContext.Session)
      ensures this.session == session && showLoader && localLoading
    {
      this.session := session;
      showLoader := true;
      localLoading := true;
    }

    /** `refreshAuth`: the session check runs (settled by `o`) only when the
        cookie string mentions a session; the local flag clears either way. */
    method RefreshAuth(cookie: string, o: Outcome) returns (effects: seq<Event>)
      modifies this`localLoading, session
      ensures !localLoading && showLoader == old(showLoader)
      ensures Contains(cookie, SessionCookie) ==>
                !session.loading && effects == AuthContext.CheckEvents(o)
                && session.isAuthenticated == AuthContext.CheckedBelief(old(session.isAuthenticated), o)
                && session.cache == AuthContext.CheckedCache(old(session.cache), o)
                && session.user == AuthContext.CheckedUser(old(session.user), o)
      ensures !Contains(cookie, SessionCookie) ==> effects == [] && unchanged(session)
    {
      effects := [];
      if Contains(cookie, SessionCookie) {
        effects := session.CheckAuthStatus(o);
      }
      localLoading := false;
    }

    /** The loader's 2000 ms timer fires. */
    method Expire()
      modifies this`showLoader
      ensures !showLoader
    {
      showLoader := false;
    }

    /** The current render for the given location. */
    function View(location: string): (v: View)
      reads this, session
      ensures v == Loader <==> (session.loading || localLoading) && showLoader
      ensures v.Redirect? <==> !session.loading && !localLoading && !session.isAuthenticated
      ensures v == Children <==>
                (if session.loading || localLoading then !showLoader else session.isAuthenticated)
      ensures v.Redirect? ==> v == Redirect(SignInPath, location)
    {
      ChildrenWhen(session.loading, localLoading, showLoader, session.isAuthenticated, location);
      Decide(session.loading, localLoading, showLoader, session.isAuthenticated, location)
    }
  }

  /** After the refresh with a session cookie, the loader is gone and the
      view follows the check's verdict; a transient failure keeps the belief
      the session had before. */
  method MountWithCookie(session: AuthContext.Session, cookie: string, o: Outcome, location: string)
    returns (v: View)
    requires Contains(cookie, SessionCookie)
    modifies session
    ensures o.Ok? && AuthContext.Confirms(o.response) ==> v == Children
    ensures o.Ok? && !AuthContext.Confirms(o.response) ==> v == Redirect(SignInPath, location)
    ensures o.Failed? && !AuthContext.IsTransient(o.error) ==> v == Redirect(SignInPath, location)
    ensures o.Failed? && AuthContext.IsTransient(o.error) ==>
              v == if old(session.isAuthenticated) then Children else Redirect(SignInPath, location)
  {
    var guard := new Guard(session);
    var _ := guard.RefreshAuth(cookie, o);
    v := guard.View(location);
  }
}
