/** The session state shared through the authentication context: whether the
    client believes it is signed in, the optional user profile, the global
    `loading` flag and the one `localStorage` entry that caches the belief. */
module AuthContext {
  import opened Js
  import opened Http

  /** The value the cache entry holds while the client believes it is signed in. */
  const CachedTrue := "true"

  const CheckFailedText := "Authentication check failed. Please try logging in again."

  /** Errors the session check treats as transient and ignores (fail-open):
      a timeout reported as `ECONNABORTED`, a message mentioning "timeout",
      or no response at all. */
  predicate IsTransient(e: HttpError) {
    e.code == "ECONNABORTED" || Contains(e.message, "timeout") || e.response.None?
  }

  /** The classification in terms of where "timeout" occurs in the message. */
  lemma TransientIff(e: HttpError)
    ensures IsTransient(e) <==>
              e.code == "ECONNABORTED" || e.response.None? || exists i :: OccursAt(e.message, "timeout", i)
  {
    ContainsIffOccurs(e.message, "timeout");
  }

  /** A resolved session check that confirms the session. */
  predicate Confirms(r: Response) {
    Truthy(r.data) && r.status == 200
  }

  /** What a settled session check leaves behind, given the state before it. */
  function CheckedBelief(before: bool, o: Outcome): (b: bool)
    ensures o.Ok? ==> (b <==> Confirms(o.response))
    ensures o.Failed? ==> (b <==> before && IsTransient(o.error))
  {
    match o
    case Ok(r) => Confirms(r)
    case Failed(e) => before && IsTransient(e)
  }

  function CheckedCache(before: Option<string>, o: Outcome): (c: Option<string>)
    ensures o.Ok? && Confirms(o.response) ==> c == Some(CachedTrue)
    ensures o.Failed? && IsTransient(o.error) ==> c == before
    ensures !(o.Ok? && Confirms(o.response)) && !(o.Failed? && IsTransient(o.error)) ==> c == None
  {
    match o
    case Ok(r) => if Confirms(r) then Some(CachedTrue) else None
    case Failed(e) => if IsTransient(e) then before else None
  }

  function CheckedUser(before: Json, o: Outcome): (u: Json)
    ensures u != before ==> o.Ok? && Confirms(o.response) && u == OptGet(o.response.data, "user") && Truthy(u)
  {
    if o.Ok? && Confirms(o.response) && Truthy(OptGet(o.response.data, "user"))
    then OptGet(o.response.data, "user") else before
  }

  /** The events of a check: the request, and a toast for a failure that is
      neither transient nor a 401. */
  function CheckEvents(o: Outcome): (effects: seq<Event>)
    ensures |effects| >= 1 && effects[0] == Request(Get, "/check-auth", JUndefined)
    ensures |effects| == 2 <==> o.Failed? && !IsTransient(o.error) && o.error.response.value.status != 401
    ensures |effects| <= 2 && (|effects| == 2 ==> effects[1] == Say(Error, CheckFailedText))
  {
    [Request(Get, "/check-auth", JUndefined)]
    + if o.Failed? && !IsTransient(o.error) && o.error.response.value.status != 401
      then [Say(Error, CheckFailedText)] else []
  }

  /** The cache entry holds `'true'` exactly when the client believes it is
      signed in, and a check keeps it that way. */
  lemma CheckKeepsCacheInStep(belief: bool, cache: Option<string>, o: Outcome)
    requires belief <==> cache == Some(CachedTrue)
    ensures CheckedBelief(belief, o) <==> CheckedCache(cache, o) == Some(CachedTrue)
  {
  }

  /** A signed-out client stays signed out unless the server confirms. */
  lemma OnlyServerSignsIn(o: Outcome)
    ensures CheckedBelief(false, o) ==> o.Ok? && Confirms(o.response)
  {
  }

  class Session {
    var isAuthenticated: bool
    var loading: bool
    var user: Json
    /** `localStorage.getItem('isAuthenticated')`: None when the entry is absent. */
    var cache: Option<string>

    /** The cache entry holds `'true'` exactly while the client believes it is
        signed in. Every operation keeps this. */
    ghost predicate CacheAgrees()
      reads this
    {
      isAuthenticated <==> cache == Some(CachedTrue)
    }

    /** Mounting the provider: the belief is seeded from the cache before any
        request is made. */
    constructor (stored: Option<string>)
      ensures isAuthenticated <==> stored == Some(CachedTrue)
      ensures loading && user == JNull && cache == stored
      ensures CacheAgrees()
    {
      isAuthenticated := stored == Some(CachedTrue);
      loading := true;
      user := JNull;
      cache := stored;
    }

    /** `checkAuthStatus`: one GET of /check-auth, settled by `o`. */
    method CheckAuthStatus(o: Outcome) returns (effects: seq<Event>)
      modifies this
      ensures !loading
      ensures old(CacheAgrees()) ==> CacheAgrees()
      ensures effects == CheckEvents(o)
      ensures isAuthenticated == CheckedBelief(old(isAuthenticated), o)
      ensures cache == CheckedCache(old(cache), o) && user == CheckedUser(old(user), o)
      ensures |effects| >= 1 && effects[0] == Request(Get, "/check-auth", JUndefined)
      // a confirming answer signs in, caches it and takes the user when one is sent
      ensures o.Ok? && Confirms(o.response) ==>
                isAuthenticated && cache == Some(CachedTrue) && effects == effects[..1]
                && user == (if Truthy(OptGet(o.response.data, "user")) then OptGet(o.response.data, "user") else old(user))
      // any other resolved answer signs out silently
      ensures o.Ok? && !Confirms(o.response) ==>
                !isAuthenticated && cache == None && user == old(user) && effects == effects[..1]
      // fail-open: a transient failure changes nothing but `loading`
      ensures o.Failed? && IsTransient(o.error) ==>
                isAuthenticated == old(isAuthenticated) && cache == old(cache) && user == old(user)
                && effects == effects[..1]
      // fail-closed: any other failure signs out, with a toast unless it was a 401
      ensures o.Failed? && !IsTransient(o.error) ==>
                !isAuthenticated && cache == None && user == old(user)
                && effects[1..] == (if o.error.response.value.status != 401 then [Say(Error, CheckFailedText)] else [])
    {
      effects := [Request(Get, "/check-auth", JUndefined)];
      match o {
        case Ok(response) =>
          if Confirms(response) {
            isAuthenticated := true;
            cache := Some(CachedTrue);
            var sent := OptGet(response.data, "user");
            if Truthy(sent) {
              user := sent;
            }
          } else {
            isAuthenticated := false;
            cache := None;
          }
        case Failed(error) =>
          if !IsTransient(error) {
            isAuthenticated := false;
            cache := None;
            if error.response.value.status != 401 {
              effects := effects + [Say(Error, CheckFailedText)];
            }
          }
      }
      loading := false;
    }

    /** `login(userData)`: optimistic, with no request of its own. */
    method Login(userData: Json)
      modifies this
      ensures isAuthenticated && cache == Some(CachedTrue) && loading == old(loading)
      ensures CacheAgrees()
      ensures user == if Truthy(userData) then userData else old(user)
    {
      isAuthenticated := true;
      cache := Some(CachedTrue);
      if Truthy(userData) {
        user := userData;
      }
    }

    /** `logout()`: POST /logout, then clear everything whatever `o` was. */
    method Logout(o: Outcome) returns (effects: seq<Event>)
      modifies this
      ensures !isAuthenticated && user == JNull && cache == None && loading == old(loading)
      ensures CacheAgrees()
      ensures effects == [Request(Post, "/logout", JUndefined)]
    {
      effects := [Request(Post, "/logout", JUndefined)];
      isAuthenticated := false;
      user := JNull;
      cache := None;
    }
  }
}
