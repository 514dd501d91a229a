/** The access-token cache both outside services keep: a token is fetched from the
    OAuth endpoint, kept with an expiry 1740 seconds after the fetch completed, and
    reused while the current time is strictly before that expiry. */
module Tokens {
  import opened Wrappers

  /** How long a fetched token is kept, in seconds (29 minutes). */
  const TOKEN_LIFETIME: int := 1740

  /** The answer of the OAuth endpoint: its status and, when the body has one, the
      `access_token` field. A request that never got an answer is `Unreachable`. */
  datatype AuthResponse = Answered(status: int, accessToken: Option<string>) | Unreachable

  /** The cached fields: the token, if any, and its expiry in seconds. */
  datatype TokenState = TokenState(accessToken: Option<string>, expires: int)

  /** The cached token may be used at `now`: one is present, non-empty, and `now` is
      strictly before its expiry. */
  predicate Reusable(st: TokenState, now: int) {
    st.accessToken.Some? && st.accessToken.value != "" && now < st.expires
  }

  /** What fetching does to the cache: a 200 answer with a token replaces it, with the
      expiry counted from `doneAt`, when the answer arrived; anything else leaves it. */
  function AfterFetch(st: TokenState, auth: AuthResponse, doneAt: int): TokenState {
    if auth.Answered? && auth.status == 200 && auth.accessToken.Some? then
      TokenState(auth.accessToken, doneAt + TOKEN_LIFETIME)
    else st
  }

  /** The token handed out, or the error raised: a reusable token without any request;
      otherwise a non-200 status or no answer raises, a body without a token raises
      KeyError, and a fetched token is returned. */
  function TokenFor(st: TokenState, now: int, auth: AuthResponse): (r: Result<string>)
    ensures Reusable(st, now) ==> r == Ok(st.accessToken.value)
    ensures !Reusable(st, now) ==> (r.Ok? <==> auth.Answered? && auth.status == 200 && auth.accessToken.Some?)
  {
    if Reusable(st, now) then Ok(st.accessToken.value)
    else if auth.Unreachable? || auth.status != 200 then Err(HttpError)
    else if auth.accessToken.None? then Err(KeyError)
    else Ok(auth.accessToken.value)
  }

  class TokenCache {
    var accessToken: Option<string>
    var tokenExpires: int

    function State(): TokenState
      reads this
    {
      TokenState(accessToken, tokenExpires)
    }

    /** A new cache holds no token and an expiry of 0. */
    constructor()
      ensures State() == TokenState(None, 0)
      ensures !Reusable(State(), 0)
    {
      accessToken := None;
      tokenExpires := 0;
    }

    /** Returns the cached token while it is reusable at `now`; otherwise asks the OAuth
        endpoint, whose answer is `auth` arriving at `doneAt`, and caches a fetched token. */
    method GetToken(now: int, auth: AuthResponse, doneAt: int) returns (r: Result<string>)
      modifies this
      ensures r == TokenFor(old(State()), now, auth)
      ensures State() == if Reusable(old(State()), now) then old(State()) else AfterFetch(old(State()), auth, doneAt)
    {
      if accessToken.Some? && accessToken.value != "" && now < tokenExpires {
        return Ok(accessToken.value);
      }
      if auth.Unreachable? || auth.status != 200 {
        return Err(HttpError);
      }
      if auth.accessToken.None? {
        return Err(KeyError);
      }
      accessToken := auth.accessToken;
      tokenExpires := doneAt + TOKEN_LIFETIME;
      r := Ok(auth.accessToken.value);
    }
  }

  /** A token fetched at `doneAt` is reused at every moment before `doneAt + 1740`
      and at none from then on; a failed fetch leaves the cache as it was. */
  lemma ReuseWindow(st: TokenState, auth: AuthResponse, doneAt: int, now: int)
    requires auth.Answered? && auth.status == 200 && auth.accessToken.Some? && auth.accessToken.value != ""
    ensures Reusable(AfterFetch(st, auth, doneAt), now) <==> now < doneAt + TOKEN_LIFETIME
    ensures TokenFor(AfterFetch(st, auth, doneAt), now, Unreachable) == Ok(auth.accessToken.value) <==>
              now < doneAt + TOKEN_LIFETIME
  {
  }

  /** A fetch that fails, whatever the reason, changes nothing in the cache. */
  lemma FailedFetchKeepsCache(st: TokenState, now: int, auth: AuthResponse, doneAt: int)
    requires TokenFor(st, now, auth).Err?
    ensures AfterFetch(st, auth, doneAt) == st
  {
  }
}
