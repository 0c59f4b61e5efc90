/** The process-wide OAuth token cache of `get_access_token`
    (app.py:21-42): a token and the time it stops being reused. */
module TokenCache {
  import opened Wrappers

  /** What the POST to the token endpoint gave back: its status code and its
      body as text and, for a 200 response, what the two assignments read
      from its JSON body. `accessToken` is `token_data['access_token']`, or
      `None` when the body is not JSON or lacks the key. `expiresIn` is
      `int(token_data['expires_in'])` (a float truncated, a numeric string
      parsed), or `None` when the key is missing or `int()` refuses it. */
  datatype FetchResult = FetchResult(statusCode: int, text: string, accessToken: Option<string>, expiresIn: Option<int>)

  /** Why a call raised: the non-200 branch's own exception, carrying its
      message, or the exception a malformed 200 body raises on the way. */
  datatype TokenError = GenerationFailed(message: string) | MalformedResponse

  /** Seconds taken off the server's lifetime before a token stops being reused. */
  const Margin := 60

  const FailurePrefix := "Token generation failed: "

  /** `access_token and time.time() < token_expiry`: the cached token is
      neither `None` nor the empty string, and has not reached its expiry. */
  predicate Reusable(token: Option<string>, expiry: int, now: int) {
    token.Some? && token.value != "" && now < expiry
  }

  class TokenCache {
    var accessToken: Option<string>
    var tokenExpiry: int

    /** `access_token = None`, `token_expiry = 0` at start-up. */
    constructor()
      ensures accessToken == None && tokenExpiry == 0
    {
      accessToken := None;
      tokenExpiry := 0;
    }

    /** One call of `get_access_token`. `now` is the clock read by the reuse
        test, `later` the clock read after the response arrived; `fetched`
        says whether the endpoint was called at all. A 200 body that names a
        token but no usable `expires_in` raises only after the token has been
        stored, so the new token is kept with the old expiry. */
    method GetToken(now: int, fetch: FetchResult, later: int) returns (r: Result<string, TokenError>, fetched: bool)
      modifies this
      ensures fetched <==> !old(Reusable(accessToken, tokenExpiry, now))
      ensures !fetched ==> r == Ok(old(accessToken).value) && unchanged(this)
      ensures fetched && fetch.statusCode != 200 ==>
        r == Err(GenerationFailed(FailurePrefix + fetch.text)) && unchanged(this)
      ensures fetched && fetch.statusCode == 200 && fetch.accessToken.None? ==>
        r == Err(MalformedResponse) && unchanged(this)
      ensures fetched && fetch.statusCode == 200 && fetch.accessToken.Some? && fetch.expiresIn.None? ==>
        && r == Err(MalformedResponse)
        && accessToken == fetch.accessToken
        && tokenExpiry == old(tokenExpiry)
      ensures fetched && fetch.statusCode == 200 && fetch.accessToken.Some? && fetch.expiresIn.Some? ==>
        && r == Ok(fetch.accessToken.value)
        && accessToken == fetch.accessToken
        && tokenExpiry == later + fetch.expiresIn.value - Margin
      ensures r.Ok? ==> accessToken == Some(r.value)
      ensures CacheState(accessToken, tokenExpiry)
        == Step(old(CacheState(accessToken, tokenExpiry)), Call(now, fetch, later))
    {
      if accessToken.Some? && accessToken.value != "" && now < tokenExpiry {
        return Ok(accessToken.value), false;
      }
      fetched := true;
      if fetch.statusCode == 200 {
        if fetch.accessToken.None? {
          return Err(MalformedResponse), true;
        }
        accessToken := fetch.accessToken;
        if fetch.expiresIn.None? {
          return Err(MalformedResponse), true;
        }
        tokenExpiry := later + fetch.expiresIn.value - Margin;
        r := Ok(accessToken.value);
      } else {
        r := Err(GenerationFailed(FailurePrefix + fetch.text));
      }
    }
  }

  /** The clock readings and the endpoint's response of one call. */
  datatype Call = Call(now: int, fetch: FetchResult, later: int)

  datatype CacheState = CacheState(token: Option<string>, expiry: int)

  /** The call goes to the endpoint and stores the token it got back. */
  predicate SetsToken(s: CacheState, c: Call) {
    !Reusable(s.token, s.expiry, c.now) && c.fetch.statusCode == 200 && c.fetch.accessToken.Some?
  }

  /** The call also gets as far as storing a new expiry. */
  predicate SetsExpiry(s: CacheState, c: Call) {
    SetsToken(s, c) && c.fetch.expiresIn.Some?
  }

  /** The cache after one call of `get_access_token`. */
  function Step(s: CacheState, c: Call): CacheState {
    if !SetsToken(s, c) then s
    else if c.fetch.expiresIn.None? then CacheState(c.fetch.accessToken, s.expiry)
    else CacheState(c.fetch.accessToken, c.later + c.fetch.expiresIn.value - Margin)
  }

  /** The cache after a run of calls, left to right. */
  function Replay(s: CacheState, calls: seq<Call>): CacheState
    decreases |calls|
  {
    if calls == [] then s else Step(Replay(s, calls[..|calls| - 1]), calls[|calls| - 1])
  }

  /** A run of calls in which no response is a 200 never changes the cache:
      failures do not wipe a token that is still being reused nor one
      that has expired. */
  lemma {:induction false} FailuresKeepCache(s: CacheState, calls: seq<Call>)
    requires forall i :: 0 <= i < |calls| ==> calls[i].fetch.statusCode != 200
    ensures Replay(s, calls) == s
    decreases |calls|
  {
    if calls != [] {
      var init := calls[..|calls| - 1];
      assert forall i :: 0 <= i < |init| ==> init[i] == calls[i];
      FailuresKeepCache(s, init);
    }
  }

  /** The first `j` calls of a run, replayed. */
  function Before(s: CacheState, calls: seq<Call>, j: nat): CacheState
    requires j <= |calls|
  {
    Replay(s, calls[..j])
  }

  lemma BeforeInit(s: CacheState, calls: seq<Call>, j: nat)
    requires j < |calls|
    ensures Before(s, calls[..|calls| - 1], j) == Before(s, calls, j)
  {
    assert calls[..|calls| - 1][..j] == calls[..j];
  }

  /** No call after the `i`-th stores a token (`i == -1`: no call at all). */
  predicate NoTokenSetAfter(s: CacheState, calls: seq<Call>, i: int) {
    forall j :: i < j < |calls| && 0 <= j ==> !SetsToken(Before(s, calls, j), calls[j])
  }

  /** No call after the `i`-th stores an expiry. */
  predicate NoExpirySetAfter(s: CacheState, calls: seq<Call>, i: int) {
    forall j :: i < j < |calls| && 0 <= j ==> !SetsExpiry(Before(s, calls, j), calls[j])
  }

  lemma ReplayLast(s: CacheState, calls: seq<Call>)
    requires calls != []
    ensures Before(s, calls, |calls| - 1) == Replay(s, calls[..|calls| - 1])
    ensures Replay(s, calls) == Step(Before(s, calls, |calls| - 1), calls[|calls| - 1])
  {
  }

  lemma NoTokenSetExtends(s: CacheState, calls: seq<Call>, i: int)
    requires calls != [] && i < |calls| - 1
    requires NoTokenSetAfter(s, calls[..|calls| - 1], i)
    requires !SetsToken(Before(s, calls, |calls| - 1), calls[|calls| - 1])
    ensures NoTokenSetAfter(s, calls, i)
  {
    var n := |calls| - 1;
    forall j | i < j < |calls| && 0 <= j
      ensures !SetsToken(Before(s, calls, j), calls[j])
    {
      if j < n {
        BeforeInit(s, calls, j);
        assert calls[..n][j] == calls[j];
      }
    }
  }

  lemma NoExpirySetExtends(s: CacheState, calls: seq<Call>, i: int)
    requires calls != [] && i < |calls| - 1
    requires NoExpirySetAfter(s, calls[..|calls| - 1], i)
    requires !SetsExpiry(Before(s, calls, |calls| - 1), calls[|calls| - 1])
    ensures NoExpirySetAfter(s, calls, i)
  {
    var n := |calls| - 1;
    forall j | i < j < |calls| && 0 <= j
      ensures !SetsExpiry(Before(s, calls, j), calls[j])
    {
      if j < n {
        BeforeInit(s, calls, j);
        assert calls[..n][j] == calls[j];
      }
    }
  }

  /** The token held after a run of calls is the one at the start, when no
      call stored one, or else the token of the last call that went to the
      endpoint and stored the token of its 200 response. */
  lemma {:induction false} TokenOrigin(s: CacheState, calls: seq<Call>)
    ensures
      || (Replay(s, calls) == s && NoTokenSetAfter(s, calls, -1))
      || exists i :: 0 <= i < |calls| && SetsToken(Before(s, calls, i), calls[i])
           && Replay(s, calls).token == calls[i].fetch.accessToken
           && NoTokenSetAfter(s, calls, i)
    decreases |calls|
  {
    if calls != [] {
      var n := |calls| - 1;
      var init := calls[..n];
      TokenOrigin(s, init);
      ReplayLast(s, calls);
      if SetsToken(Before(s, calls, n), calls[n]) {
        assert NoTokenSetAfter(s, calls, n);
      } else if Replay(s, init) == s && NoTokenSetAfter(s, init, -1) {
        NoTokenSetExtends(s, calls, -1);
      } else {
        var i :| 0 <= i < n && SetsToken(Before(s, init, i), init[i])
          && Replay(s, init).token == init[i].fetch.accessToken
          && NoTokenSetAfter(s, init, i);
        BeforeInit(s, calls, i);
        assert init[i] == calls[i];
        NoTokenSetExtends(s, calls, i);
      }
    }
  }

  /** Likewise the expiry held after a run of calls is the one at the start,
      when no call stored one, or else the one the last call that got that
      far computed: its second clock reading plus the lifetime the server
      gave, less `Margin`. */
  lemma {:induction false} ExpiryOrigin(s: CacheState, calls: seq<Call>)
    ensures
      || (Replay(s, calls).expiry == s.expiry && NoExpirySetAfter(s, calls, -1))
      || exists i :: 0 <= i < |calls| && SetsExpiry(Before(s, calls, i), calls[i])
           && Replay(s, calls).expiry == calls[i].later + calls[i].fetch.expiresIn.value - Margin
           && NoExpirySetAfter(s, calls, i)
    decreases |calls|
  {
    if calls != [] {
      var n := |calls| - 1;
      var init := calls[..n];
      ExpiryOrigin(s, init);
      ReplayLast(s, calls);
      if SetsExpiry(Before(s, calls, n), calls[n]) {
        assert NoExpirySetAfter(s, calls, n);
      } else if Replay(s, init).expiry == s.expiry && NoExpirySetAfter(s, init, -1) {
        NoExpirySetExtends(s, calls, -1);
      } else {
        var i :| 0 <= i < n && SetsExpiry(Before(s, init, i), init[i])
          && Replay(s, init).expiry == init[i].later + init[i].fetch.expiresIn.value - Margin
          && NoExpirySetAfter(s, init, i);
        BeforeInit(s, calls, i);
        assert init[i] == calls[i];
        NoExpirySetExtends(s, calls, i);
      }
    }
  }

  /** A 200 body with a token but no usable `expires_in` leaves the new
      token paired with the old expiry: while that expiry lies ahead, the
      next call reuses the new token without going to the endpoint. */
  lemma StaleExpiryReuse(s: CacheState, first: Call, second: Call)
    requires !Reusable(s.token, s.expiry, first.now)
    requires first.fetch.statusCode == 200 && first.fetch.accessToken.Some? && first.fetch.accessToken.value != ""
    requires first.fetch.expiresIn.None?
    requires second.now < s.expiry
    ensures Step(s, first) == CacheState(first.fetch.accessToken, s.expiry)
    ensures Reusable(Step(s, first).token, Step(s, first).expiry, second.now)
    ensures Step(Step(s, first), second) == Step(s, first)
  {
  }
}
