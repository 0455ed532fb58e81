/**
 * What server/routes.ts and api/index.ts share: a response is a status code
 * and a body, and a session is found from the `Authorization` header by
 * stripping the first "Bearer " and looking the rest up in a token map.
 */
module Http {
  import opened Wrappers
  import Text

  datatype Response<B> = Response(status: int, body: B)

  const BearerPrefix := "Bearer "

  /**
   * `req.headers.authorization?.replace('Bearer ', '')`, kept only when the
   * result is a non-empty string (the truthiness test in `getSession`).
   */
  function SessionToken(authorization: Option<string>): (r: Option<string>)
    ensures authorization.None? ==> r.None?
    ensures r.Some? ==> r.value != ""
    ensures authorization.Some? ==>
              (r.Some? <==> Text.ReplaceFirst(authorization.value, BearerPrefix, "") != "")
    ensures r.Some? ==> r.value == Text.ReplaceFirst(authorization.value, BearerPrefix, "")
  {
    match authorization
    case None => None
    case Some(header) =>
      var token := Text.ReplaceFirst(header, BearerPrefix, "");
      if token != "" then Some(token) else None
  }

  /** A client that sends "Bearer " followed by a token it was given presents exactly that token. */
  lemma BearerRoundTrip(token: string)
    requires token != ""
    ensures SessionToken(Some(BearerPrefix + token)) == Some(token)
  {
    Text.ReplaceFirstPrefix(BearerPrefix, token, "");
    assert "" + token == token;
  }

  /** `getSession` with `requireAuth`'s test: the session's user, or `None` for a 401. */
  function Lookup<U>(sessions: map<string, U>, authorization: Option<string>): (r: Option<U>)
    ensures r.Some? <==> SessionToken(authorization).Some? && SessionToken(authorization).value in sessions
    ensures r.Some? ==> r.value == sessions[SessionToken(authorization).value]
  {
    match SessionToken(authorization)
    case None => None
    case Some(token) => if token in sessions then Some(sessions[token]) else None
  }

  /** A token just bound to `u` authenticates as `u`. */
  lemma LookupAfterBind<U>(sessions: map<string, U>, token: string, u: U)
    requires token != ""
    ensures Lookup(sessions[token := u], Some(BearerPrefix + token)) == Some(u)
  {
    BearerRoundTrip(token);
  }

  /**
   * After `sessions.delete(token)` the header that carried `token` gets a
   * 401, and every other header finds what it found before.
   */
  lemma LookupAfterDelete<U>(sessions: map<string, U>, token: string, authorization: Option<string>)
    ensures SessionToken(authorization) == Some(token) ==> Lookup(sessions - {token}, authorization).None?
    ensures SessionToken(authorization) != Some(token) ==>
              Lookup(sessions - {token}, authorization) == Lookup(sessions, authorization)
  {
  }

  /** Total length of a set of strings; every member is at most that long. */
  ghost function TotalLength(keys: set<string>): nat
    decreases keys
  {
    if keys == {} then 0 else var k :| k in keys; |k| + TotalLength(keys - {k})
  }

  lemma {:induction false} TotalLengthBounds(keys: set<string>, k: string)
    requires k in keys
    ensures |k| <= TotalLength(keys)
    decreases keys
  {
    var j :| j in keys && TotalLength(keys) == |j| + TotalLength(keys - {j});
    if j != k {
      TotalLengthBounds(keys - {j}, k);
      assert |k| <= TotalLength(keys - {j});
    } else {
      assert TotalLength(keys) == |k| + TotalLength(keys - {k});
    }
  }

  /** However many sessions exist, a fresh non-empty token does too, so the generator can always pick one. */
  lemma FreshTokenExists<U>(sessions: map<string, U>)
    ensures exists t: string :: t != "" && t !in sessions
  {
    var t := seq(TotalLength(sessions.Keys) + 1, _ => 'x');
    if t in sessions {
      TotalLengthBounds(sessions.Keys, t);
    }
    assert t != "" && t !in sessions;
  }
}
