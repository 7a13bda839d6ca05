/**
 * `Auth`: the authentication middlewares. A token is accepted in the form of
 * section 2.1 of RFC 6750 ("Bearer" and a token), revoked tokens are kept in
 * the cache under a `blacklist:` key until they would have expired anyway.
 * JWT verification and decoding are parameters.
 */
module Auth {
  import opened Wrappers
  import opened Strings
  import opened Redis

  const BearerPrefix := "Bearer "
  const BlacklistPrefix := "blacklist:"
  const DefaultRole := "user"

  /** The claims of a token; an absent claim is `None`. */
  datatype Claims = Claims(id: Option<UserId>, email: Option<string>, status: Option<string>,
                           role: Option<string>, exp: Option<int>)

  /** `req.user` as `authenticate` attaches it. */
  datatype AuthUser = AuthUser(id: Option<UserId>, email: Option<string>, status: Option<string>, role: string)

  /** How a middleware ends: `next()` with its result, a response, or `next(error)`. */
  datatype Outcome<T> = Continue(value: T) | Reject(status: int, message: string) | PassOn(error: string)

  /** `jwt.verify` with the server's secret: the claims, or the name of the error it throws. */
  type Verify = string -> Result<Claims>

  /** `header.split(' ')[1]`, undefined when the header holds no space. */
  function HeaderToken(header: string): Option<string> {
    var parts := SplitOn(header, ' ');
    if |parts| >= 2 then Some(parts[1]) else None
  }

  /**
   * The piece `split(' ')[1]` picks: there is none exactly when the header has no space, and
   * otherwise it is the text after the first space up to the next one.
   */
  lemma HeaderTokenPieces(header: string)
    ensures HeaderToken(header).None? <==> ' ' !in header
    ensures HeaderToken(header).Some? ==>
      var first := TakeUntil(header, ' ');
      |first| < |header| && HeaderToken(header).value == TakeUntil(header[|first| + 1..], ' ')
  {
    if ' ' in header {
      CountCharPresent(header, ' ');
      var first := TakeUntil(header, ' ');
      var rest := header[|first| + 1..];
      assert header == first + [' '] + rest;
      SplitAfterWord(first, ' ', rest);
      SplitFirst(rest, ' ');
    } else {
      CountCharAbsent(header, ' ');
    }
  }

  /** The token of a bearer header: what follows `Bearer `, up to the next space. */
  function BearerToken(header: string): (r: string)
    requires StartsWith(header, BearerPrefix)
    ensures ' ' !in r && StartsWith(header[|BearerPrefix|..], r)
    ensures |BearerPrefix| + |r| < |header| ==> header[|BearerPrefix| + |r|] == ' '
  {
    TakeUntil(header[|BearerPrefix|..], ' ')
  }

  /** In a header that passes the prefix check, the second piece is the bearer token. */
  lemma BearerHeaderToken(header: string)
    requires StartsWith(header, BearerPrefix)
    ensures HeaderToken(header) == Some(BearerToken(header))
  {
    var rest := header[|BearerPrefix|..];
    assert header == "Bearer" + [' '] + rest;
    SplitAfterWord("Bearer", ' ', rest);
    SplitFirst(rest, ' ');
  }

  /** The credentials of section 2.1 of RFC 6750 with a single space: the token is read back whole. */
  lemma SingleSpaceToken(token: string)
    requires ' ' !in token
    ensures StartsWith(BearerPrefix + token, BearerPrefix)
    ensures HeaderToken(BearerPrefix + token) == Some(token)
  {
    var header := BearerPrefix + token;
    assert header[..|BearerPrefix|] == BearerPrefix;
    BearerHeaderToken(header);
    assert header[|BearerPrefix|..] == token;
    TakeUntilAbsent(token, ' ');
  }

  /**
   * RFC 6750 allows several spaces after the scheme, but with two the
   * token read is empty: the empty string is what gets looked up and verified.
   */
  lemma DoubleSpaceTokenEmpty(token: string)
    ensures StartsWith(BearerPrefix + " " + token, BearerPrefix)
    ensures HeaderToken(BearerPrefix + " " + token) == Some("")
  {
    var header := BearerPrefix + " " + token;
    assert header[..|BearerPrefix|] == BearerPrefix;
    BearerHeaderToken(header);
    assert header[|BearerPrefix|..] == " " + token;
  }

  lemma {:induction false} TakeUntilAbsent(s: string, c: char)
    requires c !in s
    ensures TakeUntil(s, c) == s
    decreases |s|
  {
    if s != [] {
      assert c !in s[1..] by {
        forall k | 0 <= k < |s[1..]| ensures s[1..][k] != c {
          assert s[1..][k] == s[k + 1];
        }
      }
      TakeUntilAbsent(s[1..], c);
    }
  }

  function BlacklistKey(token: string): string { BlacklistPrefix + token }

  /** The cache holds a truthy value for the token's blacklist key. */
  predicate Blacklisted(entries: map<string, Entry<string>>, token: string) {
    BlacklistKey(token) in entries && entries[BlacklistKey(token)].value != ""
  }

  /** The user attached for verified claims; a missing or empty role becomes `user`. */
  function UserOf(c: Claims): (u: AuthUser)
    ensures u.role != ""
    ensures c.role.Some? && c.role.value != "" ==> u.role == c.role.value
    ensures u.id == c.id && u.email == c.email && u.status == c.status
  {
    AuthUser(c.id, c.email, c.status, if c.role.None? || c.role.value == "" then DefaultRole else c.role.value)
  }

  /**
   * `authenticate`: 401 for a missing or non-bearer header, 401 for a
   * revoked token before any verification, 401 for an expired or invalid
   * token, any other verification error handed on, otherwise the user.
   */
  function Authenticate(header: Option<string>, entries: map<string, Entry<string>>, verify: Verify)
    : (r: Outcome<AuthUser>)
    ensures (header.None? || !StartsWith(header.value, BearerPrefix)) ==> r == Reject(401, "error.unauthorized")
    ensures header.Some? && StartsWith(header.value, BearerPrefix) ==>
      var token := BearerToken(header.value);
      && (Blacklisted(entries, token) ==> r == Reject(401, "error.token_revoked"))
      && (!Blacklisted(entries, token) && verify(token).Ok? ==> r == Continue(UserOf(verify(token).value)))
      && (!Blacklisted(entries, token) && verify(token).Err? ==>
            r == (if verify(token).message == "TokenExpiredError" then Reject(401, "error.token_expired")
                  else if verify(token).message == "JsonWebTokenError" then Reject(401, "error.invalid_token")
                  else PassOn(verify(token).message)))
    ensures r.Continue? ==> r.value.role != ""
  {
    if header.None? || !StartsWith(header.value, BearerPrefix) then Reject(401, "error.unauthorized")
    else
      BearerHeaderToken(header.value);
      var token := HeaderToken(header.value).value;
      if Blacklisted(entries, token) then Reject(401, "error.token_revoked")
      else match verify(token)
        case Ok(claims) => Continue(UserOf(claims))
        case Err(name) =>
          if name == "TokenExpiredError" then Reject(401, "error.token_expired")
          else if name == "JsonWebTokenError" then Reject(401, "error.invalid_token")
          else PassOn(name)
  }

  /** The success of `authenticate` in one statement: a bearer header whose unrevoked token verifies. */
  lemma AuthenticateAccepts(header: Option<string>, entries: map<string, Entry<string>>, verify: Verify)
    ensures Authenticate(header, entries, verify).Continue? <==>
      header.Some? && StartsWith(header.value, BearerPrefix)
      && !Blacklisted(entries, BearerToken(header.value)) && verify(BearerToken(header.value)).Ok?
    ensures Authenticate(header, entries, verify).Reject? ==> Authenticate(header, entries, verify).status == 401
  {
  }

  /** The roles given to `authorize`: one role, or a list (by default empty). */
  datatype Roles = OneRole(name: string) | RoleList(names: seq<string>)

  /** `if (typeof roles === 'string') roles = [roles]`. */
  function RoleNames(roles: Roles): seq<string> {
    match roles
    case OneRole(name) => [name]
    case RoleList(names) => names
  }

  /** `authorize(roles)`: 403 exactly when some role is required and the user's is not among them. */
  function Authorize(roles: Roles, user: AuthUser): (r: Outcome<AuthUser>)
    ensures r.Reject? <==> |RoleNames(roles)| > 0 && user.role !in RoleNames(roles)
    ensures r.Reject? ==> r == Reject(403, "error.forbidden")
    ensures r.Continue? ==> r.value == user
    ensures !r.PassOn?
  {
    var names := RoleNames(roles);
    if |names| > 0 && user.role !in names then Reject(403, "error.forbidden") else Continue(user)
  }

  /** A single role behaves as the list holding it, and the default empty list admits everybody. */
  lemma AuthorizeSingleRole(name: string, user: AuthUser)
    ensures Authorize(OneRole(name), user) == Authorize(RoleList([name]), user)
    ensures Authorize(OneRole(name), user).Continue? <==> user.role == name
    ensures Authorize(RoleList([]), user) == Continue(user)
  {
  }

  /** `checkAccountStatus`: 403 exactly when the status is not `active`. */
  function CheckAccountStatus(user: AuthUser): (r: Outcome<AuthUser>)
    ensures r.Reject? <==> user.status != Some("active")
    ensures r.Reject? ==> r == Reject(403, "error.account_inactive")
    ensures r.Continue? ==> r.value == user
    ensures !r.PassOn?
  {
    if user.status != Some("active") then Reject(403, "error.account_inactive") else Continue(user)
  }

  /** `authenticate` then `checkAccountStatus` let a request through exactly for a verified active token. */
  lemma ActiveAccountsPass(header: Option<string>, entries: map<string, Entry<string>>, verify: Verify)
    ensures var a := Authenticate(header, entries, verify);
      (a.Continue? && CheckAccountStatus(a.value).Continue?) <==>
        && header.Some? && StartsWith(header.value, BearerPrefix)
        && !Blacklisted(entries, BearerToken(header.value))
        && verify(BearerToken(header.value)).Ok?
        && verify(BearerToken(header.value)).value.status == Some("active")
  {
  }

  /** `expiresIn`: the token's `exp` minus the current second. `/` is floor here: the divisor is positive. */
  function Remaining(exp: Option<int>, nowMs: int): Option<int> {
    if exp.None? then None else Some(exp.value - nowMs / 1000)
  }

  /** `if (!token) return next()`: the token is absent or empty. */
  function LogoutToken(header: Option<string>): (r: Option<string>)
    ensures r.Some? ==> r.value != "" && header.Some? && HeaderToken(header.value) == r
    ensures header.None? ==> r.None?
  {
    if header.None? then None
    else match HeaderToken(header.value)
      case None => None
      case Some(t) => if t == "" then None else Some(t)
  }

  /** The holder of the cache the blacklist lives in. */
  class Guard {
    const cache: Cache<string>

    constructor (cache: Cache<string>)
      ensures this.cache == cache
    {
      this.cache := cache;
    }

    /**
     * `blacklistToken`: a token still valid for a positive number of
     * seconds is stored under its blacklist key for exactly that long.
     * `decode` returns `None` for what `jwt.decode` cannot read, whose
     * missing `exp` then raises a `TypeError`.
     */
    method BlacklistToken(header: Option<string>, nowMs: int, decode: string -> Option<Claims>)
      returns (r: Outcome<()>)
      modifies cache
      ensures LogoutToken(header).None? ==> r == Continue(()) && cache.entries == old(cache.entries)
      ensures LogoutToken(header).Some? && decode(LogoutToken(header).value).None? ==>
        r == PassOn("TypeError") && cache.entries == old(cache.entries)
      ensures LogoutToken(header).Some? && decode(LogoutToken(header).value).Some? ==>
        var token := LogoutToken(header).value;
        var left := Remaining(decode(token).value.exp, nowMs);
        && r == Continue(())
        && (left.Some? && left.value > 0 ==>
              cache.entries == old(cache.entries)[BlacklistKey(token) := Entry("true", left.value)])
        && (!(left.Some? && left.value > 0) ==> cache.entries == old(cache.entries))
    {
      var token := LogoutToken(header);
      if token.None? {
        return Continue(());
      }
      var decoded := decode(token.value);
      if decoded.None? {
        return PassOn("TypeError");
      }
      var expiresIn := Remaining(decoded.value.exp, nowMs);
      if expiresIn.Some? && expiresIn.value > 0 {
        var _ := cache.Set(BlacklistKey(token.value), "true", expiresIn.value);
      }
      r := Continue(());
    }
  }

  /** After a logout that stored the blacklist key, the same bearer header is refused as revoked. */
  lemma LogoutRevokes(header: string, entries: map<string, Entry<string>>, ttl: int, verify: Verify)
    requires StartsWith(header, BearerPrefix) && LogoutToken(Some(header)).Some?
    ensures var token := LogoutToken(Some(header)).value;
      Authenticate(Some(header), entries[BlacklistKey(token) := Entry("true", ttl)], verify)
        == Reject(401, "error.token_revoked")
  {
    BearerHeaderToken(header);
  }
}
