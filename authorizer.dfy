/** The session-token middleware and the AuthMe password check
    (authorizer.go). */
module Authorizer {
  import opened Common
  import opened Strings
  import opened Types

  const BearerPrefix: String := "Bearer "
  const TokenLifetime: Duration := 24 * Hour

  const ErrorMessageNeedAuthorization: String := "需要身份验证"
  const ErrorMessageSessionExpired: String := "用户会话已过期"
  const ErrorMessageTokenSaveError: String := "用户密钥延期失败"

  /** The token the client presents: the authorization header with one
      leading "Bearer " removed when present. */
  function BearerToken(authorization: String): (token: String)
    ensures BearerPrefix <= authorization ==> BearerPrefix + token == authorization
    ensures !(BearerPrefix <= authorization) ==> token == authorization
  {
    TrimPrefix(authorization, BearerPrefix)
  }

  /** What the middleware does with the request: refuse it with a status, or
      store the renewed token in the request context and call the next handler. */
  datatype Decision = Reject(status: int, message: String) | Proceed(token: Token)

  /** The session-token table, keyed by the token string. */
  class TokenStore {
    var rows: map<String, Token>

    ghost predicate Valid()
      reads this
    {
      forall key :: key in rows ==> rows[key].token == key
    }

    constructor (rows: map<String, Token>)
      requires forall key :: key in rows ==> rows[key].token == key
      ensures Valid() && this.rows == rows
    {
      this.rows := rows;
    }

    /** `needValidation`: an unknown token, or a failed lookup (`lookupOk`
        false), is refused with 401 and nothing changes; a token whose expiry lies before `now` is deleted (when the
        delete succeeds) and refused with 426; a live token's expiry moves to
        `now` + 24h, and only when that save succeeds does the request proceed
        with the renewed token, otherwise it is refused with 401 and the row
        keeps its old expiry. */
    method NeedValidation(authorization: String, now: Time, lookupOk: bool, deleteOk: bool, saveOk: bool)
      returns (d: Decision)
      requires Valid()
      modifies this
      ensures Valid()
      ensures d.Proceed? ==> d.token.token == BearerToken(authorization)
      ensures var key := BearerToken(authorization);
              && (!lookupOk || key !in old(rows) ==>
                    d == Reject(StatusUnauthorized, ErrorMessageNeedAuthorization) && rows == old(rows))
              && (lookupOk && key in old(rows) && old(rows)[key].expireAt < now ==>
                    && d == Reject(StatusUpgradeRequired, ErrorMessageSessionExpired)
                    && rows == (if deleteOk then old(rows) - {key} else old(rows)))
              && (lookupOk && key in old(rows) && !(old(rows)[key].expireAt < now) && !saveOk ==>
                    d == Reject(StatusUnauthorized, ErrorMessageTokenSaveError) && rows == old(rows))
              && (lookupOk && key in old(rows) && !(old(rows)[key].expireAt < now) && saveOk ==>
                    && d == Proceed(old(rows)[key].(expireAt := now + TokenLifetime))
                    && rows == old(rows)[key := d.token])
    {
      var userToken := BearerToken(authorization);
      if !lookupOk || userToken !in rows {
        return Reject(StatusUnauthorized, ErrorMessageNeedAuthorization);
      }
      var token := rows[userToken];
      if token.expireAt < now {
        if deleteOk {
          rows := rows - {userToken};
        }
        return Reject(StatusUpgradeRequired, ErrorMessageSessionExpired);
      }
      token := token.(expireAt := now + TokenLifetime);
      if !saveOk {
        return Reject(StatusUnauthorized, ErrorMessageTokenSaveError);
      }
      rows := rows[userToken := token];
      d := Proceed(token);
    }
  }

  /** A request that proceeds keeps its session alive for the next 24 hours:
      a second request at any instant up to `now` + 24h proceeds as well. */
  method SessionSlides(store: TokenStore, authorization: String, now: Time, later: Time)
    returns (first: Decision, second: Decision)
    requires store.Valid()
    requires now <= later <= now + TokenLifetime
    modifies store
    ensures first.Proceed? ==> second.Proceed? && second.token.expireAt == later + TokenLifetime
  {
    first := store.NeedValidation(authorization, now, true, true, true);
    second := store.NeedValidation(authorization, later, true, true, true);
  }

  /** Once an expired token has been deleted, presenting it again is answered
      as an unknown token (401), not as an expired one (426). */
  method ExpiredThenUnknown(store: TokenStore, authorization: String, now: Time, later: Time)
    returns (first: Decision, second: Decision)
    requires store.Valid()
    modifies store
    ensures first.Reject? && first.status == StatusUpgradeRequired ==>
              second == Reject(StatusUnauthorized, ErrorMessageNeedAuthorization)
  {
    first := store.NeedValidation(authorization, now, true, true, true);
    second := store.NeedValidation(authorization, later, true, true, true);
  }

  /** `authMeCalculateHash`: the hex SHA-256 of the hex SHA-256 of the
      password followed by the salt. */
  function AuthMeCalculateHash(sha256Hex: Digest, password: String, salt: String): (hash: String)
    ensures hash == sha256Hex(sha256Hex(password) + salt)
  {
    var hashedPasswordString := sha256Hex(password);
    sha256Hex(hashedPasswordString + salt)
  }

  /** The stored form of an AuthMe password: `$SHA$<salt>$<hash>`. */
  function AuthMeStoredHash(sha256Hex: Digest, password: String, salt: String): String
  {
    "$SHA$" + salt + "$" + AuthMeCalculateHash(sha256Hex, password, salt)
  }

  /** Outcome of the password check as written: Go panics when it indexes
      past the end of the segment list. */
  datatype CredentialCheck = Checked(ok: bool) | IndexOutOfRange

  /** `checkUserCredentials` as written: segment 1 is read unconditionally,
      segments 2 and 3 once segment 1 is "SHA". */
  function CheckUserCredentialsAsWritten(sha256Hex: Digest, expected: String, attempt: String): (r: CredentialCheck)
    ensures var segs := Split(expected, '$');
            && (r.IndexOutOfRange? <==> |segs| < 2 || (segs[1] == "SHA" && |segs| < 4))
            && (r.Checked? ==>
                  (r.ok <==> segs[1] == "SHA" && segs[3] == AuthMeCalculateHash(sha256Hex, attempt, segs[2])))
  {
    var segs := Split(expected, '$');
    if |segs| < 2 then IndexOutOfRange
    else if segs[1] != "SHA" then Checked(false)
    else if |segs| < 3 then IndexOutOfRange
    else
      var passwordSalt := segs[2];
      if |segs| < 4 then IndexOutOfRange
      else
        var expectedPasswordHash := segs[3];
        Checked(expectedPasswordHash == AuthMeCalculateHash(sha256Hex, attempt, passwordSalt))
  }

  /** A stored value with a "SHA" tag but no hash segment makes the check as
      written index past the end of the segments. */
  lemma TruncatedStoredHashPanics(sha256Hex: Digest, attempt: String)
    ensures CheckUserCredentialsAsWritten(sha256Hex, "$SHA$salt", attempt) == IndexOutOfRange
  {
    var parts: seq<String> := ["", "SHA", "salt"];
    assert JoinWith(parts, '$') == "$SHA$salt";
    SplitJoin(parts, '$');
  }

  /** The password check: true iff the stored value has at least four
      `$`-separated segments, segment 1 is "SHA", and segment 3 equals the
      hash of the attempt with segment 2 as salt. A shorter value is refused. */
  function CheckUserCredentials(sha256Hex: Digest, expected: String, attempt: String): (ok: bool)
    ensures var segs := Split(expected, '$');
            ok <==> |segs| >= 4 && segs[1] == "SHA" && segs[3] == AuthMeCalculateHash(sha256Hex, attempt, segs[2])
  {
    var segs := Split(expected, '$');
    |segs| >= 4 && segs[1] == "SHA" && segs[3] == AuthMeCalculateHash(sha256Hex, attempt, segs[2])
  }

  /** The corrected check agrees with the code wherever the code does not panic. */
  lemma CheckUserCredentialsAgrees(sha256Hex: Digest, expected: String, attempt: String)
    ensures CheckUserCredentialsAsWritten(sha256Hex, expected, attempt).Checked? ==>
              CheckUserCredentialsAsWritten(sha256Hex, expected, attempt).ok == CheckUserCredentials(sha256Hex, expected, attempt)
  {
  }

  /** The right password is accepted against the value AuthMe stores for it,
      given a salt and a hash free of `$`. */
  lemma StoredHashAccepted(sha256Hex: Digest, password: String, salt: String)
    requires '$' !in salt && '$' !in AuthMeCalculateHash(sha256Hex, password, salt)
    ensures CheckUserCredentials(sha256Hex, AuthMeStoredHash(sha256Hex, password, salt), password)
  {
    var hash := AuthMeCalculateHash(sha256Hex, password, salt);
    var parts: seq<String> := ["", "SHA", salt, hash];
    JoinWithFour("", "SHA", salt, hash, '$');
    assert "$SHA$" == "" + ['$'] + "SHA" + ['$'];
    assert JoinWith(parts, '$') == AuthMeStoredHash(sha256Hex, password, salt);
    SplitJoin(parts, '$');
  }

  /** With an injective digest, only the password the stored value was made
      from is accepted. */
  lemma OnlyStoredPasswordAccepted(sha256Hex: Digest, password: String, salt: String, attempt: String)
    requires forall x, y :: sha256Hex(x) == sha256Hex(y) ==> x == y
    requires '$' !in salt && '$' !in AuthMeCalculateHash(sha256Hex, password, salt)
    requires CheckUserCredentials(sha256Hex, AuthMeStoredHash(sha256Hex, password, salt), attempt)
    ensures attempt == password
  {
    var hash := AuthMeCalculateHash(sha256Hex, password, salt);
    var parts: seq<String> := ["", "SHA", salt, hash];
    JoinWithFour("", "SHA", salt, hash, '$');
    assert "$SHA$" == "" + ['$'] + "SHA" + ['$'];
    assert JoinWith(parts, '$') == AuthMeStoredHash(sha256Hex, password, salt);
    SplitJoin(parts, '$');
    assert sha256Hex(attempt) + salt == sha256Hex(password) + salt;
    assert sha256Hex(attempt) == (sha256Hex(attempt) + salt)[..|sha256Hex(attempt)|];
  }
}
