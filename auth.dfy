/**
 * The HTTP Basic authentication decision guarding every page and mutation.
 * The configured username and password come from the environment and may be unset.
 */
module Auth {
  import opened Wrappers

  /** What the dependency does with a request: let it through, answer 401, or fail with an uncaught `TypeError`. */
  datatype Decision = Granted | Unauthorized | ServerError

  /** The username and password a client presented. */
  datatype Credentials = Credentials(username: string, password: string)

  /** Every character is ASCII; `compare_digest` refuses to compare other strings. */
  predicate IsAscii(s: string)
  {
    forall i :: 0 <= i < |s| ==> s[i] < 128 as char
  }

  /** A variable counts as configured when it is set to a non-empty value (Python's `not u` is true for unset and for ""). */
  predicate Configured(v: Option<string>)
  {
    v.Some? && v.value != ""
  }

  /**
   * `secrets.compare_digest` on a string and a possibly-unset setting, as plain
   * equality; `None` stands for the `TypeError` raised for an unset setting or non-ASCII text.
   */
  function CompareDigest(given: string, expected: Option<string>): (r: Option<bool>)
    ensures r.Some? <==> expected.Some? && IsAscii(given) && IsAscii(expected.value)
    ensures r.Some? ==> (r.value <==> given == expected.value)
  {
    if expected.None? || !IsAscii(given) || !IsAscii(expected.value) then None
    else Some(given == expected.value)
  }

  /**
   * `auth`: with neither setting configured every request passes; otherwise both
   * comparisons run and the request passes only when both match.
   */
  function Authenticate(username: Option<string>, password: Option<string>, cred: Credentials): (d: Decision)
    ensures !Configured(username) && !Configured(password) ==> d == Granted
    ensures d == Granted <==>
              (!Configured(username) && !Configured(password)) ||
              (username == Some(cred.username) && password == Some(cred.password) &&
               IsAscii(cred.username) && IsAscii(cred.password))
    ensures d == ServerError <==>
              (Configured(username) || Configured(password)) &&
              (username.None? || password.None? || !IsAscii(cred.username) || !IsAscii(cred.password) ||
               !IsAscii(username.value) || !IsAscii(password.value))
  {
    if !Configured(username) && !Configured(password) then Granted
    else
      var userGood := CompareDigest(cred.username, username);
      var passGood := CompareDigest(cred.password, password);
      if userGood.None? || passGood.None? then ServerError
      else if userGood.value && passGood.value then Granted
      else Unauthorized
  }

  /** A rejection looks the same whether the username, the password or both were wrong. */
  lemma FailureHidesField(username: string, password: string, wrongUser: string, wrongPass: string)
    requires username != "" && IsAscii(username) && IsAscii(password)
    requires IsAscii(wrongUser) && IsAscii(wrongPass)
    requires wrongUser != username && wrongPass != password
    ensures var u, p := Some(username), Some(password);
            Authenticate(u, p, Credentials(wrongUser, password)) == Unauthorized &&
            Authenticate(u, p, Credentials(username, wrongPass)) == Unauthorized &&
            Authenticate(u, p, Credentials(wrongUser, wrongPass)) == Unauthorized
  {
  }

  /** Setting one variable to a non-empty value and leaving the other unset makes every request fail with a server error. */
  lemma OneSettingUnset(username: string, cred: Credentials)
    requires username != ""
    ensures Authenticate(Some(username), None, cred) == ServerError
    ensures Authenticate(None, Some(username), cred) == ServerError
  {
  }

  /**
   * A variable set to "" does not count as configured, yet it is still compared:
   * alone it lets everything through, beside a configured username it demands an empty password.
   */
  lemma EmptySettingIsCompared(username: string, cred: Credentials)
    requires username != "" && IsAscii(username) && IsAscii(cred.username)
    ensures Authenticate(None, Some(""), cred) == Granted
    ensures Authenticate(Some(username), Some(""), Credentials(username, "")) == Granted
    ensures cred.password != "" && IsAscii(cred.password) ==>
              Authenticate(Some(username), Some(""), cred) == Unauthorized
  {
  }
}
