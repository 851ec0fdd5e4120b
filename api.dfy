/**
 * The client handle: the server's authority (its base URL), the current
 * session cookie and the credentials used to renew it.
 */
module AuthApi {
  import opened Common
  import opened ErrorHandling
  import opened AuthCookie

  /**
   * The test `Api::new` applies to trailing characters: the character's code
   * point cut to its low byte equals 47, the code of `/`. Besides `/` this
   * holds of every character whose code point is 47 more than a multiple of 256.
   */
  predicate IsTrimmed(c: char)
  {
    (c as int) % 256 == 47
  }

  /**
   * The authority with its trailing run of `IsTrimmed` characters removed:
   * a prefix of the input, followed in the input only by such characters,
   * and not itself ending in one.
   */
  function TrimAuthority(s: string): (t: string)
    ensures t <= s
    ensures forall k :: |t| <= k < |s| ==> IsTrimmed(s[k])
    ensures t == [] || !IsTrimmed(t[|t| - 1])
    decreases |s|
  {
    if s == [] || !IsTrimmed(s[|s| - 1]) then s else TrimAuthority(s[..|s| - 1])
  }

  /** The three properties of `TrimAuthority` pin its result down: there is exactly one such prefix. */
  lemma TrimIsUnique(s: string, p: string)
    requires p <= s
    requires forall k :: |p| <= k < |s| ==> IsTrimmed(s[k])
    requires p == [] || !IsTrimmed(p[|p| - 1])
    ensures p == TrimAuthority(s)
  {
  }

  /** Trimming twice trims no more than trimming once. */
  lemma TrimIdempotent(s: string)
    ensures TrimAuthority(TrimAuthority(s)) == TrimAuthority(s)
  {
    var t := TrimAuthority(s);
    TrimIsUnique(t, t);
  }

  /** An authority made only of trimmed characters trims to nothing. */
  lemma TrimAllTrimmed(s: string)
    requires forall k :: 0 <= k < |s| ==> IsTrimmed(s[k])
    ensures TrimAuthority(s) == ""
  {
    TrimIsUnique(s, "");
  }

  /** The authority of the client's own test, with seven trailing slashes. */
  lemma TrimExample(s: string)
    requires s == "http://localhost:6011///////"
    ensures TrimAuthority(s) == "http://localhost:6011"
  {
    TrimIsUnique(s, "http://localhost:6011");
  }

  /**
   * Because the test looks at the low byte only, a trailing U+012F (`į`,
   * code point 303 = 256 + 47) is trimmed as if it were a slash, and so is
   * the slash before it.
   */
  lemma TrimLowByteExample(s: string)
    requires s == "http://host/\U{012F}"
    ensures TrimAuthority(s) == "http://host"
  {
    TrimIsUnique(s, "http://host");
  }

  class Api {
    var authority: string
    var cookie: Cookie
    var credentials: Credentials

    constructor Init(authority: string, cookie: Cookie, credentials: Credentials)
      ensures this.authority == authority && this.cookie == cookie && this.credentials == credentials
    {
      this.authority := authority;
      this.cookie := cookie;
      this.credentials := credentials;
    }

    /**
     * `Api::new`: trims the authority, logs in (at clock reading `now`, with
     * the given outcome) and keeps the resulting cookie; a failed login is
     * the result and no handle is made.
     */
    static method New(authority: string, credentials: Credentials, now: Instant, login: LoginOutcome)
      returns (r: Result<Api, Error>)
      requires Extractable(login)
      ensures NewCookie(now, login).Err? ==> r == Err(NewCookie(now, login).error)
      ensures NewCookie(now, login).Ok? ==>
                r.Ok? && fresh(r.value) &&
                r.value.authority == TrimAuthority(authority) &&
                r.value.cookie == NewCookie(now, login).value &&
                r.value.credentials == credentials
    {
      var trimmed := TrimAuthority(authority);
      var c := NewCookie(now, login);
      if c.Err? {
        return Err(c.error);
      }
      var api := new Api.Init(trimmed, c.value, credentials);
      r := Ok(api);
    }

    /**
     * `Api::get_cookie`: resets the cookie (logging in again only if it has
     * expired at `now`), stores the result and returns its token. A failed
     * login is returned and the stored cookie is left as it was.
     */
    method GetCookie(now: Instant, login: LoginOutcome) returns (r: Result<string, Error>)
      requires IsExpired(cookie, now) ==> Extractable(login)
      modifies this`cookie
      ensures authority == old(authority) && credentials == old(credentials)
      ensures Reset(old(cookie), now, login).Ok? ==>
                cookie == Reset(old(cookie), now, login).value && r == Ok(cookie.cookie)
      ensures Reset(old(cookie), now, login).Err? ==>
                cookie == old(cookie) && r == Err(Reset(old(cookie), now, login).error)
      ensures !IsExpired(old(cookie), now) ==> cookie == old(cookie) && r == Ok(old(cookie).cookie)
      ensures r.Ok? ==> !IsExpired(cookie, now)
    {
      var x := Reset(cookie, now, login);
      if x.Err? {
        return Err(x.error);
      }
      cookie := x.value;
      r := Ok(cookie.cookie);
    }
  }
}
