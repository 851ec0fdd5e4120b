/**
 * The session cookie: how a login response is classified, how the session
 * id is cut out of its `set-cookie` header, when a cookie counts as expired,
 * and `reset`, which keeps a live cookie or logs in again.
 *
 * The login exchange itself is not modelled: its outcome is an input, either
 * the response (status and first `set-cookie` header, as raw bytes) or the
 * transport's failure text. The monotonic clock is an input too, read in
 * whole seconds.
 */
module AuthCookie {
  import opened Common
  import opened Strings
  import opened ErrorHandling

  /** A reading of the monotonic clock, in whole seconds. */
  type Instant = nat

  /** A cookie this old is treated as expired: one minute short of the server's hour. */
  const ExpirySecs: nat := 3540

  type StatusCode = x: int | 100 <= x <= 999 witness 200

  predicate IsSuccess(status: StatusCode)
  {
    200 <= status <= 299
  }

  /** Username and password, as the caller supplied them. */
  datatype Credentials = Credentials(username: string, password: string)

  /** What the server answered to a login request. */
  datatype LoginResponse = LoginResponse(status: StatusCode, setCookie: Option<seq<byte>>)

  /** The outcome of sending a login request: a response, or the transport's failure text. */
  type LoginOutcome = Result<LoginResponse, string>

  datatype Cookie = Cookie(cookie: string, timeOfCreation: Instant)

  predicate IsVisibleAscii(b: byte)
  {
    (32 <= b < 127) || b == 9
  }

  /** `HeaderValue::to_str`: the header as text, if every byte is visible ASCII or a tab. */
  function HeaderToStr(h: seq<byte>): (r: Option<string>)
    ensures r.Some? <==> forall k :: 0 <= k < |h| ==> IsVisibleAscii(h[k])
    ensures r.Some? ==> |r.value| == |h| && forall k :: 0 <= k < |h| ==> r.value[k] as int == h[k]
  {
    if forall k :: 0 <= k < |h| ==> IsVisibleAscii(h[k])
    then Some(seq(|h|, k requires 0 <= k < |h| => h[k] as char))
    else None
  }

  /** After the first `=` at `i`, the second piece of a split on `=` is the first piece of the text after it. */
  lemma SecondPieceAfter(header: string, i: nat)
    requires i < |header| && header[i] == '=' && '=' !in header[..i]
    ensures |Split(header, '=')| > 1 && Split(header, '=')[1] == Split(header[i + 1..], '=')[0]
  {
    SplitCount(header, '=');
    SplitFirstPiece(header, '=');
    assert |Split(header, '=')[0]| == i;
  }

  /**
   * The first piece of a split on `=`, cut at its first `;`, is a prefix of
   * the text that holds neither, and ends at the text's end or at an `=` or `;`.
   */
  lemma PieceUpToStop(rest: string)
    ensures var t := Split(Split(rest, '=')[0], ';')[0];
      t <= rest && '=' !in t && ';' !in t &&
      (|t| == |rest| || rest[|t|] == '=' || rest[|t|] == ';')
  {
    SplitFirstPiece(rest, '=');
    var second := Split(rest, '=')[0];
    SplitFirstPiece(second, ';');
    var t := Split(second, ';')[0];
    if |t| < |rest| {
      if |t| == |second| {
        assert rest[|second|] == '=';
      } else {
        assert second[|t|] == ';';
      }
    }
  }

  /**
   * Where the second piece of a split on `=`, cut at the first `;`, lies in
   * the header: right after the first `=`, up to the next `=` or `;` or the
   * end of the header.
   */
  lemma TokenBounds(header: string, i: nat, t: string)
    requires i < |header| && header[i] == '=' && '=' !in header[..i]
    requires |Split(header, '=')| > 1 && t == Split(Split(header, '=')[1], ';')[0]
    ensures i + 1 + |t| <= |header| && header[i + 1..i + 1 + |t|] == t &&
      '=' !in t && ';' !in t &&
      (i + 1 + |t| == |header| || header[i + 1 + |t|] == '=' || header[i + 1 + |t|] == ';')
  {
    var rest := header[i + 1..];
    SecondPieceAfter(header, i);
    PieceUpToStop(rest);
    assert t <= rest;
    assert header[i + 1..i + 1 + |t|] == rest[..|t|];
  }

  /** `i` is the position of the first `=` in `header`. */
  predicate FirstEquals(header: string, i: int)
  {
    0 <= i < |header| && header[i] == '=' && '=' !in header[..i]
  }

  lemma TokenBoundsEverywhere(header: string, t: string)
    requires |Split(header, '=')| > 1 && t == Split(Split(header, '=')[1], ';')[0]
    ensures forall i :: FirstEquals(header, i) ==>
              i + 1 + |t| <= |header| && header[i + 1..i + 1 + |t|] == t &&
              (i + 1 + |t| == |header| || header[i + 1 + |t|] == '=' || header[i + 1 + |t|] == ';')
  {
    forall i | FirstEquals(header, i) {
      TokenBounds(header, i, t);
    }
  }

  /**
   * The session id in a `set-cookie` value: the second piece of a split on
   * `=`, then the first piece of that split on `;`. That is the text after
   * the first `=`, up to the next `=` or `;` or the end of the header.
   * Without an `=` the source indexes past the end of the first split and
   * panics.
   */
  function ExtractToken(header: string): (t: string)
    requires '=' in header
    ensures '=' !in t && ';' !in t
    ensures forall i :: FirstEquals(header, i) ==>
              i + 1 + |t| <= |header| && header[i + 1..i + 1 + |t|] == t &&
              (i + 1 + |t| == |header| || header[i + 1 + |t|] == '=' || header[i + 1 + |t|] == ';')
  {
    SplitCount(header, '=');
    var t := Split(Split(header, '=')[1], ';')[0];
    SplitFirstPiece(Split(header, '=')[1], ';');
    TokenBoundsEverywhere(header, t);
    t
  }

  /** A header `name=value;rest` whose name has no `=` and whose value has neither `=` nor `;` gives the value. */
  lemma TokenOfPair(name: string, value: string, rest: string)
    requires '=' !in name && '=' !in value && ';' !in value
    ensures ExtractToken(name + "=" + value + ";" + rest) == value
  {
    var h := name + "=" + value + ";" + rest;
    var i := |name|;
    assert h[..i] == name && h[i] == '=';
    assert FirstEquals(h, i);
    var t := ExtractToken(h);
    assert h[i + 1..i + 1 + |value|] == value && h[i + 1 + |value|] == ';';
  }

  /** An example `set-cookie` header. */
  lemma TokenExample(h: string)
    requires h == "SID=abc123; path=/"
    ensures ExtractToken(h) == "abc123"
  {
    assert h == "SID" + "=" + "abc123" + ";" + " path=/";
    TokenOfPair("SID", "abc123", " path=/");
  }

  /** The text of the auth error for an unexpected status: a fixed prefix, then the status in decimal. */
  const StatusMessagePrefix := "in-library error code: 001. something went wrong. we don't really know what. status code: "

  function StatusMessage(status: StatusCode): (msg: string)
    ensures |msg| > |StatusMessagePrefix| && msg[..|StatusMessagePrefix|] == StatusMessagePrefix
    ensures IsDigits(msg[|StatusMessagePrefix|..])
    ensures ParseNat(msg[|StatusMessagePrefix|..]) == status
  {
    var m := StatusMessagePrefix + NatToString(status);
    assert m[|StatusMessagePrefix|..] == NatToString(status);
    ParseNatToString(status);
    m
  }

  /**
   * A login outcome the source can handle without panicking: a successful
   * response whose `set-cookie` header is text must hold an `=`.
   */
  predicate Extractable(login: LoginOutcome)
  {
    login.Ok? && IsSuccess(login.value.status) && login.value.setCookie.Some? &&
    HeaderToStr(login.value.setCookie.value).Some?
    ==> '=' in HeaderToStr(login.value.setCookie.value).value
  }

  /** The login response's `set-cookie` header as text, if there is one and it is text. */
  function CookieHeaderText(response: LoginResponse): Option<string>
  {
    match response.setCookie
    case None => None
    case Some(h) => HeaderToStr(h)
  }

  /**
   * `Cookie::new`, from the moment `now` taken before the login request is
   * sent and the outcome of that request.
   */
  function NewCookie(now: Instant, login: LoginOutcome): (r: Result<Cookie, Error>)
    requires Extractable(login)
    ensures login.Err? ==> r == Err(Error.MiscError(MiscErrors.ReqwestError(login.error)))
    ensures r.Ok? <==> login.Ok? && IsSuccess(login.value.status) && CookieHeaderText(login.value).Some?
    ensures r.Ok? ==> r.value.timeOfCreation == now && r.value.cookie == ExtractToken(CookieHeaderText(login.value).value)
    ensures r == Err(Error.AuthError(AuthErrors.WrongCreds)) <==>
              login.Ok? && IsSuccess(login.value.status) && CookieHeaderText(login.value).None?
    ensures r == Err(Error.AuthError(AuthErrors.TooManyFailedAttempts)) <==> login.Ok? && login.value.status == 403
    ensures (r.Err? && r.error.AuthError? && r.error.auth.MiscError?) <==>
              login.Ok? && !IsSuccess(login.value.status) && login.value.status != 403
    ensures r.Err? && r.error.AuthError? && r.error.auth.MiscError? ==>
              r.error.auth.message == StatusMessage(login.value.status)
  {
    match login
    case Err(reason) => Err(Error.MiscError(MiscErrors.ReqwestError(reason)))
    case Ok(response) =>
      if IsSuccess(response.status) then
        match CookieHeaderText(response)
        case Some(text) => Ok(Cookie(ExtractToken(text), now))
        case None => Err(Error.AuthError(AuthErrors.WrongCreds))
      else if response.status == 403 then Err(Error.AuthError(AuthErrors.TooManyFailedAttempts))
      else Err(Error.AuthError(AuthErrors.MiscError(StatusMessage(response.status))))
  }

  /** Seconds since the cookie was made; an earlier reading counts as no time at all. */
  function Elapsed(c: Cookie, now: Instant): nat
  {
    if now >= c.timeOfCreation then now - c.timeOfCreation else 0
  }

  /** `Cookie::is_expired`: the cookie's hour (less a minute) has run out. */
  function IsExpired(c: Cookie, now: Instant): (expired: bool)
    ensures expired <==> c.timeOfCreation + ExpirySecs <= now
  {
    Elapsed(c, now) >= ExpirySecs
  }

  /** The expiry boundary: alive 3539 seconds after creation, expired at 3540. */
  lemma ExpiryBoundary(c: Cookie)
    ensures !IsExpired(c, c.timeOfCreation + 3539)
    ensures IsExpired(c, c.timeOfCreation + 3540)
  {
  }

  /** Expiry is a matter of time only: once expired, a cookie stays expired. */
  lemma ExpiryIsMonotonic(c: Cookie, t1: Instant, t2: Instant)
    requires t1 <= t2 && IsExpired(c, t1)
    ensures IsExpired(c, t2)
  {
  }

  /** `Cookie::reset`: the same cookie while it lives, otherwise the outcome of a fresh login. */
  function Reset(c: Cookie, now: Instant, login: LoginOutcome): (r: Result<Cookie, Error>)
    requires IsExpired(c, now) ==> Extractable(login)
    ensures !IsExpired(c, now) ==> r == Ok(c)
    ensures IsExpired(c, now) ==> r == NewCookie(now, login)
  {
    if IsExpired(c, now) then NewCookie(now, login) else Ok(c)
  }

  /** A live cookie is kept whatever the server would have answered: no login takes place. */
  lemma ResetConsultsNoServer(c: Cookie, now: Instant, l1: LoginOutcome, l2: LoginOutcome)
    requires !IsExpired(c, now)
    ensures Reset(c, now, l1) == Reset(c, now, l2) == Ok(c)
  {
  }

  /** Whatever cookie `reset` hands back is alive at the moment it was asked for. */
  lemma ResetGivesLiveCookie(c: Cookie, now: Instant, login: LoginOutcome)
    requires IsExpired(c, now) ==> Extractable(login)
    requires Reset(c, now, login).Ok?
    ensures !IsExpired(Reset(c, now, login).value, now)
  {
  }

  /**
   * Two resets within the window of the cookie the first one gave back log
   * in at most once: the second keeps that cookie.
   */
  lemma ResetTwice(c: Cookie, t1: Instant, t2: Instant, l1: LoginOutcome, l2: LoginOutcome)
    requires IsExpired(c, t1) ==> Extractable(l1)
    requires Reset(c, t1, l1).Ok?
    requires t1 <= t2 && Elapsed(Reset(c, t1, l1).value, t2) < ExpirySecs
    ensures Reset(Reset(c, t1, l1).value, t2, l2) == Reset(c, t1, l1)
  {
  }
}
