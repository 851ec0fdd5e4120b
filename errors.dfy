/**
 * The client's error tree (`Error` over the four leaf enums of the auth, misc
 * and torrent layers) and its flat counterpart `FlatError`, with the
 * mappings between them and their lifting to `Result`.
 *
 * Several leaf enums share constructor names with `FlatError`
 * (`WrongCreds`, `ReqwestError`, ...), so a constructor used as a value is
 * written qualified by its type.
 */
module ErrorHandling {
  import opened Common

  datatype AuthErrors = WrongCreds | TooManyFailedAttempts | MiscError(message: string)
  {
    /** A miscellaneous auth error's message is its text alone; the others have a fixed one. */
    function ErrMessage(): (msg: string)
      ensures MiscError? ==> msg == message
      ensures !MiscError? ==> |msg| > 0
    {
      match this
      case WrongCreds => "The credentials are wrong."
      case TooManyFailedAttempts =>
        "The user was banned for a while because there were too many failed login attempts."
      case MiscError(message) => message
    }
  }

  datatype MiscErrors = ReqwestError(message: string) | JsonSerdeError(message: string)
  {
    /** A fixed prefix naming the kind of failure, then the text. */
    function ErrMessage(): (msg: string)
      ensures |message| < |msg| && msg[|msg| - |message|..] == message
    {
      var prefix := if ReqwestError? then "there was an error during a request. "
                    else "there was an error during serialization. ";
      assert (prefix + message)[|prefix|..] == message;
      prefix + message
    }
  }

  datatype TorrentErrors = TorrentsNotSet | TorrentFilePathError
  {
    function ErrMessage(): (msg: string)
      ensures |msg| > 0
    {
      match this
      case TorrentsNotSet => "you didn't set any torrents."
      case TorrentFilePathError =>
        "the file path for the torrent file was wrong, malformed, or the file couldn't be read."
    }
  }

  datatype ApiErrors = TorrentError(torrentError: TorrentErrors)
  {
    function ErrMessage(): (msg: string)
      ensures |msg| > 0
    {
      match this
      case TorrentError(t) => t.ErrMessage()
    }
  }

  /** The nested error every fallible operation of the client returns. */
  datatype Error = AuthError(auth: AuthErrors) | MiscError(misc: MiscErrors) | ApiError(api: ApiErrors)
  {
    /**
     * The message of the wrapped leaf error: a leaf that carries a text ends
     * its message with that text; the others have a fixed, non-empty one.
     */
    function ErrMessage(): (msg: string)
      ensures LeafPayload(this).Some? ==>
                var text := LeafPayload(this).value;
                |text| <= |msg| && msg[|msg| - |text|..] == text
      ensures LeafPayload(this).None? ==> |msg| > 0
    {
      match this
      case AuthError(a) => a.ErrMessage()
      case MiscError(m) => m.ErrMessage()
      case ApiError(p) => p.ErrMessage()
    }
  }

  /** The same errors with the nesting removed. */
  datatype FlatError =
    | TorrentsNotSet
    | TorrentFilePathError
    | WrongCreds
    | TooManyFailedAttempts
    | MiscAuthError(message: string)
    | ReqwestError(message: string)
    | JsonSerdeError(message: string)

  /** The name of the leaf variant at the bottom of an `Error`, as the source names it. */
  function LeafName(e: Error): string
  {
    match e
    case AuthError(WrongCreds) => "WrongCreds"
    case AuthError(TooManyFailedAttempts) => "TooManyFailedAttempts"
    case AuthError(MiscError(_)) => "MiscError"
    case MiscError(ReqwestError(_)) => "ReqwestError"
    case MiscError(JsonSerdeError(_)) => "JsonSerdeError"
    case ApiError(TorrentError(TorrentsNotSet)) => "TorrentsNotSet"
    case ApiError(TorrentError(TorrentFilePathError)) => "TorrentFilePathError"
  }

  /** The text a leaf variant carries, if it carries one. */
  function LeafPayload(e: Error): Option<string>
  {
    match e
    case AuthError(MiscError(s)) => Some(s)
    case MiscError(m) => Some(m.message)
    case _ => None
  }

  /** The name of a `FlatError` variant. */
  function FlatName(f: FlatError): string
  {
    match f
    case TorrentsNotSet => "TorrentsNotSet"
    case TorrentFilePathError => "TorrentFilePathError"
    case WrongCreds => "WrongCreds"
    case TooManyFailedAttempts => "TooManyFailedAttempts"
    case MiscAuthError(_) => "MiscAuthError"
    case ReqwestError(_) => "ReqwestError"
    case JsonSerdeError(_) => "JsonSerdeError"
  }

  /** The text a `FlatError` variant carries, if it carries one. */
  function FlatPayload(f: FlatError): Option<string>
  {
    if f.MiscAuthError? || f.ReqwestError? || f.JsonSerdeError? then Some(f.message) else None
  }

  /**
   * `Error::flatten_err`: every leaf goes to the flat variant of the same
   * name (the auth layer's `MiscError` is called `MiscAuthError` once flat),
   * and its text is carried over unchanged.
   */
  function FlattenErr(e: Error): (f: FlatError)
    ensures FlatName(f) == if LeafName(e) == "MiscError" then "MiscAuthError" else LeafName(e)
    ensures FlatPayload(f) == LeafPayload(e)
  {
    match e
    case AuthError(a) =>
      (match a
       case WrongCreds => FlatError.WrongCreds
       case TooManyFailedAttempts => FlatError.TooManyFailedAttempts
       case MiscError(s) => FlatError.MiscAuthError(s))
    case MiscError(m) =>
      (match m
       case ReqwestError(s) => FlatError.ReqwestError(s)
       case JsonSerdeError(s) => FlatError.JsonSerdeError(s))
    case ApiError(TorrentError(t)) =>
      (match t
       case TorrentsNotSet => FlatError.TorrentsNotSet
       case TorrentFilePathError => FlatError.TorrentFilePathError)
  }

  /**
   * `FlatError::unflatten_err`: every flat variant goes back under its layer,
   * text unchanged, except that a flat `JsonSerdeError` becomes the misc
   * layer's `ReqwestError`.
   */
  function UnflattenErr(f: FlatError): (e: Error)
    ensures LeafName(e) == if f.MiscAuthError? then "MiscError"
                           else if f.JsonSerdeError? then "ReqwestError"
                           else FlatName(f)
    ensures LeafPayload(e) == FlatPayload(f)
  {
    match f
    case TorrentsNotSet => Error.ApiError(TorrentError(TorrentErrors.TorrentsNotSet))
    case TorrentFilePathError => Error.ApiError(TorrentError(TorrentErrors.TorrentFilePathError))
    case WrongCreds => Error.AuthError(AuthErrors.WrongCreds)
    case TooManyFailedAttempts => Error.AuthError(AuthErrors.TooManyFailedAttempts)
    case MiscAuthError(s) => Error.AuthError(AuthErrors.MiscError(s))
    case ReqwestError(s) => Error.MiscError(MiscErrors.ReqwestError(s))
    case JsonSerdeError(s) => Error.MiscError(MiscErrors.ReqwestError(s))
  }

  /** A leaf's name and text determine the whole error. */
  lemma LeafDetermines(a: Error, b: Error)
    requires LeafName(a) == LeafName(b) && LeafPayload(a) == LeafPayload(b)
    ensures a == b
  {
    match a
    case AuthError(x) => match x { case _ => }
    case MiscError(x) => match x { case _ => }
    case ApiError(TorrentError(x)) => match x { case _ => }
  }

  /** Distinct errors flatten to distinct flat errors. */
  lemma FlattenInjective(a: Error, b: Error)
    requires FlattenErr(a) == FlattenErr(b)
    ensures a == b
  {
    var fa := FlattenErr(a);
    assert LeafPayload(a) == FlatPayload(fa) == LeafPayload(b);
    assert LeafName(a) == LeafName(b) by {
      if LeafName(a) == "MiscError" || LeafName(b) == "MiscError" {
        assert FlatName(fa) == "MiscAuthError";
      }
    }
    LeafDetermines(a, b);
  }

  /** Flattening an unflattened error gives it back, except that `JsonSerdeError` comes back as `ReqwestError`. */
  lemma FlattenUnflatten(f: FlatError)
    ensures FlattenErr(UnflattenErr(f)) ==
            if f.JsonSerdeError? then FlatError.ReqwestError(f.message) else f
  {
  }

  /** Unflattening a flattened error gives it back, except that a misc `JsonSerdeError` comes back as a misc `ReqwestError`. */
  lemma UnflattenFlatten(e: Error)
    ensures UnflattenErr(FlattenErr(e)) ==
            if e.MiscError? && e.misc.JsonSerdeError? then Error.MiscError(MiscErrors.ReqwestError(e.misc.message))
            else e
  {
  }

  /** No flat error unflattens to a misc `JsonSerdeError`: that part of the tree is out of `UnflattenErr`'s reach. */
  lemma UnflattenMissesJsonSerde(f: FlatError, s: string)
    ensures UnflattenErr(f) != Error.MiscError(MiscErrors.JsonSerdeError(s))
  {
  }

  /**
   * What the asymmetry shows to a user: a round trip through the flat form
   * keeps every error's message except a serialization error's, which is
   * then reported as a request error.
   */
  lemma RoundTripMessage(e: Error)
    ensures e.MiscError? && e.misc.JsonSerdeError? ==>
              UnflattenErr(FlattenErr(e)).ErrMessage() ==
              "there was an error during a request. " + e.misc.message
    ensures !(e.MiscError? && e.misc.JsonSerdeError?) ==>
              UnflattenErr(FlattenErr(e)).ErrMessage() == e.ErrMessage()
  {
    UnflattenFlatten(e);
  }

  /** `FlattenError` for `Result<T, Error>`: successes pass through, errors are flattened. */
  function FlattenResult<T>(r: Result<T, Error>): (o: Result<T, FlatError>)
    ensures o.Ok? <==> r.Ok?
    ensures r.Ok? ==> o.value == r.value
    ensures r.Err? ==> o.error == FlattenErr(r.error)
  {
    match r
    case Ok(x) => Ok(x)
    case Err(e) => Err(FlattenErr(e))
  }

  /** `UnFlattenError` for `Result<T, FlatError>`: successes pass through, errors are unflattened. */
  function UnflattenResult<T>(r: Result<T, FlatError>): (o: Result<T, Error>)
    ensures o.Ok? <==> r.Ok?
    ensures r.Ok? ==> o.value == r.value
    ensures r.Err? ==> o.error == UnflattenErr(r.error)
  {
    match r
    case Ok(x) => Ok(x)
    case Err(f) => Err(UnflattenErr(f))
  }

  /** Lifting keeps the round trip of the bare errors: only a misc `JsonSerdeError` result is changed. */
  lemma ResultRoundTrip<T>(r: Result<T, Error>)
    ensures UnflattenResult(FlattenResult(r)) ==
            if r.Err? && r.error.MiscError? && r.error.misc.JsonSerdeError?
            then Err(Error.MiscError(MiscErrors.ReqwestError(r.error.misc.message)))
            else r
  {
    if r.Err? {
      UnflattenFlatten(r.error);
    }
  }
}
