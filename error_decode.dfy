/**
 A client's reading of an error response: from the status token, the HTTP
 status and the JSON body back to the error value. It is the inverse of the
 renderers, and the lemmas here show that the wire form loses nothing.
 */
module ErrorDecode {
  import opened Wrappers
  import opened JsonValue
  import opened Error

  /**
   The status a client reads from a token. Tokens are first told apart by
   their length, so that each is compared with at most three others of the
   same length. "unknown command" is shared by two statuses and is told apart
   by the HTTP status.
   */
  function ParseStatus(code: string, http: int): Option<ErrorStatus> {
    match |code|
    case 7 =>
      if code == "timeout" then Some(Timeout)
      else None
    case 13 =>
      if code == "no such alert" then Some(NoSuchAlert)
      else if code == "no such frame" then Some(NoSuchFrame)
      else if code == "unknown error" then Some(UnknownError)
      else None
    case 14 =>
      if code == "no such window" then Some(NoSuchWindow)
      else if code == "script timeout" then Some(ScriptTimeout)
      else None
    case 15 =>
      if code == "no such element" then Some(NoSuchElement)
      else if code == "unknown command" then
        (if http == MethodNotAllowed then Some(UnknownMethod) else Some(UnknownPath))
      else None
    case 16 =>
      if code == "invalid argument" then Some(InvalidArgument)
      else if code == "invalid selector" then Some(InvalidSelector)
      else if code == "javascript error" then Some(JavascriptError)
      else None
    case 18 =>
      if code == "invalid session id" then Some(InvalidSessionId)
      else None
    case 19 =>
      if code == "element not visible" then Some(ElementNotVisible)
      else if code == "session not created" then Some(SessionNotCreated)
      else None
    case 20 =>
      if code == "unable to set cookie" then Some(UnableToSetCookie)
      else None
    case 21 =>
      if code == "invalid cookie domain" then Some(InvalidCookieDomain)
      else if code == "invalid element state" then Some(InvalidElementState)
      else if code == "unexpected alert open" then Some(UnexpectedAlertOpen)
      else if code == "unsupported operation" then Some(UnsupportedOperation)
      else None
    case 22 =>
      if code == "element not selectable" then Some(ElementNotSelectable)
      else None
    case 23 =>
      if code == "stale element reference" then Some(StaleElementReference)
      else None
    case 25 =>
      if code == "move target out of bounds" then Some(MoveTargetOutOfBounds)
      else None
    case 27 =>
      if code == "invalid element coordinates" then Some(InvalidElementCoordinates)
      else None
    case _ => None
  }

  /**
   The error a client reads from a response: an object with exactly the keys
   "status" and "message", both strings, whose token names a status that is
   sent with this HTTP status.
   */
  function FromJson(body: Json, http: int): Option<WebDriverError> {
    if && body.Object?
       && body.fields.Keys == {"status", "message"}
       && body.fields["status"].String?
       && body.fields["message"].String?
    then
      match ParseStatus(body.fields["status"].str, http)
      case None => None
      case Some(st) =>
        var err := WebDriverError(st, body.fields["message"].str);
        if HttpStatus(err) == http then Some(err) else None
    else None
  }

  /** Reading back the token and HTTP status of an error recovers its status. */
  lemma ParseStatusRoundTrip(err: WebDriverError)
    ensures ParseStatus(StatusCode(err), HttpStatus(err)) == Some(err.status)
  {
    match err.status
    case ElementNotSelectable =>
    case ElementNotVisible =>
    case InvalidArgument =>
    case InvalidCookieDomain =>
    case InvalidElementCoordinates =>
    case InvalidElementState =>
    case InvalidSelector =>
    case InvalidSessionId =>
    case JavascriptError =>
    case MoveTargetOutOfBounds =>
    case NoSuchAlert =>
    case NoSuchElement =>
    case NoSuchFrame =>
    case NoSuchWindow =>
    case ScriptTimeout =>
    case SessionNotCreated =>
    case StaleElementReference =>
    case Timeout =>
    case UnableToSetCookie =>
    case UnexpectedAlertOpen =>
    case UnknownError =>
    case UnknownPath =>
    case UnknownMethod =>
    case UnsupportedOperation =>
  }

  /** ParseStatusSound for tokens shorter than 16 characters. */
  lemma ParseStatusSoundShort(code: string, http: int, st: ErrorStatus)
    requires |code| < 16
    requires ParseStatus(code, http) == Some(st)
    ensures StatusCode(WebDriverError(st, "")) == code
  {
  }

  /** ParseStatusSound for tokens of 16 to 20 characters. */
  lemma ParseStatusSoundMiddle(code: string, http: int, st: ErrorStatus)
    requires 16 <= |code| < 21
    requires ParseStatus(code, http) == Some(st)
    ensures StatusCode(WebDriverError(st, "")) == code
  {
  }

  /** ParseStatusSound for tokens of 21 or more characters. */
  lemma ParseStatusSoundLong(code: string, http: int, st: ErrorStatus)
    requires 21 <= |code|
    requires ParseStatus(code, http) == Some(st)
    ensures StatusCode(WebDriverError(st, "")) == code
  {
  }

  /** A token a client reads as a status is exactly that status's token. */
  lemma ParseStatusSound(code: string, http: int, st: ErrorStatus)
    requires ParseStatus(code, http) == Some(st)
    ensures StatusCode(WebDriverError(st, "")) == code
  {
    if |code| < 16 {
      ParseStatusSoundShort(code, http, st);
    } else if |code| < 21 {
      ParseStatusSoundMiddle(code, http, st);
    } else {
      ParseStatusSoundLong(code, http, st);
    }
  }

  /**
   The status token alone identifies the status, except that UnknownPath and
   UnknownMethod share "unknown command".
   */
  lemma StatusCodeInjective(a: WebDriverError, b: WebDriverError)
    requires StatusCode(a) == StatusCode(b)
    ensures a.status == b.status || {a.status, b.status} == {UnknownPath, UnknownMethod}
    ensures a.status != b.status ==> {HttpStatus(a), HttpStatus(b)} == {NotFound, MethodNotAllowed}
  {
    ParseStatusRoundTrip(a);
    ParseStatusRoundTrip(b);
    var code := StatusCode(a);
    if code != "unknown command" {
      assert ParseStatus(code, HttpStatus(a)) == ParseStatus(code, HttpStatus(b));
    }
  }

  /**
   UnknownPath and UnknownMethod share the token "unknown command", whatever
   their messages, and are sent with different HTTP statuses: 404 and 405.
   */
  lemma UnknownCommandCollision(pathMessage: string, methodMessage: string)
    ensures StatusCode(WebDriverError(UnknownPath, pathMessage)) == "unknown command"
    ensures StatusCode(WebDriverError(UnknownMethod, methodMessage)) == "unknown command"
    ensures HttpStatus(WebDriverError(UnknownPath, pathMessage)) == NotFound
    ensures HttpStatus(WebDriverError(UnknownMethod, methodMessage)) == MethodNotAllowed
  {
  }

  /** Decoding the body and HTTP status of an error gives back that error. */
  lemma JsonRoundTrip(err: WebDriverError)
    ensures FromJson(ToJson(err), HttpStatus(err)) == Some(err)
  {
    ParseStatusRoundTrip(err);
  }

  /** Whatever a client decodes is exactly what the server renders for it. */
  lemma FromJsonSound(body: Json, http: int, err: WebDriverError)
    requires FromJson(body, http) == Some(err)
    ensures body == ToJson(err)
    ensures http == HttpStatus(err)
  {
    ParseStatusSound(body.fields["status"].str, http, err.status);
    assert body.fields == ToJson(err).fields;
  }
}
