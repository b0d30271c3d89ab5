/**
 The error vocabulary of the WebDriver server: the closed set of error
 statuses, the error value that carries one status and a free-text message,
 the two tables from a status to its protocol token and to its HTTP status,
 and the renderers built on them.
 */
module Error {
  import opened Wrappers
  import opened JsonValue

  /** The error kinds of the WebDriver protocol, in declaration order. */
  datatype ErrorStatus =
    | ElementNotSelectable
    | ElementNotVisible
    | InvalidArgument
    | InvalidCookieDomain
    | InvalidElementCoordinates
    | InvalidElementState
    | InvalidSelector
    | InvalidSessionId
    | JavascriptError
    | MoveTargetOutOfBounds
    | NoSuchAlert
    | NoSuchElement
    | NoSuchFrame
    | NoSuchWindow
    | ScriptTimeout
    | SessionNotCreated
    | StaleElementReference
    | Timeout
    | UnableToSetCookie
    | UnexpectedAlertOpen
    | UnknownError
    | UnknownPath
    | UnknownMethod
    | UnsupportedOperation

  /** An error as it travels to the transport layer: one status, one message. */
  datatype WebDriverError = WebDriverError(status: ErrorStatus, message: string)

  /** The HTTP statuses the table uses, by their numeric code. */
  const BadRequest: int := 400
  const NotFound: int := 404
  const MethodNotAllowed: int := 405
  const RequestTimeout: int := 408
  const InternalServerError: int := 500

  /** Builds an error from a status and a message; the message is kept as given. */
  function New(status: ErrorStatus, message: string): (r: WebDriverError)
    ensures r.status == status
    ensures r.message == message
  {
    WebDriverError(status, message)
  }

  /** The protocol status token of an error. */
  function StatusCode(err: WebDriverError): (r: string)
    ensures |r| > 0
    ensures r == "unknown command" <==> err.status == UnknownPath || err.status == UnknownMethod
  {
    match err.status
    case ElementNotSelectable => "element not selectable"
    case ElementNotVisible => "element not visible"
    case InvalidArgument => "invalid argument"
    case InvalidCookieDomain => "invalid cookie domain"
    case InvalidElementCoordinates => "invalid element coordinates"
    case InvalidElementState => "invalid element state"
    case InvalidSelector => "invalid selector"
    case InvalidSessionId => "invalid session id"
    case JavascriptError => "javascript error"
    case MoveTargetOutOfBounds => "move target out of bounds"
    case NoSuchAlert => "no such alert"
    case NoSuchElement => "no such element"
    case NoSuchFrame => "no such frame"
    case NoSuchWindow => "no such window"
    case ScriptTimeout => "script timeout"
    case SessionNotCreated => "session not created"
    case StaleElementReference => "stale element reference"
    case Timeout => "timeout"
    case UnableToSetCookie => "unable to set cookie"
    case UnexpectedAlertOpen => "unexpected alert open"
    case UnknownError => "unknown error"
    case UnknownPath => "unknown command"
    case UnknownMethod => "unknown command"
    case UnsupportedOperation => "unsupported operation"
  }

  /** The HTTP status an error is sent with. */
  function HttpStatus(err: WebDriverError): (r: int)
    ensures r in {BadRequest, NotFound, MethodNotAllowed, RequestTimeout, InternalServerError}
    ensures r == MethodNotAllowed <==> err.status == UnknownMethod
    ensures r == RequestTimeout <==> err.status in {ScriptTimeout, Timeout}
    ensures r == NotFound <==> err.status in {InvalidSessionId, NoSuchElement, UnknownPath}
    ensures r == InternalServerError <==>
      err.status in {JavascriptError, MoveTargetOutOfBounds, SessionNotCreated, UnableToSetCookie,
                     UnexpectedAlertOpen, UnknownError, UnsupportedOperation}
    ensures r == BadRequest <==>
      err.status in {ElementNotSelectable, ElementNotVisible, InvalidArgument, InvalidCookieDomain,
                     InvalidElementCoordinates, InvalidElementState, InvalidSelector, NoSuchAlert,
                     NoSuchFrame, NoSuchWindow, StaleElementReference}
  {
    match err.status
    case ElementNotSelectable => BadRequest
    case ElementNotVisible => BadRequest
    case InvalidArgument => BadRequest
    case InvalidCookieDomain => BadRequest
    case InvalidElementCoordinates => BadRequest
    case InvalidElementState => BadRequest
    case InvalidSelector => BadRequest
    case InvalidSessionId => NotFound
    case JavascriptError => InternalServerError
    case MoveTargetOutOfBounds => InternalServerError
    case NoSuchAlert => BadRequest
    case NoSuchElement => NotFound
    case NoSuchFrame => BadRequest
    case NoSuchWindow => BadRequest
    case ScriptTimeout => RequestTimeout
    case SessionNotCreated => InternalServerError
    case StaleElementReference => BadRequest
    case Timeout => RequestTimeout
    case UnableToSetCookie => InternalServerError
    case UnexpectedAlertOpen => InternalServerError
    case UnknownError => InternalServerError
    case UnknownPath => NotFound
    case UnknownMethod => MethodNotAllowed
    case UnsupportedOperation => InternalServerError
  }

  /** The JSON body of an error: an object with a "status" and a "message" string. */
  function ToJson(err: WebDriverError): (r: Json)
    ensures r.Object?
    ensures r.fields.Keys == {"status", "message"}
    ensures r.fields["status"] == String(StatusCode(err))
    ensures r.fields["message"] == String(err.message)
  {
    Object(map["status" := String(StatusCode(err)), "message" := String(err.message)])
  }

  /** What `Display` writes for an error: the message alone. */
  function Display(err: WebDriverError): (r: string)
    ensures r == err.message
  {
    err.message
  }

  /** The short description of an error: its status token, not its message. */
  function Description(err: WebDriverError): (r: string)
    ensures r == StatusCode(err)
  {
    StatusCode(err)
  }

  /** The underlying cause of an error: there never is one. */
  function Cause(err: WebDriverError): (r: Option<WebDriverError>)
    ensures r.None?
  {
    None
  }

  /**
   The conversion from a JSON parser failure. `debug` stands for the parser
   error's debug rendering, which the conversion forwards unchanged.
   */
  function FromParserError(debug: string): (r: WebDriverError)
    ensures r.status == UnknownError
    ensures r.message == debug
    ensures StatusCode(r) == "unknown error"
    ensures HttpStatus(r) == InternalServerError
  {
    New(UnknownError, debug)
  }
}
