/**
 The error-code table of section 6.6 of the W3C WebDriver specification, in
 the early-draft form the server follows, written as the rows the
 specification publishes: one status, its token and its HTTP status per row.
 The server splits this table into two `match` expressions; the lemmas here
 show that those two matches are exactly this table, and that the table has
 one row for every status and no other rows.
 */
module ErrorTable {
  import opened Wrappers
  import opened Error

  datatype Row = Row(status: ErrorStatus, token: string, http: int)

  const Table: seq<Row> := [
    Row(ElementNotSelectable, "element not selectable", BadRequest),
    Row(ElementNotVisible, "element not visible", BadRequest),
    Row(InvalidArgument, "invalid argument", BadRequest),
    Row(InvalidCookieDomain, "invalid cookie domain", BadRequest),
    Row(InvalidElementCoordinates, "invalid element coordinates", BadRequest),
    Row(InvalidElementState, "invalid element state", BadRequest),
    Row(InvalidSelector, "invalid selector", BadRequest),
    Row(InvalidSessionId, "invalid session id", NotFound),
    Row(JavascriptError, "javascript error", InternalServerError),
    Row(MoveTargetOutOfBounds, "move target out of bounds", InternalServerError),
    Row(NoSuchAlert, "no such alert", BadRequest),
    Row(NoSuchElement, "no such element", NotFound),
    Row(NoSuchFrame, "no such frame", BadRequest),
    Row(NoSuchWindow, "no such window", BadRequest),
    Row(ScriptTimeout, "script timeout", RequestTimeout),
    Row(SessionNotCreated, "session not created", InternalServerError),
    Row(StaleElementReference, "stale element reference", BadRequest),
    Row(Timeout, "timeout", RequestTimeout),
    Row(UnableToSetCookie, "unable to set cookie", InternalServerError),
    Row(UnexpectedAlertOpen, "unexpected alert open", InternalServerError),
    Row(UnknownError, "unknown error", InternalServerError),
    Row(UnknownPath, "unknown command", NotFound),
    Row(UnknownMethod, "unknown command", MethodNotAllowed),
    Row(UnsupportedOperation, "unsupported operation", InternalServerError)
  ]

  /** The position of each status in declaration order. */
  function Ordinal(s: ErrorStatus): nat {
    match s
    case ElementNotSelectable => 0
    case ElementNotVisible => 1
    case InvalidArgument => 2
    case InvalidCookieDomain => 3
    case InvalidElementCoordinates => 4
    case InvalidElementState => 5
    case InvalidSelector => 6
    case InvalidSessionId => 7
    case JavascriptError => 8
    case MoveTargetOutOfBounds => 9
    case NoSuchAlert => 10
    case NoSuchElement => 11
    case NoSuchFrame => 12
    case NoSuchWindow => 13
    case ScriptTimeout => 14
    case SessionNotCreated => 15
    case StaleElementReference => 16
    case Timeout => 17
    case UnableToSetCookie => 18
    case UnexpectedAlertOpen => 19
    case UnknownError => 20
    case UnknownPath => 21
    case UnknownMethod => 22
    case UnsupportedOperation => 23
  }

  /** True when no two rows are about the same status. */
  predicate DistinctStatuses(rows: seq<Row>) {
    forall i, j :: 0 <= i < j < |rows| ==> rows[i].status != rows[j].status
  }

  /** A row about `status`, if there is one. */
  function Find(rows: seq<Row>, status: ErrorStatus): (r: Option<Row>)
    ensures r.Some? ==> r.value in rows && r.value.status == status
    ensures r.None? <==> forall i :: 0 <= i < |rows| ==> rows[i].status != status
  {
    if rows == [] then None
    else if rows[0].status == status then Some(rows[0])
    else Find(rows[1..], status)
  }

  /** In a table whose statuses are distinct, looking a row's status up finds that row. */
  lemma {:induction false} FindUnique(rows: seq<Row>, i: nat)
    requires DistinctStatuses(rows)
    requires i < |rows|
    ensures Find(rows, rows[i].status) == Some(rows[i])
  {
    if i > 0 {
      assert rows[0].status != rows[i].status;
      assert rows[1..][i - 1] == rows[i];
      FindUnique(rows[1..], i - 1);
    }
  }

  /** Row `i` of the table is about the status declared `i`-th: first half. */
  lemma TableInDeclarationOrderLow()
    ensures |Table| == 24
    ensures forall i :: 0 <= i < 12 ==> Ordinal(Table[i].status) == i
  {
  }

  /** Row `i` of the table is about the status declared `i`-th: second half. */
  lemma TableInDeclarationOrderHigh()
    ensures |Table| == 24
    ensures forall i :: 12 <= i < 24 ==> Ordinal(Table[i].status) == i
  {
  }

  /** Row `i` of the table is about the status declared `i`-th. */
  lemma TableInDeclarationOrder()
    ensures |Table| == 24
    ensures forall i :: 0 <= i < |Table| ==> Ordinal(Table[i].status) == i
  {
    TableInDeclarationOrderLow();
    TableInDeclarationOrderHigh();
  }

  /** The table has 24 rows and no two of them are about the same status. */
  lemma TableDistinct()
    ensures |Table| == 24
    ensures DistinctStatuses(Table)
  {
    TableInDeclarationOrder();
  }

  /** The row at a status's ordinal carries the token and HTTP status the server sends. */
  lemma TableRowAt(err: WebDriverError)
    ensures Ordinal(err.status) < |Table|
    ensures Table[Ordinal(err.status)] == Row(err.status, StatusCode(err), HttpStatus(err))
  {
  }

  /** For every error, the two `match` tables give exactly the table's row for its status. */
  lemma MatchesAgreeWithTable(err: WebDriverError)
    ensures Find(Table, err.status) == Some(Row(err.status, StatusCode(err), HttpStatus(err)))
  {
    TableDistinct();
    TableRowAt(err);
    FindUnique(Table, Ordinal(err.status));
  }

  /** The table is closed: every status has a row. */
  lemma TableComplete(s: ErrorStatus)
    ensures Find(Table, s).Some?
  {
    MatchesAgreeWithTable(WebDriverError(s, ""));
  }
}
