# WebDriver error vocabulary

A Dafny model of the error layer of a WebDriver server (`src/error.rs`). The
layer has four parts:

- `ErrorStatus`: a closed set of 24 error kinds.
- `WebDriverError`: one status paired with one free-text message.
- Two total tables, one giving each status's protocol token (`status_code`)
  and one giving its HTTP status (`http_status`).
- The JSON body an error is sent as, the `Display` and `Error`
  implementations, and the conversion from a JSON parser failure.

The tables follow an early draft of the error-code table in section 6.6
("Handling errors") of the W3C WebDriver specification. The model uses the
literals in the code: "element not visible", 404 for no such element, 500
for javascript error.

Files:

- `error.dfy`, module `Error`: the datatypes, both tables, the renderers and
  the conversion. Each contract states what the source promises, such as the
  full partition of statuses by HTTP status and the two-key shape of the body.
- `error_table.dfy`, module `ErrorTable`: the error-code table written as the
  specification publishes it, one row per status with its token and its HTTP
  status. `Find` looks a status up in any list of rows. The lemmas show
  three things:
  - The table has 24 rows and no two rows are about the same status.
  - Every status has a row.
  - The two `match` expressions of the server give exactly the row of the
    table for every error.
- `error_decode.dfy`, module `ErrorDecode`: a client's reading of an error
  response, used as the inverse of the renderers. `ParseStatus` goes from a
  token and an HTTP status back to a status. `FromJson` goes from a body and
  an HTTP status back to an error. The lemmas show three things:
  - A rendered error decodes back to itself.
  - Whatever decodes is exactly what the server renders.
  - `status_code` is injective except for the one deliberate collision,
    where the HTTP status tells the two statuses apart.
- `json.dfy`, module `JsonValue`: the two JSON value forms the renderer
  builds, a string and an object.
- `wrappers.dfy`, module `Wrappers`: `Option`.

HTTP statuses are plain integers, named by constants (`BadRequest` = 400,
`NotFound` = 404, `MethodNotAllowed` = 405, `RequestTimeout` = 408,
`InternalServerError` = 500).

`ErrorStatus` has 24 variants (src/error.rs:10-33), and so does the model.

## Model

| member | source | states |
|---|---|---|
| `Error.New` | src/error.rs:51-56 | the error built from a status and a message has exactly that status and that message, for every message including the empty one (no validation) |
| `Error.StatusCode` | src/error.rs:58-85 | total over all 24 statuses; the token is non-empty, and it is "unknown command" exactly for UnknownPath and UnknownMethod |
| `Error.HttpStatus` | src/error.rs:87-114 | total, and always one of 400, 404, 405, 408 or 500. The statuses partition by code: 405 exactly for UnknownMethod; 408 exactly for ScriptTimeout and Timeout; 404 exactly for InvalidSessionId, NoSuchElement and UnknownPath; 500 exactly for the seven server-side kinds; 400 exactly for the remaining eleven |
| `Error.ToJson` | src/error.rs:121-128 | the body is an object with exactly the keys "status" and "message"; "status" holds the status token and "message" the stored message verbatim, including when it is empty |
| `Error.Display` | src/error.rs:44-48 | `Display` writes the message and nothing else |
| `Error.Description` | src/error.rs:130-133 | the description is the status token, not the message |
| `Error.Cause` | src/error.rs:135-137 | an error never has a cause |
| `Error.FromParserError` | src/error.rs:140-145 | a converted parser failure always has status UnknownError and the parser error's debug text as its message; so it renders as "unknown error" with HTTP 500 |
| `ErrorTable.TableDistinct` | src/error.rs:9-34 | the table has exactly 24 rows, one per declared status, and no status has two rows (no extraneous entries) |
| `ErrorTable.TableComplete` | src/error.rs:9-34 | every one of the statuses has a row in the table (no missing entries) |
| `ErrorTable.MatchesAgreeWithTable` | src/error.rs:58-114 | for every error, `status_code` and `http_status` together give exactly the table's row for its status: the same token and the same HTTP status |
| `ErrorDecode.ParseStatusRoundTrip` | src/error.rs:58-114 | from any error's token and HTTP status a client recovers exactly its status |
| `ErrorDecode.StatusCodeInjective` | src/error.rs:60-83 | two errors with the same token have the same status, the only exception being UnknownPath and UnknownMethod; for that pair the HTTP statuses are 404 and 405 |
| `ErrorDecode.UnknownCommandCollision` | src/error.rs:81-111 | UnknownPath and UnknownMethod both render "unknown command", whatever their messages, but UnknownPath is sent with 404 and UnknownMethod with 405 |
| `ErrorDecode.JsonRoundTrip` | src/error.rs:121-128 | decoding the JSON body of any error together with its HTTP status gives back that error, message included |
| `ErrorDecode.FromJsonSound` | src/error.rs:121-128 | whenever a body and an HTTP status decode to an error, they are exactly that error's rendered body and HTTP status |

## Left out

- `to_json_string` (src/error.rs:116-118): the model stops at the JSON value. Turning it into text belongs to the JSON library: escaping, key order and whitespace. So the text round trip, including quotes, backslashes and control characters in messages, is not modelled; the round trip is stated on JSON values.
- The debug rendering of a parser error (src/error.rs:142) belongs to the parser's type. It enters `FromParserError` as a string parameter.
- The HTTP library's status type stands as an integer with named constants. Its own behaviour is not part of this model.
- Error.FromParserError: the message is the parser error's debug text as it is; the code does not require it to be non-empty, and neither does the model.
- Error.Display: models only the plain `{}` rendering. `self.message.fmt(f)` (src/error.rs:46) passes the formatter on, and width, fill and precision flags would pad or truncate the message; those flags are not modelled.
- The `WebDriverResult` alias (src/error.rs:36), lifetimes, borrowed strings and the trait plumbing of `Error`, `ToJson` and `From` carry no behaviour. They appear only as the plain functions above.
- The derived `PartialEq` on `ErrorStatus` (src/error.rs:8) is Dafny's equality on the datatype. `WebDriverError` derives only `Debug` (src/error.rs:38): Dafny's structural equality on `WebDriverError` has no counterpart in the source and appears only in lemma statements. `Debug` output is not modelled.
- `ParseStatus` and `FromJson` are not in the source. They model how a client reads an error response, and they are here as the inverse that the round-trip and injectivity lemmas are stated against.
- `ErrorTable.Table`, `ErrorTable.Find` and `ErrorTable.Ordinal` are not in the source either. They write the specification's error-code table as data, as the reference that the two `match` expressions are proved equal to.
