/**
 * What the store answers and what a handler answers.
 *
 * The store is external: its replies are inputs. A SELECT is answered with rows;
 * an INSERT, UPDATE, DELETE or CALL with a result header. Either may instead be
 * an error object, which the handlers pass on without looking inside.
 */
module Responses {
  import opened Values

  /** The store's error object (driver error code and message), carried opaquely. */
  datatype StoreError = StoreError(code: string, message: string)

  /** The `(errQuery, result)` pair a query callback receives. */
  datatype StoreReply<T> = Failed(error: StoreError) | Succeeded(result: T)

  /** The result header of a statement that writes. `affectedRows` is `None` when
      the result object has no such field. */
  datatype Header = Header(insertId: nat, affectedRows: Option<nat>)

  datatype Option<T> = None | Some(value: T)

  /** `const { affectedRows = 0 } = result`. */
  function AffectedRows(h: Header): nat
  {
    match h.affectedRows
    case Some(n) => n
    case None => 0
  }

  /** The `error` field: a message ("" when there is none) or the store's error object. */
  datatype ErrorField = Message(text: string) | StoreFailure(cause: StoreError)

  /** The empty error field every envelope starts with. */
  const NoError: ErrorField := Message("")

  /** The part of the envelope that depends on the route: read routes carry `rows`,
      write routes carry `id`, the unmatched-route envelope carries neither. */
  datatype Payload = Rows(rows: seq<Row>) | Id(id: JsonValue) | Absent

  /** The response envelope `{error, statusCode, rows | id}`. */
  datatype Envelope = Envelope(error: ErrorField, statusCode: int, payload: Payload)

  /** The status passed to `reply.code` and the envelope handed to `send`. */
  datatype HttpReply = HttpReply(code: int, body: Envelope)

  /** `reply.code(response.statusCode).send(response)`. */
  function Transmit(response: Envelope): HttpReply
  {
    HttpReply(response.statusCode, response)
  }

  /** The HTTP status sent is the envelope's own `statusCode`. */
  predicate Coherent(r: HttpReply)
  {
    r.code == r.body.statusCode
  }
}
