/** The convenience operations: each one fixes a default message and status
    code and chooses whether its body carries `data`, `error` or both. The
    constants are the same in index.ts and index.js; `noContent` is kept apart
    because each revision treats it differently. */
module Catalog {
  import opened Json

  datatype Operation =
    | Response | Success | Created | Accepted
    | Error | Rejected | Conflict | BadRequest | TooManyRequests
    | NotImplemented | ServiceUnavailable | Forbidden | Unauthorized | NotFound

  /** Which of the two semantic fields an operation's body carries. */
  datatype Carries = DataAndError | DataOnly | ErrorOnly

  /** The options object of a convenience call: every key optional. */
  datatype Options = Options(
    message: Option<Value>,
    data: Option<Value>,
    metaData: Option<Envelope>,
    code: Option<int>,
    error: Option<Value>,
    extra: Option<Envelope>)

  /** `success(res)`: the options object defaults to `{}`. */
  const NoOptions: Options := Options(None, None, None, None, None, None)

  /** `noContent`'s default status. */
  const NoContentCode: int := 204

  function Carried(op: Operation): Carries {
    match op
    case Response => DataAndError
    case Success | Created | Accepted => DataOnly
    case _ => ErrorOnly
  }

  /** The default `message` of each operation; never empty. */
  function DefaultMessage(op: Operation): (m: string)
    ensures |m| > 0
  {
    match op
    case Response => "Api Processed"
    case Success => "Success"
    case Created => "Resource Created Successfully"
    case Accepted => "Accepted"
    case Error => "Internal Server Error"
    case Rejected => "Request Rejected"
    case Conflict => "Conflict"
    case BadRequest => "Bad Request"
    case TooManyRequests => "Too Many Requests"
    case NotImplemented => "Not Implemented"
    case ServiceUnavailable => "Service Unavailable"
    case Forbidden => "Forbidden"
    case Unauthorized => "Unauthorized"
    case NotFound => "Not Found"
  }

  /** The default status code: a success code for every operation that carries
      data, a client or server error code for every one that carries only an
      error. */
  function DefaultCode(op: Operation): (code: int)
    ensures Carried(op) != ErrorOnly ==> 200 <= code < 300
    ensures Carried(op) == ErrorOnly ==> 400 <= code < 600
  {
    match op
    case Response => 200
    case Success => 200
    case Created => 201
    case Accepted => 202
    case Error => 500
    case Rejected => 400
    case Conflict => 409
    case BadRequest => 400
    case TooManyRequests => 429
    case NotImplemented => 501
    case ServiceUnavailable => 503
    case Forbidden => 403
    case Unauthorized => 401
    case NotFound => 404
  }

  /** No two operations share a default message, so a default body's
      `message` names the operation that sent it, even where two operations
      share a status code (`rejected` and `badRequest`, both 400). */
  lemma DefaultMessagesDistinct(a: Operation, b: Operation)
    ensures DefaultMessage(a) == DefaultMessage(b) ==> a == b
  {
  }

  /** The status a call dispatches with: the caller's `code`, else the default. */
  function StatusOf(op: Operation, opts: Options): int {
    opts.code.GetOr(DefaultCode(op))
  }

  /** The body's `message`: the caller's, else the operation's default. */
  function MessageOf(op: Operation, opts: Options): Value {
    opts.message.GetOr(Str(DefaultMessage(op)))
  }

  /** `extra = {}`. */
  function ExtraOf(opts: Options): Envelope {
    opts.extra.GetOr(map[])
  }
}
