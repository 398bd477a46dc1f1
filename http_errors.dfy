/**
 * The errors a controller reports, and the HTTP status each is answered with.
 * Wrapped error values are carried as their messages.
 */
module HttpErrors {
  datatype ControllerError =
    | NotFound
    | Parse(message: string)
    | BadRequest(cause: string)
    | Validate(errors: string)
    | UnprocessableEntity(cause: string)
    | InternalServerError(cause: string)
    | Forbidden(cause: string)

  /** The client is at fault: the request itself cannot be accepted. */
  predicate ClientFault(e: ControllerError) {
    e.Parse? || e.BadRequest? || e.Validate?
  }

  /** `ControllerError::code`. */
  function Code(e: ControllerError): (status: nat)
    ensures status == 404 <==> e.NotFound?
    ensures status == 400 <==> ClientFault(e)
    ensures status == 422 <==> e.UnprocessableEntity?
    ensures status == 500 <==> e.InternalServerError?
    ensures status == 403 <==> e.Forbidden?
    ensures 400 <= status < 600
  {
    match e
    case NotFound => 404
    case Parse(_) | BadRequest(_) | Validate(_) => 400
    case UnprocessableEntity(_) => 422
    case InternalServerError(_) => 500
    case Forbidden(_) => 403
  }

  /** Only an internal failure is answered with a server-error status. */
  lemma ServerErrorOnlyInternal(e: ControllerError)
    ensures Code(e) >= 500 <==> e.InternalServerError?
  {
  }

  /** `From<serde_json::Error>`: a body that does not decode is an unprocessable entity. */
  function FromJsonError(message: string): (e: ControllerError)
    ensures e == UnprocessableEntity(message)
    ensures Code(e) == 422
  {
    UnprocessableEntity(message)
  }

  /** The `Display` text of each error. */
  function Message(e: ControllerError): string {
    match e
    case NotFound => "Not found"
    case Parse(m) => "Parse error: " + m
    case BadRequest(m) => "Bad request: " + m
    case Validate(m) => "Validation error: " + m
    case UnprocessableEntity(m) => "Unprocessable entity: " + m
    case InternalServerError(m) => "Internal server error: " + m
    case Forbidden(m) => "Server is refusing to fullfil the reqeust: " + m
  }

  /** A message's first letter tells the variant: the seven texts start with seven different letters. */
  lemma MessageNamesVariant(e: ControllerError)
    ensures |Message(e)| > 0
    ensures Message(e)[0] == match e
      case NotFound => 'N'
      case Parse(_) => 'P'
      case BadRequest(_) => 'B'
      case Validate(_) => 'V'
      case UnprocessableEntity(_) => 'U'
      case InternalServerError(_) => 'I'
      case Forbidden(_) => 'S'
  {
    match e
    case NotFound =>
    case Parse(m) => assert ("Parse error: " + m)[0] == 'P';
    case BadRequest(m) => assert ("Bad request: " + m)[0] == 'B';
    case Validate(m) => assert ("Validation error: " + m)[0] == 'V';
    case UnprocessableEntity(m) => assert ("Unprocessable entity: " + m)[0] == 'U';
    case InternalServerError(m) => assert ("Internal server error: " + m)[0] == 'I';
    case Forbidden(m) => assert ("Server is refusing to fullfil the reqeust: " + m)[0] == 'S';
  }

  /** Different errors never display alike: the message determines the variant and the text it carries. */
  lemma MessageInjective(a: ControllerError, b: ControllerError)
    ensures Message(a) == Message(b) ==> a == b
  {
    if Message(a) == Message(b) {
      MessageNamesVariant(a);
      MessageNamesVariant(b);
      var t := Message(a);
      match a
      case NotFound =>
      case Parse(m) => assert m == t[|"Parse error: "|..] == b.message;
      case BadRequest(m) => assert m == t[|"Bad request: "|..] == b.cause;
      case Validate(m) => assert m == t[|"Validation error: "|..] == b.errors;
      case UnprocessableEntity(m) => assert m == t[|"Unprocessable entity: "|..] == b.cause;
      case InternalServerError(m) => assert m == t[|"Internal server error: "|..] == b.cause;
      case Forbidden(m) => assert m == t[|"Server is refusing to fullfil the reqeust: "|..] == b.cause;
    }
  }
}
