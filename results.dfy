/** Tagged results of the storefront's route handlers.

    Every handler of the server answers either with a success body or
    with one of three error statuses; `Outcome` is that answer. */
module Results {

  datatype Option<+T> = None | Some(value: T) {
    function GetOr(default: T): T {
      match this
      case Some(v) => v
      case None => default
    }
  }

  /** The error statuses a handler of the modelled core can answer with. */
  datatype Code = BadRequest | Forbidden | NotFound {
    function Http(): int {
      match this
      case BadRequest => 400
      case Forbidden => 403
      case NotFound => 404
    }
  }

  datatype Outcome<+T> = Ok(value: T) | Fail(code: Code)
}
