/**
 * Results of service operations.
 *
 * NestJS services signal failure by throwing an HttpException subclass;
 * each subclass becomes one failure constructor here, carrying the
 * message the source passes to it. `Internal` stands for an error that is
 * not an HttpException (a Prisma foreign-key violation, for instance),
 * which the HTTP layer reports as status 500.
 */
module Outcomes {

  datatype Option<+T> = None | Some(value: T)
  {
    function GetOr(default: T): T
    {
      match this
      case None => default
      case Some(v) => v
    }
  }

  datatype Outcome<+T> =
    | Ok(value: T)
    | NotFound(msg: string)
    | Forbidden(msg: string)
    | BadRequest(msg: string)
    | Conflict(msg: string)
    | Unauthorized(msg: string)
    | Internal(msg: string)
  {
    predicate IsFailure() { !Ok? }

    function PropagateFailure<U>(): Outcome<U>
      requires IsFailure()
    {
      match this
      case NotFound(m) => NotFound(m)
      case Forbidden(m) => Forbidden(m)
      case BadRequest(m) => BadRequest(m)
      case Conflict(m) => Conflict(m)
      case Unauthorized(m) => Unauthorized(m)
      case Internal(m) => Internal(m)
    }

    function Extract(): T
      requires Ok?
    {
      value
    }

    /** The HTTP status code Nest attaches to each exception class. */
    function StatusCode(): (code: nat)
      ensures code == 200 <==> Ok?
      ensures code == 500 <==> Internal?
      ensures 200 <= code < 600
    {
      match this
      case Ok(_) => 200
      case BadRequest(_) => 400
      case Unauthorized(_) => 401
      case Forbidden(_) => 403
      case NotFound(_) => 404
      case Conflict(_) => 409
      case Internal(_) => 500
    }
  }
}
