/** The response envelope, reduced to the outcome a handler reports and the data it returns. */
module Responses {
  import Users

  /** The data a successful response carries. */
  datatype Body =
    | Null
    | False
    | Created(user: Users.UserRow)
    | Tokens(id: string, accessToken: string, refreshToken: string)
    | Access(accessToken: string)
    | AdminSession(userId: string, token: string)
    | Affected(count: nat)

  /**
   * One tag per envelope helper. `Success` with a `Null` or `False` body is the
   * service's soft "not found" / "wrong password" answer. Messages are the
   * handlers' own constants, or the text of the error that was thrown; a
   * helper called without a message carries "".
   */
  datatype Outcome =
    | IncompleteData
    | Success(body: Body, message: string)
    | Unauthorized(message: string)
    | Failed(message: string)
    | Error(message: string)
    | NothingAffected(message: string)
}
