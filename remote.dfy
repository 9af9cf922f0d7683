/**
 * The values that cross the network boundary. The HTTP client itself is
 * not modelled: what a call returns is an input of the operation that
 * makes the call.
 */
module Remote {
  import opened Wrappers

  /** One element of the item-listing response; both fields are nullable. */
  datatype BeerResult = BeerResult(name: Option<string>, tagline: Option<string>)

  /** Body of a successful authentication response. */
  datatype UserAuthDto = UserAuthDto(email: string, id: int, username: string)

  /** Body of the authentication request. */
  datatype UserDto = UserDto(password: string, username: string)

  /** What the auth use case hands to the remote client. */
  datatype CredentialRequest = CredentialRequest(username: string, password: string)

  /** Outcome of the authentication call: a body and the Authorization header, or a message. */
  datatype NetResponse =
    | Success(dto: UserAuthDto, authToken: string)
    | Error(message: string)

  /**
   * Outcome of one `postAuth` call as the auth use case sees it: the client
   * answered with a `NetResponse`, or it threw. Failures of the request itself
   * come back as an `Error` answer; reading the body of a response that did
   * arrive happens outside that handler, so a failure there is thrown.
   */
  datatype AuthOutcome =
    | Answered(response: NetResponse)
    | AuthThrew

  /** Outcome of `getJsonBeersFromApi`: the decoded list, or an exception thrown. */
  datatype FetchOutcome =
    | Returned(results: seq<BeerResult>)
    | Threw
}
