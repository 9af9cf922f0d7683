/**
 * The auth use case: one credential request, turned into a loading marker
 * followed by one result state. The remote call is the parameter `postAuth`,
 * what the client does with a credential request: answer, or throw.
 */
module Auth {
  import opened Wrappers
  import opened DataStates
  import opened Remote

  /** Three distinct wrappers around a string; one cannot stand for another. */
  datatype Username = Username(username: string)
  datatype Email = Email(email: string)
  datatype Token = Token(rawToken: string)

  datatype UserPacketInfo = UserPacketInfo(username: Username, email: Email, token: Token)

  datatype AuthDataSummary = AuthDataSummary(userInfo: UserPacketInfo)

  /**
   * `authenticateUserWith(username, password)` collected to the end: loading,
   * then the server's message as the error, or the user packet built from the
   * response (both username and email from `dto.username`, the header as token).
   * When the call throws, the flow ends with the exception after the loading
   * marker, so that marker is all a collector receives.
   */
  function AuthenticateUserWith(username: string, password: string,
                                postAuth: CredentialRequest -> AuthOutcome)
    : (r: seq<DataState<AuthDataSummary>>)
    ensures 1 <= |r| <= 2 && r[0] == Loading()
    ensures |r| == 2 <==> postAuth(CredentialRequest(username, password)).Answered?
    ensures |r| == 2 ==> !r[1].loading && !r[1].empty
    ensures |r| == 2 ==> (r[1].data.None? <==> r[1].exception.Some?)
    ensures match postAuth(CredentialRequest(username, password))
      case AuthThrew => r == [Loading()]
      case Answered(Error(m)) => r[1].data.None? && r[1].exception == Some(m)
      case Answered(Success(dto, tok)) =>
        && r[1].data.Some?
        && r[1].data.value.userInfo.username == Username(dto.username)
        && r[1].data.value.userInfo.email == Email(dto.username)
        && r[1].data.value.userInfo.token == Token(tok)
  {
    match postAuth(CredentialRequest(username, password))
    case AuthThrew => [Loading()]
    case Answered(Error(m)) => [Loading(), WithException(Some(m))]
    case Answered(Success(dto, tok)) =>
      [Loading(), WithData(AuthDataSummary(UserPacketInfo(Username(dto.username), Email(dto.username), Token(tok))))]
  }

  /** The response's `email` and `id` play no part in what is emitted. */
  lemma IgnoresEmailAndId(username: string, password: string,
                          p: CredentialRequest -> AuthOutcome, q: CredentialRequest -> AuthOutcome)
    requires p(CredentialRequest(username, password)).Answered?
    requires q(CredentialRequest(username, password)).Answered?
    requires p(CredentialRequest(username, password)).response.Success?
    requires q(CredentialRequest(username, password)).response.Success?
    requires p(CredentialRequest(username, password)).response.authToken == q(CredentialRequest(username, password)).response.authToken
    requires p(CredentialRequest(username, password)).response.dto.username == q(CredentialRequest(username, password)).response.dto.username
    ensures AuthenticateUserWith(username, password, p) == AuthenticateUserWith(username, password, q)
  {
  }
}
