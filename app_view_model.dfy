/**
 * The Android auth screen's state holder: a single `ViewState` slot that
 * `login` drives from the auth use case's emissions and `goToInitialState`
 * resets. The launched coroutine is modelled as running to completion.
 */
module AuthView {
  import opened Wrappers
  import opened Auth
  import DataStates
  import Remote

  /** The spelling of `Unininitialized` is the source's. */
  datatype ViewState =
    | AuthSuccess(authValue: Option<UserPacketInfo>)
    | Error(message: Option<string>)
    | Loading
    | Unininitialized

  /**
   * One step of `login`'s `collect`: the `when`, checked in order. A loading
   * emission shows `Loading`, one without data shows its error, any other
   * shows its user info; the slot's current value plays no part.
   */
  function ReduceAuth(current: ViewState, d: DataStates.DataState<AuthDataSummary>): (v: ViewState)
    ensures v.Loading? <==> d.loading
    ensures v.Error? <==> !d.loading && d.data.None?
    ensures v.AuthSuccess? <==> !d.loading && d.data.Some?
    ensures v.Error? ==> v.message == d.exception
    ensures v.AuthSuccess? ==> v.authValue == Some(d.data.value.userInfo)
    ensures !v.Unininitialized?
  {
    if d.loading then Loading
    else if d.data.None? then Error(d.exception)
    else AuthSuccess(Some(d.data.value.userInfo))
  }

  /** The slot after collecting `es` one by one, starting from `s`. */
  function ReplayAuth(s: ViewState, es: seq<DataStates.DataState<AuthDataSummary>>): ViewState
    decreases |es|
  {
    if |es| == 0 then s else ReduceAuth(ReplayAuth(s, es[..|es| - 1]), es[|es| - 1])
  }

  /**
   * A login ends in `AuthSuccess` with the packet built from the response on
   * success, in `Error` with the server's message on an error answer, and stays
   * at `Loading` when the call throws; after the first emission the slot shows
   * `Loading` in every case.
   */
  lemma {:induction false} LoginOutcome(username: string, password: string,
                                        postAuth: Remote.CredentialRequest -> Remote.AuthOutcome)
    ensures var es := AuthenticateUserWith(username, password, postAuth);
      && ReplayAuth(Loading, es[..1]) == Loading
      && match postAuth(Remote.CredentialRequest(username, password))
         case AuthThrew => ReplayAuth(Loading, es) == Loading
         case Answered(Error(m)) => ReplayAuth(Loading, es) == Error(Some(m))
         case Answered(Success(dto, tok)) =>
           ReplayAuth(Loading, es) ==
             AuthSuccess(Some(UserPacketInfo(Username(dto.username), Email(dto.username), Token(tok))))
  {
    var es := AuthenticateUserWith(username, password, postAuth);
    assert es[..1] == [es[0]];
    if |es| == 2 {
      assert es[..1] == es[..|es| - 1];
    }
  }

  /** Collecting a non-empty sequence forgets the starting state: only the last emission counts. */
  lemma {:induction false} ReplayForgetsStart(s: ViewState, t: ViewState, es: seq<DataStates.DataState<AuthDataSummary>>)
    requires |es| > 0
    ensures ReplayAuth(s, es) == ReplayAuth(t, es)
    ensures ReplayAuth(s, es) == ReduceAuth(t, es[|es| - 1])
  {
  }

  class AppViewModel {
    var authState: ViewState

    constructor ()
      ensures authState == Unininitialized
    {
      authState := Unininitialized;
    }

    /** The `collect` loop of `login`: each emission replaces the slot by `ReduceAuth`. */
    method CollectAuth(es: seq<DataStates.DataState<AuthDataSummary>>)
      modifies this
      ensures authState == ReplayAuth(old(authState), es)
    {
      var i := 0;
      while i < |es|
        invariant 0 <= i <= |es|
        invariant authState == ReplayAuth(old(authState), es[..i])
      {
        assert es[..i + 1][..i] == es[..i];
        authState := ReduceAuth(authState, es[i]);
        i := i + 1;
      }
      assert es[..|es|] == es;
    }

    /** The synchronous part of `login`: the slot shows `Loading`, whatever it was. */
    method StartLogin()
      modifies this
      ensures authState == Loading
    {
      authState := Loading;
    }

    /**
     * `login(user, pass)`: the slot shows `Loading` at once and then follows
     * the use case's emissions (the launched collection, run to its end).
     */
    method Login(user: string, pass: string, postAuth: Remote.CredentialRequest -> Remote.AuthOutcome)
      modifies this
      ensures authState == ReplayAuth(Loading, AuthenticateUserWith(user, pass, postAuth))
    {
      StartLogin();
      CollectAuth(AuthenticateUserWith(user, pass, postAuth));
    }

    /** `goToInitialState` */
    method GoToInitialState()
      modifies this
      ensures authState == Unininitialized
    {
      authState := Unininitialized;
    }
  }
}
