/** presentation/auth/AuthViewModel.kt: the login and registration screens' state holder. */
module AuthViewModel {
  import opened Wrappers
  import opened Dto
  import opened Envelope
  import opened TokenManager
  import opened AuthRepository
  import AuthCalls = AuthRepository

  datatype AuthState = AuthState(
    isLoading: bool,
    errorMessage: Option<string>,
    successMessage: Option<string>,
    isAuthenticated: bool)

  const DefaultState: AuthState := AuthState(false, None, None, false)

  /**
   * The state a finished login or registration leaves: the start cleared both
   * messages, then exactly one of them is set.
   */
  function Finished(s: AuthState, outcome: Result<string, string>, authenticates: bool): (t: AuthState)
    ensures !t.isLoading
    ensures t.successMessage.Some? <==> outcome.Success?
    ensures t.errorMessage.Some? <==> outcome.Failure?
    ensures outcome.Success? ==> t.successMessage.value == outcome.value
    ensures outcome.Failure? ==> t.errorMessage.value == outcome.error
    ensures t.isAuthenticated == (s.isAuthenticated || (authenticates && outcome.Success?))
  {
    match outcome
    case Success(message) =>
      s.(isLoading := false, errorMessage := None, successMessage := Some(message),
         isAuthenticated := s.isAuthenticated || authenticates)
    case Failure(message) =>
      s.(isLoading := false, errorMessage := Some(message), successMessage := None)
  }

  class AuthViewModel {
    var state: AuthState
    const authRepository: AuthRepository

    constructor (authRepository: AuthRepository)
      ensures state == DefaultState && this.authRepository == authRepository
    {
      state := DefaultState;
      this.authRepository := authRepository;
    }

    /**
     * login: a success authenticates and stores the session; a failure shows the
     * repository's message and leaves the store untouched.
     */
    method Login(response: Response<AuthResponse>)
      modifies this, authRepository.tokenManager
      ensures state.isAuthenticated <==> old(state).isAuthenticated || (Accepted(response) && BodyData(response).Some?)
      ensures Accepted(response) && BodyData(response).Some? ==>
        state == Finished(old(state), Success(BodyMessage(response).GetOr("Login berhasil")), true) &&
        authRepository.tokenManager.prefs == LoggedInStore(old(authRepository.tokenManager.prefs), BodyData(response).value)
      ensures !(Accepted(response) && BodyData(response).Some?) ==>
        authRepository.tokenManager.prefs == old(authRepository.tokenManager.prefs)
      ensures Accepted(response) && BodyData(response).None? ==>
        state == Finished(old(state), Failure("Data tidak valid"), true)
      ensures response.Resp? && !Accepted(response) ==>
        state == Finished(old(state), Failure(Rejection(response, "Login gagal")), true)
      ensures response.Exn? ==>
        state == Finished(old(state), Failure(ConnectionFailure(response.exnMessage)), true)
    {
      state := state.(isLoading := true, errorMessage := None, successMessage := None);
      var result := authRepository.Login(response);
      match result
      case Success(message) =>
        state := state.(isLoading := false, successMessage := Some(message), isAuthenticated := true);
      case Failure(message) =>
        state := state.(isLoading := false, errorMessage := Some(message));
    }

    /** register: never authenticates and never touches the credential store. */
    method Register(response: Response<AuthResponse>)
      modifies this
      ensures state == Finished(old(state), AuthCalls.Register(response), false)
      ensures state.isAuthenticated == old(state).isAuthenticated
    {
      state := state.(isLoading := true, errorMessage := None, successMessage := None);
      var result := AuthCalls.Register(response);
      match result
      case Success(message) =>
        state := state.(isLoading := false, successMessage := Some(message));
      case Failure(message) =>
        state := state.(isLoading := false, errorMessage := Some(message));
    }

    method ClearMessages()
      modifies this
      ensures state == old(state).(errorMessage := None, successMessage := None)
    {
      state := state.(errorMessage := None, successMessage := None);
    }

    /** checkAuthStatus: logged in exactly when an access token is stored. */
    function CheckAuthStatus(): (b: bool)
      reads authRepository.tokenManager
      ensures b <==> authRepository.tokenManager.GetAccessToken().Some?
    {
      authRepository.IsLoggedIn()
    }
  }
}
