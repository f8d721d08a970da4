/** data/repository/AuthRepository.kt: login and logout write the credential store. */
module AuthRepository {
  import opened Wrappers
  import opened Dto
  import opened Envelope
  import opened TokenManager

  /** register's decision: the store is never written, and the data is ignored. */
  function Register(response: Response<AuthResponse>): (res: Result<string, string>)
    ensures res.Success? <==> Accepted(response)
    ensures res.Success? ==> res.value == BodyMessage(response).GetOr("Registrasi berhasil")
    ensures response.Resp? && !Accepted(response) ==> res == Failure(Rejection(response, "Registrasi gagal"))
    ensures response.Exn? ==> res == Failure(ConnectionFailure(response.exnMessage))
  {
    MessageOnly(response, "Registrasi berhasil", "Registrasi gagal")
  }

  /** The store after a login that received `auth`: both tokens, then the user's three fields. */
  function LoggedInStore(before: map<string, string>, auth: AuthResponse): (after: map<string, string>)
    ensures after.Keys == before.Keys + {AccessTokenKey, RefreshTokenKey, UserIdKey, UsernameKey, UserEmailKey}
    ensures after[AccessTokenKey] == auth.accessToken && after[RefreshTokenKey] == auth.refreshToken
    ensures after[UserIdKey] == auth.user.id && after[UsernameKey] == auth.user.username
    ensures after[UserEmailKey] == auth.user.email
    ensures forall k :: k in before && k !in {AccessTokenKey, RefreshTokenKey, UserIdKey, UsernameKey, UserEmailKey} ==>
      after[k] == before[k]
  {
    before[AccessTokenKey := auth.accessToken][RefreshTokenKey := auth.refreshToken]
      [UserIdKey := auth.user.id][UsernameKey := auth.user.username][UserEmailKey := auth.user.email]
  }

  class AuthRepository {
    const tokenManager: TokenManager

    constructor (tokenManager: TokenManager)
      ensures this.tokenManager == tokenManager
    {
      this.tokenManager := tokenManager;
    }

    /**
     * login: an accepted envelope with data stores the tokens and the user, and
     * succeeds with the server's message; every other outcome writes nothing.
     */
    method Login(response: Response<AuthResponse>) returns (res: Result<string, string>)
      modifies tokenManager
      ensures res.Success? <==> Accepted(response) && BodyData(response).Some?
      ensures res.Success? ==> tokenManager.prefs == LoggedInStore(old(tokenManager.prefs), BodyData(response).value)
      ensures res.Success? ==> res.value == BodyMessage(response).GetOr("Login berhasil")
      ensures res.Success? ==> tokenManager.IsLoggedIn()
      ensures res.Failure? ==> tokenManager.prefs == old(tokenManager.prefs)
      ensures Accepted(response) && BodyData(response).None? ==> res == Failure("Data tidak valid")
      ensures response.Resp? && !Accepted(response) ==> res == Failure(Rejection(response, "Login gagal"))
      ensures response.Exn? ==> res == Failure(ConnectionFailure(response.exnMessage))
    {
      match response
      case Exn(m) =>
        res := Failure(ConnectionFailure(m));
      case Resp(_, _) =>
        if !Accepted(response) {
          res := Failure(Rejection(response, "Login gagal"));
        } else if BodyData(response).None? {
          res := Failure("Data tidak valid");
        } else {
          var auth := BodyData(response).value;
          tokenManager.SaveTokens(auth.accessToken, auth.refreshToken);
          tokenManager.SaveUserInfo(auth.user.id, auth.user.username, auth.user.email);
          res := Success(BodyMessage(response).GetOr("Login berhasil"));
        }
    }

    /** logout: the store is emptied. */
    method Logout()
      modifies tokenManager
      ensures tokenManager.prefs == map[]
      ensures !tokenManager.IsLoggedIn()
    {
      tokenManager.ClearTokens();
    }

    /** isLoggedIn delegates to the store: an access token is present. */
    function IsLoggedIn(): (b: bool)
      reads tokenManager
      ensures b <==> AccessTokenKey in tokenManager.prefs
    {
      tokenManager.IsLoggedIn()
    }
  }
}
