/** data/repository/UserRepository.kt: the profile, its update, and logout. */
module UserRepository {
  import opened Wrappers
  import opened Domain
  import opened Dto
  import opened Envelope
  import opened TokenManager

  /** The profile mapping: fields copied, a missing timestamp becomes "". */
  function ToUserProfile(dto: UserDto): (p: UserProfile)
    ensures p.id == dto.id && p.username == dto.username && p.email == dto.email
    ensures p.firstName == dto.firstName && p.lastName == dto.lastName
    ensures p.phoneNumber == dto.phoneNumber && p.bio == dto.bio
    ensures dto.createdAt.Some? ==> p.createdAt == dto.createdAt.value
    ensures dto.createdAt.None? ==> p.createdAt == ""
    ensures dto.updatedAt.Some? ==> p.updatedAt == dto.updatedAt.value
    ensures dto.updatedAt.None? ==> p.updatedAt == ""
  {
    UserProfile(dto.id, dto.username, dto.email, dto.firstName, dto.lastName, dto.phoneNumber,
                dto.bio, dto.createdAt.GetOr(""), dto.updatedAt.GetOr(""))
  }

  /** getUserProfile's decision; the credential store is not involved. */
  function GetUserProfile(response: Response<UserDto>): (res: Result<UserProfile, string>)
    ensures res.Success? <==> Accepted(response) && BodyData(response).Some?
    ensures res.Success? ==> res.value == ToUserProfile(BodyData(response).value)
    ensures Accepted(response) && BodyData(response).None? ==> res == Failure("Data profil tidak valid")
    ensures response.Resp? && !Accepted(response) ==> res == Failure(Rejection(response, "Gagal mengambil profil"))
    ensures response.Exn? ==> res == Failure(ConnectionFailure(response.exnMessage))
  {
    Single(response, ToUserProfile, "Data profil tidak valid", "Gagal mengambil profil")
  }

  /** The `buildMap` body of updateUserProfile: exactly the fields that were given. */
  method UpdateUserProfileBody(firstName: Option<string>, lastName: Option<string>, phoneNumber: Option<string>, bio: Option<string>)
    returns (body: map<string, string>)
    ensures body.Keys <= {"firstName", "lastName", "phoneNumber", "bio"}
    ensures "firstName" in body <==> firstName.Some?
    ensures "lastName" in body <==> lastName.Some?
    ensures "phoneNumber" in body <==> phoneNumber.Some?
    ensures "bio" in body <==> bio.Some?
    ensures firstName.Some? ==> body["firstName"] == firstName.value
    ensures lastName.Some? ==> body["lastName"] == lastName.value
    ensures phoneNumber.Some? ==> body["phoneNumber"] == phoneNumber.value
    ensures bio.Some? ==> body["bio"] == bio.value
  {
    body := map[];
    if firstName.Some? {
      body := body["firstName" := firstName.value];
    }
    if lastName.Some? {
      body := body["lastName" := lastName.value];
    }
    if phoneNumber.Some? {
      body := body["phoneNumber" := phoneNumber.value];
    }
    if bio.Some? {
      body := body["bio" := bio.value];
    }
  }

  /** updateUserProfile's decision; the credential store is not involved. */
  function UpdateUserProfile(response: Response<UserDto>): (res: Result<UserProfile, string>)
    ensures res.Success? <==> Accepted(response) && BodyData(response).Some?
    ensures res.Success? ==> res.value == ToUserProfile(BodyData(response).value)
    ensures Accepted(response) && BodyData(response).None? ==> res == Failure("Data profil tidak valid")
    ensures response.Resp? && !Accepted(response) ==> res == Failure(Rejection(response, "Gagal memperbarui profil"))
    ensures response.Exn? ==> res == Failure(ConnectionFailure(response.exnMessage))
  {
    Single(response, ToUserProfile, "Data profil tidak valid", "Gagal memperbarui profil")
  }

  class UserRepository {
    const tokenManager: TokenManager

    constructor (tokenManager: TokenManager)
      ensures this.tokenManager == tokenManager
    {
      this.tokenManager := tokenManager;
    }

    /**
     * logout: the local credentials are cleared whatever the server answered, and
     * the result is always the same success.
     */
    method Logout(response: Response<()>) returns (res: Result<string, string>)
      modifies tokenManager
      ensures res == Success("Logout berhasil")
      ensures tokenManager.prefs == map[]
      ensures !tokenManager.IsLoggedIn()
    {
      match response
      case Exn(_) =>
        tokenManager.ClearTokens();
        res := Success("Logout berhasil");
      case Resp(_, _) =>
        if Accepted(response) {
          tokenManager.ClearTokens();
          res := Success("Logout berhasil");
        } else {
          tokenManager.ClearTokens();
          res := Success("Logout berhasil");
        }
    }
  }
}
