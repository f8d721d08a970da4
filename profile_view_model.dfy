/** presentation/profile/ProfileViewModel.kt: the profile screen's state holder. */
module ProfileViewModel {
  import opened Wrappers
  import opened Domain
  import opened Envelope
  import opened TokenManager
  import opened UserRepository

  datatype ProfileState = ProfileState(
    isLoading: bool,
    errorMessage: Option<string>,
    successMessage: Option<string>,
    profile: Option<UserProfile>,
    isLoggedOut: bool)

  const DefaultState: ProfileState := ProfileState(false, None, None, None, false)

  class ProfileViewModel {
    var state: ProfileState
    const userRepository: UserRepository

    /** `init`: load the profile. */
    constructor (userRepository: UserRepository, profile: Result<UserProfile, string>)
      ensures this.userRepository == userRepository
      ensures profile.Success? ==> state == DefaultState.(profile := Some(profile.value))
      ensures profile.Failure? ==> state == DefaultState.(errorMessage := Some(profile.error))
    {
      state := DefaultState;
      this.userRepository := userRepository;
      new;
      LoadProfile(profile);
    }

    /** loadProfile: a success replaces the profile, a failure keeps it and shows the message. */
    method LoadProfile(outcome: Result<UserProfile, string>)
      modifies this
      ensures outcome.Success? ==> state == old(state).(isLoading := false, errorMessage := None, profile := Some(outcome.value))
      ensures outcome.Failure? ==> state == old(state).(isLoading := false, errorMessage := Some(outcome.error))
    {
      state := state.(isLoading := true, errorMessage := None);
      match outcome
      case Success(profile) =>
        state := state.(profile := Some(profile), isLoading := false);
      case Failure(message) =>
        state := state.(errorMessage := Some(message), isLoading := false);
    }

    /** updateProfile: a success shows the server's updated profile and "Profil berhasil diperbarui". */
    method UpdateProfile(outcome: Result<UserProfile, string>)
      modifies this
      ensures outcome.Success? ==> state == old(state).(isLoading := false, errorMessage := None,
        profile := Some(outcome.value), successMessage := Some("Profil berhasil diperbarui"))
      ensures outcome.Failure? ==> state == old(state).(isLoading := false, errorMessage := Some(outcome.error))
    {
      state := state.(isLoading := true, errorMessage := None);
      match outcome
      case Success(profile) =>
        state := state.(profile := Some(profile), isLoading := false, successMessage := Some("Profil berhasil diperbarui"));
      case Failure(message) =>
        state := state.(errorMessage := Some(message), isLoading := false);
    }

    /**
     * logout: the screen ends logged out whatever the server answered, and the
     * credential store is empty. Both branches of the source set the same state,
     * and the repository never fails, so one assignment stands for both.
     */
    method Logout(response: Response<()>)
      modifies this, userRepository.tokenManager
      ensures state == old(state).(isLoading := false, isLoggedOut := true)
      ensures userRepository.tokenManager.prefs == map[]
      ensures !userRepository.tokenManager.IsLoggedIn()
    {
      state := state.(isLoading := true);
      var _ := userRepository.Logout(response);
      state := state.(isLoading := false, isLoggedOut := true);
    }

    method ClearMessages()
      modifies this
      ensures state == old(state).(errorMessage := None, successMessage := None)
    {
      state := state.(errorMessage := None, successMessage := None);
    }
  }
}
