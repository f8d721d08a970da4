/**
 * data/local/TokenManager.kt: the credential store, a string-to-string preference
 * file edited in place. Its encryption is not modelled; the store is a plain map.
 */
module TokenManager {
  import opened Wrappers

  const AccessTokenKey: string := "access_token"
  const RefreshTokenKey: string := "refresh_token"
  const UserIdKey: string := "user_id"
  const UsernameKey: string := "username"
  const UserEmailKey: string := "user_email"

  /** The five keys are distinct, so writing one never disturbs another. */
  lemma KeysDistinct()
    ensures |{AccessTokenKey, RefreshTokenKey, UserIdKey, UsernameKey, UserEmailKey}| == 5
  {
  }

  class TokenManager {
    /** The preference file's current contents. */
    var prefs: map<string, string>

    /** A store opened over whatever an earlier run left behind. */
    constructor (persisted: map<string, string>)
      ensures prefs == persisted
    {
      prefs := persisted;
    }

    /** `getString(key, null)`. */
    function Lookup(key: string): (r: Option<string>)
      reads this
      ensures r.Some? <==> key in prefs
      ensures r.Some? ==> r.value == prefs[key]
    {
      if key in prefs then Some(prefs[key]) else None
    }

    function GetAccessToken(): (r: Option<string>)
      reads this
      ensures r.Some? <==> AccessTokenKey in prefs
      ensures r.Some? ==> r.value == prefs[AccessTokenKey]
    {
      Lookup(AccessTokenKey)
    }

    function GetRefreshToken(): (r: Option<string>)
      reads this
      ensures r.Some? <==> RefreshTokenKey in prefs
      ensures r.Some? ==> r.value == prefs[RefreshTokenKey]
    {
      Lookup(RefreshTokenKey)
    }

    function GetUserId(): (r: Option<string>)
      reads this
      ensures r.Some? <==> UserIdKey in prefs
      ensures r.Some? ==> r.value == prefs[UserIdKey]
    {
      Lookup(UserIdKey)
    }

    function GetUserName(): (r: Option<string>)
      reads this
      ensures r.Some? <==> UsernameKey in prefs
      ensures r.Some? ==> r.value == prefs[UsernameKey]
    {
      Lookup(UsernameKey)
    }

    function GetUserEmail(): (r: Option<string>)
      reads this
      ensures r.Some? <==> UserEmailKey in prefs
      ensures r.Some? ==> r.value == prefs[UserEmailKey]
    {
      Lookup(UserEmailKey)
    }

    /** Logged in means an access token is stored; the refresh token plays no part. */
    function IsLoggedIn(): (b: bool)
      reads this
      ensures b <==> GetAccessToken().Some?
      ensures b <==> AccessTokenKey in prefs
    {
      GetAccessToken() != None
    }

    /** Writes the two token keys and nothing else. */
    method SaveTokens(accessToken: string, refreshToken: string)
      modifies this
      ensures prefs == old(prefs)[AccessTokenKey := accessToken][RefreshTokenKey := refreshToken]
      ensures GetAccessToken() == Some(accessToken) && GetRefreshToken() == Some(refreshToken)
      ensures GetUserId() == old(GetUserId()) && GetUserName() == old(GetUserName())
      ensures GetUserEmail() == old(GetUserEmail())
      ensures IsLoggedIn()
    {
      prefs := prefs[AccessTokenKey := accessToken];
      prefs := prefs[RefreshTokenKey := refreshToken];
    }

    /** Writes the three user keys and nothing else. */
    method SaveUserInfo(userId: string, username: string, email: string)
      modifies this
      ensures prefs == old(prefs)[UserIdKey := userId][UsernameKey := username][UserEmailKey := email]
      ensures GetUserId() == Some(userId) && GetUserName() == Some(username) && GetUserEmail() == Some(email)
      ensures GetAccessToken() == old(GetAccessToken()) && GetRefreshToken() == old(GetRefreshToken())
      ensures IsLoggedIn() == old(IsLoggedIn())
    {
      prefs := prefs[UserIdKey := userId];
      prefs := prefs[UsernameKey := username];
      prefs := prefs[UserEmailKey := email];
    }

    /** `edit().clear()`: the whole file is emptied, so every getter reads null. */
    method ClearTokens()
      modifies this
      ensures prefs == map[]
      ensures GetAccessToken().None? && GetRefreshToken().None?
      ensures GetUserId().None? && GetUserName().None? && GetUserEmail().None?
      ensures !IsLoggedIn()
    {
      prefs := map[];
    }
  }
}
