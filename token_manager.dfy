/**
 * The session store: a key-value file of strings ("auth_prefs") holding
 * the two tokens and the username, and the set-once global instance
 * through which the rest of the app reaches it.
 */
module Session {
  import opened Wrappers

  const AccessTokenKey: string := "access_token"
  const RefreshTokenKey: string := "refresh_token"
  const UsernameKey: string := "username"

  /** `getString(key, null)`. */
  function GetString(prefs: map<string, string>, key: string): (r: Option<string>)
    ensures r.Some? <==> key in prefs
    ensures r.Some? ==> r.value == prefs[key]
  {
    if key in prefs then Some(prefs[key]) else None
  }

  class TokenManager {
    /** The stored preferences; each `apply()` is one update of this map. */
    var prefs: map<string, string>

    /** A manager over the preferences already stored on the device. */
    constructor (stored: map<string, string>)
      ensures prefs == stored
    {
      prefs := stored;
    }

    function GetAccessToken(): (token: Option<string>)
      reads this
      ensures token.Some? <==> AccessTokenKey in prefs
      ensures token.Some? ==> token.value == prefs[AccessTokenKey]
    {
      GetString(prefs, AccessTokenKey)
    }

    function GetRefreshToken(): (token: Option<string>)
      reads this
      ensures token.Some? <==> RefreshTokenKey in prefs
      ensures token.Some? ==> token.value == prefs[RefreshTokenKey]
    {
      GetString(prefs, RefreshTokenKey)
    }

    function GetUsername(): (username: Option<string>)
      reads this
      ensures username.Some? <==> UsernameKey in prefs
      ensures username.Some? ==> username.value == prefs[UsernameKey]
    {
      GetString(prefs, UsernameKey)
    }

    /** Logged in iff an access token is stored. */
    function IsLoggedIn(): (loggedIn: bool)
      reads this
      ensures loggedIn <==> AccessTokenKey in prefs
    {
      GetAccessToken() != None
    }

    /** Both tokens are written; the username and every other key stay as they were. */
    method SaveTokens(accessToken: string, refreshToken: string)
      modifies this
      ensures prefs == old(prefs)[AccessTokenKey := accessToken][RefreshTokenKey := refreshToken]
      ensures GetAccessToken() == Some(accessToken) && GetRefreshToken() == Some(refreshToken)
      ensures GetUsername() == old(GetUsername()) && IsLoggedIn()
    {
      prefs := prefs[AccessTokenKey := accessToken][RefreshTokenKey := refreshToken];
    }

    /** The tokens and the username are written together. */
    method SaveUserData(accessToken: string, refreshToken: string, username: string)
      modifies this
      ensures prefs == old(prefs)[AccessTokenKey := accessToken][RefreshTokenKey := refreshToken][UsernameKey := username]
      ensures GetAccessToken() == Some(accessToken) && GetRefreshToken() == Some(refreshToken)
      ensures GetUsername() == Some(username) && IsLoggedIn()
    {
      prefs := prefs[AccessTokenKey := accessToken][RefreshTokenKey := refreshToken][UsernameKey := username];
    }

    /** Logging out removes the three keys and nothing else. */
    method ClearTokens()
      modifies this
      ensures prefs == old(prefs) - {AccessTokenKey, RefreshTokenKey, UsernameKey}
      ensures GetAccessToken() == None && GetRefreshToken() == None && GetUsername() == None
      ensures !IsLoggedIn()
    {
      prefs := prefs - {AccessTokenKey, RefreshTokenKey, UsernameKey};
    }
  }

  const NotInitialisedMessage: string := "TokenManager deve essere inizializzato prima dell'uso"

  /** What `getInstance` gives: the instance, or the `IllegalStateException` it throws. */
  datatype InstanceLookup = Ready(manager: TokenManager) | NotInitialised(message: string)

  /** The companion object holding the one `INSTANCE`. */
  class TokenManagerHolder {
    var instance: Option<TokenManager>

    constructor ()
      ensures instance == None
    {
      instance := None;
    }

    /** `initialize`: creates the instance on the first call; later calls keep it. */
    method Initialize(stored: map<string, string>)
      modifies this
      ensures old(instance).Some? ==> instance == old(instance)
      ensures old(instance).None? ==> instance.Some? && fresh(instance.value) && instance.value.prefs == stored
    {
      if instance.None? {
        var manager := new TokenManager(stored);
        instance := Some(manager);
      }
    }

    /** `getInstance`: fails exactly when `initialize` has not run. */
    function GetInstance(): (r: InstanceLookup)
      reads this
      ensures r.NotInitialised? <==> instance.None?
      ensures r.NotInitialised? ==> r.message == NotInitialisedMessage
      ensures r.Ready? ==> instance == Some(r.manager)
    {
      match instance
      case Some(manager) => Ready(manager)
      case None => NotInitialised(NotInitialisedMessage)
    }
  }

  /** Initialise twice, log in, log out: the first instance serves throughout and ends logged out. */
  method SessionLifecycle() returns (before: bool, same: bool, loggedIn: bool, name: Option<string>, loggedOut: bool)
    ensures before && same && loggedIn && name == Some("anna") && !loggedOut
  {
    var holder := new TokenManagerHolder();
    before := holder.GetInstance().NotInitialised?;
    holder.Initialize(map[]);
    var first := holder.GetInstance().manager;
    holder.Initialize(map[UsernameKey := "bruno"]);
    same := holder.GetInstance() == Ready(first);
    first.SaveUserData("a1", "r1", "anna");
    loggedIn, name := first.IsLoggedIn(), first.GetUsername();
    first.ClearTokens();
    loggedOut := first.IsLoggedIn();
  }
}
