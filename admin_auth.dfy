/** The session store: the admin's token and identity, a loading flag, and the two
    `localStorage` keys they are persisted under.  Each handler is one atomic step; the
    network's answer and the result of `JSON.parse` are inputs. */
module AdminAuth {
  import opened Common
  import opened Entities

  const TokenKey := "adminToken"
  const UserKey := "adminUser"

  /** The identity kept for a signed-in admin (its role is always 'admin'). */
  datatype AdminUser = AdminUser(id: int, email: string)

  /** The user object of a login response. */
  datatype LoginUser = LoginUser(id: int, email: string, role: Role)

  /** How the login request ended: a response with a token and a user, or a rejection
      carrying the server's `error` text (empty when there was none) and the Error's
      message. */
  datatype LoginResponse =
    | LoginReply(token: string, user: LoginUser)
    | LoginRejected(serverError: string, message: string)

  /** The Error `login` throws for a response, or none when it succeeds: a non-admin
      user is refused, a server error text wins over the message, and 'Login failed' is
      the last resort. */
  function LoginError(response: LoginResponse): (thrown: Option<string>)
    ensures thrown.Some? ==> thrown.value != ""
    ensures thrown.None? <==> response.LoginReply? && response.user.role == AdminRole
  {
    match response
    case LoginReply(_, user) =>
      if user.role != AdminRole then Some("Access denied. Admin privileges required.") else None
    case LoginRejected(serverError, message) =>
      if serverError != "" then Some(serverError) else Some(MessageOr(message, "Login failed"))
  }

  class Session {
    var token: Option<string>
    var admin: Option<AdminUser>
    var isLoading: bool
    /** `localStorage`. */
    var storage: map<string, string>

    /** Whatever is signed in is also persisted, and token and admin are set together. */
    ghost predicate Valid()
      reads this
    {
      && (token.Some? <==> admin.Some?)
      && (token.Some? ==> TokenKey in storage && storage[TokenKey] == token.value)
      && (admin.Some? ==> UserKey in storage)
    }

    /** `isAuthenticated: !!token && !!admin`; the empty token is falsy. */
    predicate IsAuthenticated()
      reads this
    {
      token.Some? && token.value != "" && admin.Some?
    }

    /** `localStorage.getItem(key)` when it is truthy. */
    function Stored(key: string): (r: Option<string>)
      reads this
      ensures r.Some? <==> key in storage && storage[key] != ""
      ensures r.Some? ==> r.value == storage[key]
    {
      if key in storage && storage[key] != "" then Some(storage[key]) else None
    }

    /** The provider as it mounts: nothing signed in, loading. */
    constructor (storage: map<string, string>)
      ensures Valid() && token == None && admin == None && isLoading
      ensures this.storage == storage
    {
      token, admin, isLoading := None, None, true;
      this.storage := storage;
    }

    /** The mount effect.  Without both keys loading just ends; stored admin data that
        does not parse removes both keys; otherwise the stored token is verified. */
    method Load(parsed: Option<AdminUser>, verified: bool)
      requires Valid() && token == None && admin == None
      modifies this
      ensures Valid() && !isLoading
      ensures old(Stored(TokenKey)).None? || old(Stored(UserKey)).None? ==>
                token == None && admin == None && storage == old(storage)
      ensures old(Stored(TokenKey)).Some? && old(Stored(UserKey)).Some? && parsed.None? ==>
                token == None && admin == None && storage == old(storage) - {TokenKey, UserKey}
      ensures old(Stored(TokenKey)).Some? && old(Stored(UserKey)).Some? && parsed.Some? && verified ==>
                token == old(Stored(TokenKey)) && admin == parsed && storage == old(storage)
                && IsAuthenticated()
      ensures old(Stored(TokenKey)).Some? && old(Stored(UserKey)).Some? && parsed.Some? && !verified ==>
                token == None && admin == None && storage == old(storage) - {TokenKey, UserKey}
      ensures !verified ==> !IsAuthenticated()
    {
      var storedToken := Stored(TokenKey);
      var storedAdmin := Stored(UserKey);
      if storedToken.Some? && storedAdmin.Some? {
        if parsed.None? {
          storage := storage - {TokenKey} - {UserKey};
          isLoading := false;
        } else {
          VerifyAdminToken(storedToken.value, parsed.value, verified);
        }
      } else {
        isLoading := false;
      }
    }

    /** `verifyAdminToken`: a successful test request installs the token and admin; any
        failure removes both keys and signs out.  Loading ends either way. */
    method VerifyAdminToken(tokenToVerify: string, adminData: AdminUser, verified: bool)
      requires TokenKey in storage && storage[TokenKey] == tokenToVerify && UserKey in storage
      modifies this
      ensures Valid() && !isLoading
      ensures verified ==> token == Some(tokenToVerify) && admin == Some(adminData) && storage == old(storage)
      ensures !verified ==> token == None && admin == None && storage == old(storage) - {TokenKey, UserKey}
    {
      if verified {
        token := Some(tokenToVerify);
        admin := Some(adminData);
        isLoading := false;
      } else {
        storage := storage - {TokenKey} - {UserKey};
        token := None;
        admin := None;
        isLoading := false;
      }
    }

    /** `login`: an admin reply is persisted (the token, and the user as `userJson`, its
        JSON text) and installed; anything else throws and changes nothing. */
    method Login(email: string, password: string, response: LoginResponse, userJson: string)
        returns (thrown: Option<string>)
      requires Valid()
      modifies this`token, this`admin, this`storage
      ensures Valid()
      ensures thrown == LoginError(response)
      ensures thrown.Some? ==> token == old(token) && admin == old(admin) && storage == old(storage)
      ensures thrown.None? ==>
                token == Some(response.token)
                && admin == Some(AdminUser(response.user.id, response.user.email))
                && storage == old(storage)[TokenKey := response.token][UserKey := userJson]
    {
      match response
      case LoginReply(authToken, user) =>
        if user.role != AdminRole {
          return Some(MessageOr("Access denied. Admin privileges required.", "Login failed"));
        }
        storage := storage[TokenKey := authToken];
        storage := storage[UserKey := userJson];
        token := Some(authToken);
        admin := Some(AdminUser(user.id, user.email));
        thrown := None;
      case LoginRejected(serverError, message) =>
        if serverError != "" {
          return Some(serverError);
        }
        return Some(MessageOr(message, "Login failed"));
    }

    /** `logout`: both keys removed, token and admin cleared. */
    method Logout()
      modifies this`token, this`admin, this`storage
      ensures Valid() && !IsAuthenticated()
      ensures token == None && admin == None && storage == old(storage) - {TokenKey, UserKey}
    {
      storage := storage - {TokenKey} - {UserKey};
      token := None;
      admin := None;
    }

    /** A 401 or 403 from the admin API: the interceptor removes both keys and sends the
        browser to `/login`, which starts the app afresh; the fresh provider finds no keys
        and ends loading signed out. */
    method ForcedLogout()
      modifies this
      ensures Valid() && !IsAuthenticated() && !isLoading
      ensures token == None && admin == None && storage == old(storage) - {TokenKey, UserKey}
    {
      storage := storage - {TokenKey} - {UserKey};
      token, admin := None, None;
      Load(None, false);
    }
  }
}
