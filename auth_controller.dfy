/**
 * The authentication controller's handlers. Each handler is a function from
 * what it reads (the request fields, the authenticated user that the
 * middleware attached, and the answers of the services it calls) to the
 * HTTP status and body it sends. The login handler also drives the rate
 * limiter; it appears both as a function of the limiter's map and as a method
 * on the limiter object.
 */
module AuthController {
  import opened Common
  import LoginAttempts
  import AuthMessage
  import EmailFormat

  const StatusOk := 200
  const StatusCreated := 201
  const StatusBadRequest := 400
  const StatusUnauthorized := 401
  const StatusConflict := 409
  const StatusTooManyRequests := 429
  const StatusServerError := 500

  /** The user record as the authentication middleware attaches it to a request. */
  datatype User = User(
    id: string,
    wallet_address: string,
    email: Option<string>,
    username: Option<string>,
    avatar_url: Option<string>,
    is_active: bool,
    created_at: int,
    updated_at: int,
    last_login_at: Option<int>)

  /** What the authentication service returns on success: the user and a session token. */
  datatype AuthResponse = AuthResponse(user: User, token: string, expires_at: int)

  /** A response: its status and either the `data` of a success or the `error` text of a failure. */
  datatype Reply<T> = Success(status: int, data: T) | Failure(status: int, error: string)

  // ---------- getAuthMessage ----------

  datatype AuthChallenge = AuthChallenge(message: string, nonce: string, wallet_address: string)

  predicate WalletLengthOk(w: string)
  {
    42 <= |w| <= 66
  }

  /**
   * Issues the message a wallet signs to log in. `now` is the clock reading
   * and `nonce` the random string of the nonce generator.
   */
  function GetAuthMessage(walletAddress: Option<string>, now: nat, nonce: string): (r: Reply<AuthChallenge>)
    ensures r.status == StatusBadRequest <==> !(Given(walletAddress) && WalletLengthOk(walletAddress.value))
    ensures r.Failure? ==> r == Failure(StatusBadRequest, "Valid wallet address is required")
    ensures r.Success? ==> r.status == StatusOk
    ensures r.Success? ==>
              && r.data.wallet_address == walletAddress.value
              && r.data.nonce == nonce
              && r.data.message == AuthMessage.Challenge(walletAddress.value, now)
              && AuthMessage.ParseChallenge(r.data.message) == Some((walletAddress.value, now))
  {
    if !Given(walletAddress) || |walletAddress.value| < 42 || |walletAddress.value| > 66 then
      Failure(StatusBadRequest, "Valid wallet address is required")
    else
      var w := walletAddress.value;
      AuthMessage.ParseChallengeRoundTrip(w, now);
      Success(StatusOk, AuthChallenge(AuthMessage.Challenge(w, now), nonce, w))
  }

  // ---------- login ----------

  /** The reply of one login request, the limiter's map after it, and whether authentication was attempted. */
  datatype LoginOutcome = LoginOutcome(
    reply: Reply<AuthResponse>,
    attempts: LoginAttempts.Attempts,
    authenticated: bool)

  /**
   * The login handler: request validation first, then the rate limiter, then
   * the authentication service (whose answer is `auth`), and on success the
   * limiter forgets the wallet.
   */
  function LoginStep(validationOk: bool, m: LoginAttempts.Attempts, wallet: string, now: int,
                     auth: Option<AuthResponse>): (r: LoginOutcome)
    ensures r.reply.status == StatusBadRequest <==> !validationOk
    ensures !validationOk ==> r.attempts == m && !r.authenticated
    ensures !validationOk ==> r.reply == Failure(StatusBadRequest, "Validation failed")
    ensures r.reply.status == StatusTooManyRequests <==>
              validationOk && !LoginAttempts.Admits(m, wallet, now)
    ensures r.reply.status == StatusTooManyRequests ==> r.attempts == m && !r.authenticated
    ensures r.reply.status == StatusTooManyRequests ==>
              r.reply == Failure(StatusTooManyRequests, "Too many login attempts. Please try again later.")
    ensures r.authenticated <==> validationOk && LoginAttempts.Admits(m, wallet, now)
    ensures r.reply.status == StatusUnauthorized <==> r.authenticated && auth.None?
    ensures r.reply.status == StatusUnauthorized ==>
              r.reply == Failure(StatusUnauthorized, "Authentication failed. Invalid signature or wallet address.")
    ensures r.reply.status == StatusUnauthorized ==>
              r.attempts == LoginAttempts.Check(m, wallet, now).attempts
              && wallet in r.attempts && r.attempts[wallet].lastAttempt == now
    ensures r.reply.status == StatusOk <==> r.authenticated && auth.Some?
    ensures r.reply.status == StatusOk ==>
              r.reply == Success(StatusOk, auth.value)
              && r.attempts == LoginAttempts.Reset(LoginAttempts.Check(m, wallet, now).attempts, wallet)
              && wallet !in r.attempts
              && forall w :: w in m && w != wallet ==> w in r.attempts && r.attempts[w] == m[w]
    ensures LoginAttempts.CountsBounded(m) ==> LoginAttempts.CountsBounded(r.attempts)
  {
    if !validationOk then
      LoginOutcome(Failure(StatusBadRequest, "Validation failed"), m, false)
    else
      var check := LoginAttempts.Check(m, wallet, now);
      if !check.allowed then
        LoginOutcome(Failure(StatusTooManyRequests, "Too many login attempts. Please try again later."),
                     check.attempts, false)
      else if auth.None? then
        LoginOutcome(Failure(StatusUnauthorized, "Authentication failed. Invalid signature or wallet address."),
                     check.attempts, true)
      else
        LoginOutcome(Success(StatusOk, auth.value), LoginAttempts.Reset(check.attempts, wallet), true)
  }

  /** A refused or invalid login does not depend on what authentication would have answered. */
  lemma RefusedLoginIgnoresAuthentication(validationOk: bool, m: LoginAttempts.Attempts, wallet: string,
                                          now: int, a1: Option<AuthResponse>, a2: Option<AuthResponse>)
    requires !validationOk || !LoginAttempts.Admits(m, wallet, now)
    ensures LoginStep(validationOk, m, wallet, now, a1) == LoginStep(validationOk, m, wallet, now, a2)
  {
  }

  /**
   * The login handler on the service's limiter object. `auth` is what the
   * authentication service answers when it is asked.
   */
  method Login(limiter: LoginAttempts.LoginRateLimiter, validationOk: bool, walletAddress: string,
               now: int, auth: Option<AuthResponse>) returns (reply: Reply<AuthResponse>)
    requires limiter.Valid()
    modifies limiter
    ensures limiter.Valid()
    ensures reply == LoginStep(validationOk, old(limiter.loginAttempts), walletAddress, now, auth).reply
    ensures limiter.loginAttempts ==
              LoginStep(validationOk, old(limiter.loginAttempts), walletAddress, now, auth).attempts
  {
    if !validationOk {
      return Failure(StatusBadRequest, "Validation failed");
    }
    var canAttempt := limiter.CheckLoginAttempts(walletAddress, now);
    if !canAttempt {
      return Failure(StatusTooManyRequests, "Too many login attempts. Please try again later.");
    }
    if auth.None? {
      return Failure(StatusUnauthorized, "Authentication failed. Invalid signature or wallet address.");
    }
    limiter.ResetLoginAttempts(walletAddress);
    return Success(StatusOk, auth.value);
  }

  // ---------- register ----------

  /**
   * The registration handler. The registration service refuses a wallet that
   * already has a user (`existingUser`); otherwise `created` is its answer
   * after creating the user, `None` if that failed. Both refusals reach the
   * client as 409.
   */
  function Register(validationOk: bool, existingUser: bool, created: Option<AuthResponse>): (r: Reply<AuthResponse>)
    ensures r.status == StatusBadRequest <==> !validationOk
    ensures !validationOk ==> r == Failure(StatusBadRequest, "Validation failed")
    ensures r.status == StatusConflict <==> validationOk && (existingUser || created.None?)
    ensures r.status == StatusConflict ==> r == Failure(StatusConflict, "User already exists with this wallet address")
    ensures r.Success? <==> validationOk && !existingUser && created.Some?
    ensures r.Success? ==> r == Success(StatusCreated, created.value)
  {
    if !validationOk then Failure(StatusBadRequest, "Validation failed")
    else if existingUser || created.None? then
      Failure(StatusConflict, "User already exists with this wallet address")
    else Success(StatusCreated, created.value)
  }

  // ---------- refreshToken ----------

  /** The token refresh handler; `refreshed` is the service's answer for the given refresh token. */
  function RefreshToken(validationOk: bool, refreshed: Option<AuthResponse>): (r: Reply<AuthResponse>)
    ensures r.status == StatusBadRequest <==> !validationOk
    ensures !validationOk ==> r == Failure(StatusBadRequest, "Validation failed")
    ensures r.status == StatusUnauthorized <==> validationOk && refreshed.None?
    ensures validationOk && refreshed.None? ==> r == Failure(StatusUnauthorized, "Invalid or expired refresh token")
    ensures r.Success? <==> validationOk && refreshed.Some?
    ensures r.Success? ==> r == Success(StatusOk, refreshed.value)
  {
    if !validationOk then Failure(StatusBadRequest, "Validation failed")
    else if refreshed.None? then Failure(StatusUnauthorized, "Invalid or expired refresh token")
    else Success(StatusOk, refreshed.value)
  }

  // ---------- logout ----------

  /** The logout handler's reply and the user it asked the service to log out, if any. */
  datatype LogoutOutcome = LogoutOutcome(reply: Reply<()>, loggedOutUser: Option<string>)

  /** `loggedOut` is the logout service's answer when it is asked. */
  function Logout(user: Option<User>, loggedOut: bool): (r: LogoutOutcome)
    ensures user.None? ==> r == LogoutOutcome(Failure(StatusUnauthorized, "User not authenticated"), None)
    ensures user.Some? ==> r.loggedOutUser == Some(user.value.id)
    ensures r.reply.status == StatusServerError <==> user.Some? && !loggedOut
    ensures user.Some? && !loggedOut ==> r.reply == Failure(StatusServerError, "Logout failed")
    ensures r.reply.Success? <==> user.Some? && loggedOut
    ensures r.reply.Success? ==> r.reply.status == StatusOk
  {
    if user.None? then LogoutOutcome(Failure(StatusUnauthorized, "User not authenticated"), None)
    else if !loggedOut then LogoutOutcome(Failure(StatusServerError, "Logout failed"), Some(user.value.id))
    else LogoutOutcome(Success(StatusOk, ()), Some(user.value.id))
  }

  // ---------- getProfile ----------

  /** The fields of a user that the profile endpoint exposes. */
  datatype Profile = Profile(
    id: string,
    wallet_address: string,
    email: Option<string>,
    username: Option<string>,
    avatar_url: Option<string>,
    created_at: int,
    updated_at: int)

  function GetProfile(user: Option<User>): (r: Reply<Profile>)
    ensures user.None? <==> r == Failure(StatusUnauthorized, "User not authenticated")
    ensures r.Success? <==> user.Some?
    ensures r.Success? ==> r.status == StatusOk
    ensures r.Success? ==>
              var u := user.value;
              r.data == Profile(u.id, u.wallet_address, u.email, u.username, u.avatar_url,
                                u.created_at, u.updated_at)
  {
    match user
    case None => Failure(StatusUnauthorized, "User not authenticated")
    case Some(u) =>
      Success(StatusOk, Profile(u.id, u.wallet_address, u.email, u.username, u.avatar_url,
                                u.created_at, u.updated_at))
  }

  /** The profile reveals nothing of the account's activity flag or last login time. */
  lemma ProfileHidesSessionFields(u: User, active: bool, lastLogin: Option<int>)
    ensures GetProfile(Some(u)) == GetProfile(Some(u.(is_active := active, last_login_at := lastLogin)))
  {
  }

  // ---------- updateProfile ----------

  /** The fields the handler asks the profile service to write for a user. */
  datatype ProfileUpdate = ProfileUpdate(
    userId: string,
    email: Option<string>,
    username: Option<string>,
    avatar_url: Option<string>)

  /** The fields of the updated user that the handler returns. */
  datatype UpdatedProfile = UpdatedProfile(
    id: string,
    wallet_address: string,
    email: Option<string>,
    username: Option<string>,
    avatar_url: Option<string>,
    updated_at: int)

  datatype ProfileOutcome = ProfileOutcome(reply: Reply<UpdatedProfile>, request: Option<ProfileUpdate>)

  /** A given email that the pattern rejects. */
  ghost predicate EmailRejected(email: Option<string>)
  {
    Given(email) && !EmailFormat.MatchesPattern(email.value)
  }

  predicate UsernameRejected(username: Option<string>)
  {
    Given(username) && (|username.value| < 3 || |username.value| > 50)
  }

  /**
   * The profile update handler. `updated` is the profile service's answer
   * when it is asked to write `request`.
   */
  function UpdateProfile(user: Option<User>, email: Option<string>, username: Option<string>,
                         avatarUrl: Option<string>, updated: Option<User>): (r: ProfileOutcome)
    ensures user.None? ==> r == ProfileOutcome(Failure(StatusUnauthorized, "User not authenticated"), None)
    ensures r.reply == Failure(StatusBadRequest, "Invalid email format") <==>
              user.Some? && EmailRejected(email)
    ensures r.reply == Failure(StatusBadRequest, "Username must be between 3 and 50 characters") <==>
              user.Some? && !EmailRejected(email) && UsernameRejected(username)
    ensures r.reply.status == StatusBadRequest <==>
              user.Some? && (EmailRejected(email) || UsernameRejected(username))
    ensures r.request.Some? <==> user.Some? && !EmailRejected(email) && !UsernameRejected(username)
    ensures r.request.Some? ==> r.request.value == ProfileUpdate(user.value.id, email, username, avatarUrl)
    ensures r.reply.status == StatusServerError <==> r.request.Some? && updated.None?
    ensures r.reply.Success? <==> r.request.Some? && updated.Some?
    ensures r.reply.Success? ==>
              var u := updated.value;
              r.reply == Success(StatusOk, UpdatedProfile(u.id, u.wallet_address, u.email, u.username,
                                                          u.avatar_url, u.updated_at))
  {
    if user.None? then
      ProfileOutcome(Failure(StatusUnauthorized, "User not authenticated"), None)
    else if Given(email) && !EmailFormat.IsEmailAddress(email.value) then
      EmailFormat.EmailAddressIffPattern(email.value);
      ProfileOutcome(Failure(StatusBadRequest, "Invalid email format"), None)
    else if Given(username) && (|username.value| < 3 || |username.value| > 50) then
      assert Given(email) ==> EmailFormat.MatchesPattern(email.value) by {
        if Given(email) { EmailFormat.EmailAddressIffPattern(email.value); }
      }
      ProfileOutcome(Failure(StatusBadRequest, "Username must be between 3 and 50 characters"), None)
    else
      var request := ProfileUpdate(user.value.id, email, username, avatarUrl);
      assert Given(email) ==> EmailFormat.MatchesPattern(email.value) by {
        if Given(email) { EmailFormat.EmailAddressIffPattern(email.value); }
      }
      match updated
      case None => ProfileOutcome(Failure(StatusServerError, "Profile update failed"), Some(request))
      case Some(u) =>
        ProfileOutcome(Success(StatusOk, UpdatedProfile(u.id, u.wallet_address, u.email, u.username,
                                                        u.avatar_url, u.updated_at)), Some(request))
  }

  // ---------- validateToken ----------

  /** `sessionValid` is the session service's verdict on the token when it is asked. */
  function ValidateToken(token: Option<string>, sessionValid: bool): (r: Reply<bool>)
    ensures !Given(token) <==> r == Failure(StatusBadRequest, "Token is required")
    ensures r.Success? ==> r == Success(StatusOk, sessionValid)
    ensures Given(token) ==> r == Success(StatusOk, sessionValid)
    ensures r.Success? || r.status == StatusBadRequest
  {
    if !Given(token) then Failure(StatusBadRequest, "Token is required")
    else Success(StatusOk, sessionValid)
  }

}
