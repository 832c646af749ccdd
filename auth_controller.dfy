/** The account endpoints of the backend: registration validates the
  * username and password in a fixed order before touching the database,
  * login answers the same way for an unknown user and a wrong password,
  * and token validation needs a "Bearer " header. The database, the
  * password hash and the token service are parameters, and so is whether
  * one of them throws: each endpoint turns an exception into a 500
  * "Internal server error". */
module Auth {
  import opened Wrappers
  import opened Strings

  /** A stored account (only the fields the endpoints use). */
  datatype PlayerAccount = PlayerAccount(playerId: string, username: string, passwordHash: string)

  datatype RegisterRequest = RegisterRequest(username: string, password: string, email: string)
  datatype LoginRequest = LoginRequest(username: string, password: string)

  /** The HTTP answers: status code and body. */
  datatype AuthResult =
    | BadRequest(error: string)                                  // 400
    | Unauthorized(error: string)                                // 401
    | Conflict(error: string)                                    // 409
    | ServerError(error: string)                                 // 500
    | Created(playerId: string, username: string, token: string) // 201
    | Ok(playerId: string, username: string, token: string)      // 200
    | Validated(playerId: string, username: string)              // 200, `Valid = true`

  /** What the token service reports: valid, player id, username. */
  datatype TokenCheck = TokenCheck(valid: bool, playerId: Option<string>, username: Option<string>)

  const UsernameRequired := "Username is required"
  const UsernameLength := "Username must be between 3 and 50 characters"
  const UsernameCharacters := "Username can only contain letters, numbers, and underscores"
  const PasswordRequired := "Password is required"
  const PasswordLength := "Password must be between 8 and 64 characters"

  /** `IsValidUsername`: letters, digits and '_' only. */
  predicate IsValidUsername(username: string) {
    forall i :: 0 <= i < |username| ==> IsLetterOrDigit(username[i]) || username[i] == '_'
  }

  /** The registration checks in their order; the first that fails names
    * the error, and `None` means the request passed them all. */
  function RegistrationError(r: RegisterRequest): (e: Option<string>)
    ensures e == Some(UsernameRequired) <==> IsNullOrWhiteSpace(r.username)
    ensures e == Some(UsernameLength) <==>
      !IsNullOrWhiteSpace(r.username) && !(3 <= |r.username| <= 50)
    ensures e == Some(UsernameCharacters) <==>
      !IsNullOrWhiteSpace(r.username) && 3 <= |r.username| <= 50 && !IsValidUsername(r.username)
    ensures e == Some(PasswordRequired) <==>
      !IsNullOrWhiteSpace(r.username) && 3 <= |r.username| <= 50 && IsValidUsername(r.username) &&
      IsNullOrWhiteSpace(r.password)
    ensures e == Some(PasswordLength) <==>
      !IsNullOrWhiteSpace(r.username) && 3 <= |r.username| <= 50 && IsValidUsername(r.username) &&
      !IsNullOrWhiteSpace(r.password) && !(8 <= |r.password| <= 64)
    ensures e.None? <==>
      !IsNullOrWhiteSpace(r.username) && 3 <= |r.username| <= 50 && IsValidUsername(r.username) &&
      !IsNullOrWhiteSpace(r.password) && 8 <= |r.password| <= 64
  {
    if IsNullOrWhiteSpace(r.username) then Some(UsernameRequired)
    else if |r.username| < 3 || |r.username| > 50 then Some(UsernameLength)
    else if !IsValidUsername(r.username) then Some(UsernameCharacters)
    else if IsNullOrWhiteSpace(r.password) then Some(PasswordRequired)
    else if |r.password| < 8 || |r.password| > 64 then Some(PasswordLength)
    else None
  }

  /** A valid username holds no white space, so it is never blank. */
  lemma ValidUsernameNotBlank(username: string)
    requires |username| >= 1 && IsValidUsername(username)
    ensures !IsNullOrWhiteSpace(username)
  {
    assert !IsWhiteSpace(username[0]);
  }

  const InternalError := "Internal server error"

  /** `Register`. `existing` is the database's answer for the username,
    * `created` the account it creates (`None` when creation fails), and
    * `token` the token issued for it; `thrown` says that the database, the
    * hash or the token service threw once the checks had passed. A taken
    * username is refused before anything is created. */
  function Register(r: RegisterRequest, existing: Option<PlayerAccount>, created: Option<PlayerAccount>,
                    token: string, thrown: bool): (result: AuthResult)
    ensures result.BadRequest? <==> RegistrationError(r).Some?
    ensures result.BadRequest? ==> result.error == RegistrationError(r).value
    ensures result.Conflict? <==> RegistrationError(r).None? && !thrown && existing.Some?
    ensures result.Created? <==> RegistrationError(r).None? && !thrown && existing.None? && created.Some?
    ensures result.Created? ==> result == Created(created.value.playerId, created.value.username, token)
    ensures result.ServerError? <==> RegistrationError(r).None? && (thrown || (existing.None? && created.None?))
    ensures RegistrationError(r).None? && thrown ==> result == ServerError(InternalError)
    ensures result.ServerError? && !thrown ==> result.error == "Failed to create account"
  {
    match RegistrationError(r)
    case Some(error) => BadRequest(error)
    case None =>
      if thrown then ServerError(InternalError)
      else if existing.Some? then Conflict("Username already exists")
      else match created
        case None => ServerError("Failed to create account")
        case Some(account) => Created(account.playerId, account.username, token)
  }

  /** `Login`. `account` is the database's answer for the username and
    * `passwordMatches` the hash check; a token is issued on success.
    * `thrown` says that the database, the hash check or the token service
    * threw once the request had passed the blank check. */
  function Login(r: LoginRequest, account: Option<PlayerAccount>, passwordMatches: bool, token: string,
                 thrown: bool): (result: AuthResult)
    ensures IsNullOrWhiteSpace(r.username) || IsNullOrWhiteSpace(r.password) ==>
      result == BadRequest("Username and password are required")
    ensures !IsNullOrWhiteSpace(r.username) && !IsNullOrWhiteSpace(r.password) && thrown ==>
      result == ServerError(InternalError)
    ensures result.Ok? <==>
      !IsNullOrWhiteSpace(r.username) && !IsNullOrWhiteSpace(r.password) && !thrown && account.Some? && passwordMatches
    ensures result.Ok? ==> result == Ok(account.value.playerId, account.value.username, token)
    ensures result.Unauthorized? ==> result.error == "Invalid credentials"
  {
    if IsNullOrWhiteSpace(r.username) || IsNullOrWhiteSpace(r.password) then
      BadRequest("Username and password are required")
    else if thrown then ServerError(InternalError)
    else if account.None? then Unauthorized("Invalid credentials")
    else if !passwordMatches then Unauthorized("Invalid credentials")
    else Ok(account.value.playerId, account.value.username, token)
  }

  /** An unknown user and a wrong password get the same answer, so the
    * answer does not reveal which usernames exist. */
  lemma LoginHidesUnknownUser(r: LoginRequest, account: PlayerAccount, token: string)
    requires !IsNullOrWhiteSpace(r.username) && !IsNullOrWhiteSpace(r.password)
    ensures Login(r, None, true, token, false) == Login(r, Some(account), false, token, false) == Unauthorized("Invalid credentials")
  {
  }

  const BearerPrefix := "Bearer "

  /** `Validate`: the header must start with "Bearer "; the rest, trimmed,
    * goes to the token service, whose answer must be valid and carry both
    * a player id and a username. `thrown` says that the token service
    * threw. */
  function Validate(authHeader: string, validateToken: string -> TokenCheck, thrown: bool): (result: AuthResult)
    ensures !StartsWith(authHeader, BearerPrefix) ==> result == Unauthorized("No token provided")
    ensures result.Validated? ==>
      StartsWith(authHeader, BearerPrefix) &&
      (var check := validateToken(Trim(authHeader[|BearerPrefix|..]));
       check.valid && Some(result.playerId) == check.playerId && Some(result.username) == check.username)
    ensures StartsWith(authHeader, BearerPrefix) && thrown ==> result == ServerError(InternalError)
    ensures StartsWith(authHeader, BearerPrefix) && !thrown ==>
      var token := Trim(authHeader[|BearerPrefix|..]);
      var check := validateToken(token);
      if check.valid && check.playerId.Some? && check.username.Some? then
        result == Validated(check.playerId.value, check.username.value)
      else
        result == Unauthorized("Invalid token")
    ensures result.Validated? || result.Unauthorized? || result.ServerError?
  {
    if authHeader == "" || !StartsWith(authHeader, BearerPrefix) then Unauthorized("No token provided")
    else if thrown then ServerError(InternalError)
    else
      var token := Trim(authHeader[|BearerPrefix|..]);
      var check := validateToken(token);
      if !check.valid || check.playerId.None? || check.username.None? then Unauthorized("Invalid token")
      else Validated(check.playerId.value, check.username.value)
  }
}
