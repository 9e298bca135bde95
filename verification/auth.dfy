/**
 * The credential-issuing authentication service: password validation,
 * registration, login and the issuance of device credentials over the
 * `users`, `devices` and `auth_sessions` collections.
 *
 * The pure functions `Issue`, `AuthenticateOutcome`, `RegisterOutcome` and
 * `LoginOutcome` say what one call does to a snapshot of the three
 * collections; the class `AuthService` performs the same steps on its stores
 * and is proved to agree with them.
 */
module Auth {
  import opened Wrappers
  import opened Documents
  import opened Errors
  import opened Primitives
  import opened Users
  import opened Sessions
  import opened Devices

  /** The signing options the service is configured with. */
  datatype AuthConfig = AuthConfig(
    jwtKey: string,
    jwtAudience: string,
    jwtIssuer: string,
    jwtSubject: string,
    jwtExpiration: string)

  /** What a client sends to register. */
  datatype RegistrationInput = RegistrationInput(username: string, password: string, confirmPassword: string)

  /**
   * The client making the request: the device id it presents, if any, its
   * network address and its user-agent string (a missing one is "").
   */
  datatype ClientInfo = ClientInfo(id: Option<ObjectId>, host: string, agent: string)

  /** The public account claims placed in an access token; never the password. */
  datatype Account = Account(id: ObjectId, username: string, createdAt: Time, updatedAt: Time)

  /** What the signer is given: the claims, the key and the registered claims. */
  datatype AccessToken = AccessToken(
    account: Account,
    key: string,
    expiresIn: string,
    audience: string,
    issuer: string,
    subject: string)

  /** What register and login return. */
  datatype Credentials = Credentials(clientId: ObjectId, accessToken: AccessToken, refreshToken: string)

  /** The storage driver's error code for a unique-index violation. */
  const DuplicateKeyCode: int := 11000

  /**
   * What a step of the service can throw: one of the service's own errors,
   * an error from the storage driver (with its code and the key fields of a
   * duplicate), or a runtime error (a property read on null, a document that
   * fails schema validation).
   */
  datatype Fault =
    | Raised(error: ServiceError)
    | DriverError(code: int, keyFields: set<string>)
    | RuntimeError

  const PasswordFields: seq<string> := ["password", "confirmPassword"]
  const CredentialFields: seq<string> := ["username", "password"]
  const MinPasswordLength: nat := 8
  const MismatchMessage: string := "Your passwords must match."
  const TooShortMessage: string := "Passwords must be longer than 8 characters."
  const AuthenticationMessage: string := "We couldn't log you in with the provided credentials"
  const UsernameTakenMessage: string := "This username is taken."

  /** A string's `length` as JavaScript counts it: characters beyond U+FFFF take two code units. */
  function Utf16Length(s: string): (n: nat)
    ensures |s| <= n <= 2 * |s|
  {
    if s == [] then 0
    else (if s[0] as int > 0xFFFF then 2 else 1) + Utf16Length(s[1..])
  }

  /** On strings within the Basic Multilingual Plane the two lengths agree. */
  lemma {:induction false} Utf16LengthOfBmp(s: string)
    requires forall i :: 0 <= i < |s| ==> s[i] as int <= 0xFFFF
    ensures Utf16Length(s) == |s|
  {
    if s != [] {
      assert forall i :: 0 <= i < |s[1..]| ==> s[1..][i] == s[i + 1];
      Utf16LengthOfBmp(s[1..]);
    }
  }

  /**
   * `validatePassword`: the passwords must match, then be at least 8 code
   * units long; the result is the bcrypt hash of the password.
   */
  function ValidatePassword(password: string, confirmPassword: string, salt: string): (r: Result<string, ServiceError>)
    requires IsSalt(salt)
    ensures password != confirmPassword ==>
      r == Failure(NewValidationError(Some(MismatchMessage), PasswordFields))
    ensures password == confirmPassword && Utf16Length(password) < MinPasswordLength ==>
      r == Failure(NewValidationError(Some(TooShortMessage), PasswordFields))
    ensures r.Success? <==> password == confirmPassword && Utf16Length(password) >= MinPasswordLength
    ensures r.Success? ==> Matches(password, r.value) && r.value != password
    ensures r.Failure? ==>
      r.error.Status() == 400 && r.error.Validation? && r.error.invalidArgs == PasswordFields
  {
    if password != confirmPassword then
      Failure(NewValidationError(Some(MismatchMessage), PasswordFields))
    else if Utf16Length(password) < MinPasswordLength then
      Failure(NewValidationError(Some(TooShortMessage), PasswordFields))
    else
      Success(Hash(password, salt))
  }

  /** Eight characters are enough, seven are not, whatever the error message suggests. */
  lemma MinimumLengthIsInclusive(password: string, salt: string)
    requires IsSalt(salt)
    requires forall i :: 0 <= i < |password| ==> password[i] as int <= 0xFFFF
    ensures |password| == 8 ==> ValidatePassword(password, password, salt).Success?
    ensures |password| == 7 ==> ValidatePassword(password, password, salt).Failure?
  {
    Utf16LengthOfBmp(password);
  }

  /** A mismatch is reported even when the password is also too short: matching is checked first. */
  lemma MismatchCheckedFirst(password: string, confirmPassword: string, salt: string)
    requires IsSalt(salt) && password != confirmPassword
    ensures ValidatePassword(password, confirmPassword, salt).error.message == MismatchMessage
  {
  }

  /** `throwDefaultAuthenticationError`: the one error for every failed login. */
  function DefaultAuthenticationError(): (e: ServiceError)
    ensures e.Validation? && e.Status() == 400
    ensures e.message == AuthenticationMessage && e.invalidArgs == CredentialFields
  {
    NewValidationError(Some(AuthenticationMessage), CredentialFields)
  }

  /** `signToken`: the account claims with the configured key and registered claims. */
  function SignToken(config: AuthConfig, user: User): (t: AccessToken)
    ensures t.account.id == user.id && t.account.username == user.username
    ensures t.account.createdAt == user.createdAt && t.account.updatedAt == user.updatedAt
    ensures t.key == config.jwtKey && t.expiresIn == config.jwtExpiration
    ensures t.audience == config.jwtAudience && t.issuer == config.jwtIssuer && t.subject == config.jwtSubject
  {
    AccessToken(Account(user.id, user.username, user.createdAt, user.updatedAt),
                config.jwtKey, config.jwtExpiration, config.jwtAudience, config.jwtIssuer, config.jwtSubject)
  }

  /** The password hash does not flow into the access token. */
  lemma SignTokenIgnoresPassword(config: AuthConfig, user: User, otherHash: string)
    ensures SignToken(config, user.(password := otherHash)) == SignToken(config, user)
  {
  }

  /**
   * The `catch` of `register`: service errors pass through unchanged, a
   * duplicate key on `username` becomes "username taken", anything else the
   * default ServiceError.
   */
  function RegisterCatch(f: Fault): (e: ServiceError)
    ensures f.Raised? ==> e == f.error
    ensures f.DriverError? && f.code == DuplicateKeyCode && "username" in f.keyFields ==>
      e == NewValidationError(Some(UsernameTakenMessage), ["username"])
    ensures !f.Raised? && !(f.DriverError? && f.code == DuplicateKeyCode && "username" in f.keyFields) ==>
      e == NewServiceError(None, None)
  {
    match f
    case Raised(err) => err
    case DriverError(code, keys) =>
      if code == DuplicateKeyCode && "username" in keys then
        NewValidationError(Some(UsernameTakenMessage), ["username"])
      else NewServiceError(None, None)
    case RuntimeError => NewServiceError(None, None)
  }

  /** The `catch` of `login`: service errors pass through, anything else becomes the default ServiceError. */
  function LoginCatch(f: Fault): (e: ServiceError)
    ensures f.Raised? ==> e == f.error
    ensures !f.Raised? ==> e == NewServiceError(None, None) && e.Status() == 500
  {
    if f.Raised? then f.error else NewServiceError(None, None)
  }

  /** A snapshot of the three collections and of the next fresh id. */
  datatype Db = Db(users: seq<User>, devices: seq<Device>, sessions: seq<Session>, nextId: ObjectId)
  {
    /**
     * The store invariant: usernames are unique, every stored user has its
     * required fields, ids are unique within each collection and below the
     * next fresh one, and every session is schema-valid and names a stored
     * user and a stored device.
     */
    ghost predicate Valid() {
      && UniqueUsernames(users)
      && DistinctUserIds(users) && DistinctDeviceIds(devices) && DistinctSessionIds(sessions)
      && (forall i :: 0 <= i < |users| ==> users[i].id < nextId && RequiredFieldsPresent(users[i]))
      && (forall i :: 0 <= i < |devices| ==> devices[i].id < nextId)
      && (forall i :: 0 <= i < |sessions| ==>
            && sessions[i].id < nextId
            && DocumentValid(sessions[i])
            && HasUser(users, sessions[i].user)
            && HasDevice(devices, sessions[i].device))
    }
  }

  /** The `_id` index: no two users share an id; likewise for devices and sessions below. */
  predicate DistinctUserIds(users: seq<User>) {
    forall i, j :: 0 <= i < j < |users| ==> users[i].id != users[j].id
  }

  predicate DistinctDeviceIds(devices: seq<Device>) {
    forall i, j :: 0 <= i < j < |devices| ==> devices[i].id != devices[j].id
  }

  predicate DistinctSessionIds(sessions: seq<Session>) {
    forall i, j :: 0 <= i < j < |sessions| ==> sessions[i].id != sessions[j].id
  }

  predicate HasUser(users: seq<User>, id: ObjectId) {
    exists u <- users :: u.id == id
  }

  predicate HasDevice(devices: seq<Device>, id: ObjectId) {
    exists d <- devices :: d.id == id
  }

  /** The device `getCredentials` works with: the presented one, or a new one when none is presented. */
  function ResolveDevice(devices: seq<Device>, id: Option<ObjectId>, freshId: ObjectId, now: Time): Option<Device> {
    if id.None? then Some(NewDevice(freshId, now)) else FindDevice(devices, id.value)
  }

  /**
   * `getCredentials`: find or create the device, build a session with one
   * agent and one host entry, save the device and then the session, and
   * return the device id, an access token and the session's refresh token.
   * `token` is the string `uid(256)` produces for the new session.
   */
  function Issue(db: Db, config: AuthConfig, user: User, client: ClientInfo, now: Time, token: string)
    : (out: (Db, Result<Credentials, Fault>))
    requires IsUid(token, TokenLength)
    ensures out.0.users == db.users
    ensures client.id.None? ==> out.0.devices == db.devices + [NewDevice(db.nextId, now)]
    ensures client.id.Some? ==> out.0.devices == db.devices
    ensures out.1.Success? <==>
      (client.id.None? || FindDevice(db.devices, client.id.value).Some?) && client.agent != "" && client.host != ""
    ensures out.1.Failure? ==> out.1.error == RuntimeError && out.0.sessions == db.sessions
    ensures out.1.Success? ==>
      && out.1.value.clientId == (if client.id.Some? then client.id.value else db.nextId)
      && out.1.value.accessToken == SignToken(config, user)
      && |out.0.sessions| == |db.sessions| + 1
      && out.0.sessions[..|db.sessions|] == db.sessions
      && out.0.sessions[|db.sessions|].user == user.id
      && out.0.sessions[|db.sessions|].device == out.1.value.clientId
      && |out.0.sessions[|db.sessions|].agents| == |out.0.sessions[|db.sessions|].hosts| == 1
      && out.0.sessions[|db.sessions|].agents[0].raw == client.agent
      && out.0.sessions[|db.sessions|].hosts[0].address == client.host
      && out.0.sessions[|db.sessions|].token == out.1.value.refreshToken == token
      && out.0.sessions[|db.sessions|].revokedAt.None?
      && out.0.sessions[|db.sessions|].expiresAt == DefaultExpiry(now)
  {
    var device := ResolveDevice(db.devices, client.id, db.nextId, now);
    if device.None? then
      (db, Failure(RuntimeError))
    else
      var sessionId := if client.id.None? then db.nextId + 1 else db.nextId;
      var session := NewSession(sessionId, user.id, device.value.id, client.agent, client.host, token, now);
      var devices := if client.id.None? then db.devices + [device.value] else db.devices;
      if !DocumentValid(session) then
        (db.(devices := devices, nextId := sessionId + 1), Failure(RuntimeError))
      else
        (Db(db.users, devices, db.sessions + [session], sessionId + 1),
         Success(Credentials(device.value.id, SignToken(config, user), session.token)))
  }

  /** A device created by issuance has an id no stored device has. */
  lemma CreatedDeviceIsFresh(db: Db, now: Time)
    requires db.Valid()
    ensures FindDevice(db.devices, NewDevice(db.nextId, now).id).None?
  {
  }

  /** Issuance keeps the store invariant. */
  lemma IssuePreservesValid(db: Db, config: AuthConfig, user: User, client: ClientInfo, now: Time, token: string)
    requires db.Valid() && user in db.users && IsUid(token, TokenLength)
    ensures Issue(db, config, user, client, now, token).0.Valid()
  {
  }

  /**
   * A device created by issuance is saved without an owner, so it never
   * appears in any user's device listing: issuance leaves every listing as
   * it was.
   */
  lemma IssuedDeviceNotListed(db: Db, config: AuthConfig, user: User, client: ClientInfo, now: Time,
                              token: string, owner: ObjectId)
    requires IsUid(token, TokenLength)
    ensures GetByUser(Issue(db, config, user, client, now, token).0.devices, owner) == GetByUser(db.devices, owner)
  {
    var after := Issue(db, config, user, client, now, token).0.devices;
    if client.id.None? {
      var d := NewDevice(db.nextId, now);
      OwnerlessDeviceNotListed(db.devices, d, owner);
      var r1, r2 := GetByUser(after, owner), GetByUser(db.devices, owner);
      assert r1.Success? <==> r2.Success? by {
        assert forall e <- after :: e in db.devices || e == d;
      }
      if r1.Success? {
        assert |r1.value| == |r2.value|;
        forall i | 0 <= i < |r1.value| ensures r1.value[i] == r2.value[i] {
          assert Some(r1.value[i]) == Some(r2.value[i]);
        }
        assert r1.value == r2.value;
      }
    }
  }

  /**
   * `authenticate`: compare the password with the stored hash and issue
   * credentials, or throw the default authentication error.
   */
  function AuthenticateOutcome(db: Db, config: AuthConfig, user: User, password: string, client: ClientInfo,
                               now: Time, token: string): (out: (Db, Result<Credentials, Fault>))
    requires IsUid(token, TokenLength)
    ensures !Matches(password, user.password) ==> out == (db, Failure(Raised(DefaultAuthenticationError())))
    ensures Matches(password, user.password) ==> out.1.Failure? ==> out.1.error == RuntimeError
    ensures Matches(password, user.password) ==> out == Issue(db, config, user, client, now, token)
    ensures out.1.Success? <==>
      && Matches(password, user.password)
      && (client.id.None? || FindDevice(db.devices, client.id.value).Some?)
      && client.agent != "" && client.host != ""
    ensures out.0.users == db.users
    ensures out.1.Failure? && out.1.error.Raised? ==>
      out.1.error.error == DefaultAuthenticationError() && out.0 == db
  {
    if Matches(password, user.password) then Issue(db, config, user, client, now, token)
    else (db, Failure(Raised(DefaultAuthenticationError())))
  }

  /**
   * `register`: validate and hash the password, save the user (which fails
   * on an empty username or a taken one), then issue credentials; every
   * failure goes through the `catch` of `register`.
   */
  function RegisterOutcome(db: Db, config: AuthConfig, data: RegistrationInput, client: ClientInfo,
                           now: Time, salt: string, token: string): (out: (Db, Result<Credentials, ServiceError>))
    requires IsSalt(salt) && IsUid(token, TokenLength)
    // a rejected password stores nothing
    ensures ValidatePassword(data.password, data.confirmPassword, salt).Failure? ==>
      out == (db, Failure(ValidatePassword(data.password, data.confirmPassword, salt).error))
    // a taken username is a validation error on `username`, and stores nothing
    ensures (ValidatePassword(data.password, data.confirmPassword, salt).Success?
             && FindByUsername(db.users, data.username).Some? && data.username != "") ==>
      && out.1 == Failure(NewValidationError(Some(UsernameTakenMessage), ["username"]))
      && out.0.users == db.users && out.0.devices == db.devices && out.0.sessions == db.sessions
    // an empty username fails schema validation: a generic error, nothing stored
    ensures ValidatePassword(data.password, data.confirmPassword, salt).Success? && data.username == "" ==>
      && out.1 == Failure(NewServiceError(None, None))
      && out.0.users == db.users && out.0.devices == db.devices && out.0.sessions == db.sessions
    // otherwise the user is stored with the hash, and stays stored even if issuance then fails
    ensures (ValidatePassword(data.password, data.confirmPassword, salt).Success?
             && FindByUsername(db.users, data.username).None? && data.username != "") ==>
      && out.0.users == db.users + [NewUser(db.nextId, data.username, Hash(data.password, salt), now)]
      && Matches(data.password, out.0.users[|db.users|].password)
      && out.0.users[|db.users|].password != data.password
      && (client.id.None? ==> out.0.devices == db.devices + [NewDevice(db.nextId + 1, now)])
      && (client.id.Some? ==> out.0.devices == db.devices)
      && (out.1.Success? <==>
            && (client.id.None? || FindDevice(db.devices, client.id.value).Some?)
            && client.agent != "" && client.host != "")
      && (out.1.Failure? ==> out.1.error == NewServiceError(None, None) && out.0.sessions == db.sessions)
      && (out.1.Success? ==> out.1.value.accessToken == SignToken(config, out.0.users[|db.users|]))
    ensures out.1.Success? ==>
      && |out.0.sessions| == |db.sessions| + 1
      && out.0.sessions[..|db.sessions|] == db.sessions
      && out.1.value.clientId == (if client.id.Some? then client.id.value else db.nextId + 1)
      && out.0.sessions[|db.sessions|].user == db.nextId
      && out.0.sessions[|db.sessions|].device == out.1.value.clientId
      && |out.0.sessions[|db.sessions|].agents| == |out.0.sessions[|db.sessions|].hosts| == 1
      && out.0.sessions[|db.sessions|].agents[0].raw == client.agent
      && out.0.sessions[|db.sessions|].hosts[0].address == client.host
      && out.0.sessions[|db.sessions|].revokedAt.None?
      && out.0.sessions[|db.sessions|].expiresAt == DefaultExpiry(now)
      && out.0.sessions[|db.sessions|].token == out.1.value.refreshToken == token
  {
    var hashed := ValidatePassword(data.password, data.confirmPassword, salt);
    if hashed.Failure? then
      (db, Failure(RegisterCatch(Raised(hashed.error))))
    else
      var user := NewUser(db.nextId, data.username, hashed.value, now);
      var db1 := db.(nextId := db.nextId + 1);
      if !RequiredFieldsPresent(user) then
        (db1, Failure(RegisterCatch(RuntimeError)))
      else if FindByUsername(db.users, data.username).Some? then
        (db1, Failure(RegisterCatch(DriverError(DuplicateKeyCode, {"username"}))))
      else
        var issued := Issue(db1.(users := db.users + [user]), config, user, client, now, token);
        (issued.0, if issued.1.Success? then Success(issued.1.value) else Failure(RegisterCatch(issued.1.error)))
  }

  /** Storing a user whose username is free, with the next fresh id, keeps the store invariant. */
  lemma InsertUserPreservesValid(db: Db, user: User)
    requires db.Valid() && user.id == db.nextId && RequiredFieldsPresent(user)
    requires FindByUsername(db.users, user.username).None?
    ensures Db(db.users + [user], db.devices, db.sessions, db.nextId + 1).Valid()
  {
  }

  /** Registering keeps the store invariant. */
  lemma RegisterPreservesValid(db: Db, config: AuthConfig, data: RegistrationInput, client: ClientInfo,
                               now: Time, salt: string, token: string)
    requires db.Valid() && IsSalt(salt) && IsUid(token, TokenLength)
    ensures RegisterOutcome(db, config, data, client, now, salt, token).0.Valid()
  {
    var hashed := ValidatePassword(data.password, data.confirmPassword, salt);
    if hashed.Success? && data.username != "" && FindByUsername(db.users, data.username).None? {
      var user := NewUser(db.nextId, data.username, hashed.value, now);
      var db2 := Db(db.users + [user], db.devices, db.sessions, db.nextId + 1);
      InsertUserPreservesValid(db, user);
      assert user in db2.users;
      IssuePreservesValid(db2, config, user, client, now, token);
      assert RegisterOutcome(db, config, data, client, now, salt, token).0
          == Issue(db2, config, user, client, now, token).0;
    } else if hashed.Success? {
      assert RegisterOutcome(db, config, data, client, now, salt, token).0 == db.(nextId := db.nextId + 1);
    }
  }

  /**
   * `login`: look the user up by username and authenticate; an unknown user
   * and a wrong password throw the same default authentication error, and
   * every other failure becomes the default ServiceError.
   */
  function LoginOutcome(db: Db, config: AuthConfig, data: UserInput, client: ClientInfo,
                        now: Time, token: string): (out: (Db, Result<Credentials, ServiceError>))
    requires IsUid(token, TokenLength)
    ensures FindByUsername(db.users, data.username).None? ==>
      out == (db, Failure(DefaultAuthenticationError()))
    ensures (FindByUsername(db.users, data.username).Some?
             && !Matches(data.password, FindByUsername(db.users, data.username).value.password)) ==>
      out == (db, Failure(DefaultAuthenticationError()))
    ensures out.1.Failure? ==>
      out.1.error == DefaultAuthenticationError() || out.1.error == NewServiceError(None, None)
    // a matching password issues credentials exactly when the device resolves and agent and address are
    // present; any other failure is the default ServiceError
    ensures (FindByUsername(db.users, data.username).Some?
             && Matches(data.password, FindByUsername(db.users, data.username).value.password)) ==>
      && (client.id.None? ==> out.0.devices == db.devices + [NewDevice(db.nextId, now)])
      && (client.id.Some? ==> out.0.devices == db.devices)
      && (out.1.Success? <==>
            && (client.id.None? || FindDevice(db.devices, client.id.value).Some?)
            && client.agent != "" && client.host != "")
      && (out.1.Failure? ==> out.1.error == NewServiceError(None, None) && out.0.sessions == db.sessions)
      && (out.1.Success? ==>
            && out.1.value.accessToken == SignToken(config, FindByUsername(db.users, data.username).value)
            && out.1.value.refreshToken == token)
    ensures out.0.users == db.users
    ensures out.1.Success? ==>
      && FindByUsername(db.users, data.username).Some?
      && Matches(data.password, FindByUsername(db.users, data.username).value.password)
      && |out.0.sessions| == |db.sessions| + 1
      && out.0.sessions[..|db.sessions|] == db.sessions
      && out.1.value.clientId == (if client.id.Some? then client.id.value else db.nextId)
      && out.0.sessions[|db.sessions|].user == FindByUsername(db.users, data.username).value.id
      && out.0.sessions[|db.sessions|].device == out.1.value.clientId
      && |out.0.sessions[|db.sessions|].agents| == |out.0.sessions[|db.sessions|].hosts| == 1
      && out.0.sessions[|db.sessions|].agents[0].raw == client.agent
      && out.0.sessions[|db.sessions|].hosts[0].address == client.host
      && out.0.sessions[|db.sessions|].revokedAt.None?
      && out.0.sessions[|db.sessions|].expiresAt == DefaultExpiry(now)
      && out.0.sessions[|db.sessions|].token == out.1.value.refreshToken
  {
    var found := FindByUsername(db.users, data.username);
    var attempt :=
      if found.None? then (db, Failure(Raised(DefaultAuthenticationError())))
      else AuthenticateOutcome(db, config, found.value, data.password, client, now, token);
    (attempt.0, if attempt.1.Success? then Success(attempt.1.value) else Failure(LoginCatch(attempt.1.error)))
  }

  /** Logging in keeps the store invariant. */
  lemma LoginPreservesValid(db: Db, config: AuthConfig, data: UserInput, client: ClientInfo, now: Time, token: string)
    requires db.Valid() && IsUid(token, TokenLength)
    ensures LoginOutcome(db, config, data, client, now, token).0.Valid()
  {
    var found := FindByUsername(db.users, data.username);
    if found.Some? && Matches(data.password, found.value.password) {
      IssuePreservesValid(db, config, found.value, client, now, token);
      assert LoginOutcome(db, config, data, client, now, token).0 == Issue(db, config, found.value, client, now, token).0;
    }
  }

  /**
   * A caller cannot tell an unknown username from a wrong password: both
   * attempts end with the same error and leave the store as it was.
   */
  lemma LoginFailuresIndistinguishable(db: Db, config: AuthConfig, unknown: UserInput, wrong: UserInput,
                                       client1: ClientInfo, client2: ClientInfo, now: Time, token: string)
    requires IsUid(token, TokenLength)
    requires FindByUsername(db.users, unknown.username).None?
    requires FindByUsername(db.users, wrong.username).Some?
    requires !Matches(wrong.password, FindByUsername(db.users, wrong.username).value.password)
    ensures LoginOutcome(db, config, unknown, client1, now, token)
         == LoginOutcome(db, config, wrong, client2, now, token)
         == (db, Failure(DefaultAuthenticationError()))
  {
  }

  /**
   * After a successful registration the same username cannot be registered
   * again: the second attempt reports "username taken" and the users stay as
   * they were.
   */
  lemma SecondRegistrationIsTaken(db: Db, config: AuthConfig, first: RegistrationInput, second: RegistrationInput,
                                  client1: ClientInfo, client2: ClientInfo, now: Time, later: Time,
                                  salt1: string, salt2: string, token1: string, token2: string)
    requires IsSalt(salt1) && IsSalt(salt2) && IsUid(token1, TokenLength) && IsUid(token2, TokenLength)
    requires RegisterOutcome(db, config, first, client1, now, salt1, token1).1.Success?
    requires second.username == first.username
    requires ValidatePassword(second.password, second.confirmPassword, salt2).Success?
    ensures var db1 := RegisterOutcome(db, config, first, client1, now, salt1, token1).0;
      && RegisterOutcome(db1, config, second, client2, later, salt2, token2).1
         == Failure(NewValidationError(Some(UsernameTakenMessage), ["username"]))
      && RegisterOutcome(db1, config, second, client2, later, salt2, token2).0.users == db1.users
  {
  }

  /**
   * The service object: the configuration and the three collections it
   * reads and writes, with the generator of fresh document ids.
   */
  class AuthService {
    const config: AuthConfig
    var users: seq<User>
    var devices: seq<Device>
    var sessions: seq<Session>
    var nextId: ObjectId

    /** The collections as one snapshot. */
    function State(): Db
      reads this
    {
      Db(users, devices, sessions, nextId)
    }

    ghost predicate Valid()
      reads this
    {
      State().Valid()
    }

    /** A service bound to the given configuration and to collections that already hold `db`. */
    constructor (config: AuthConfig, db: Db)
      requires db.Valid()
      ensures Valid() && this.config == config && State() == db
    {
      this.config := config;
      users, devices, sessions, nextId := db.users, db.devices, db.sessions, db.nextId;
    }

    /** `getCredentials` for a stored user; `token` is what `uid(256)` returns. */
    method GetCredentials(user: User, client: ClientInfo, now: Time, token: string)
      returns (r: Result<Credentials, Fault>)
      requires Valid() && user in users && IsUid(token, TokenLength)
      modifies this
      ensures Valid()
      ensures (State(), r) == Issue(old(State()), config, user, client, now, token)
    {
      ghost var before := State();
      IssuePreservesValid(before, config, user, client, now, token);
      var device: Device;
      if client.id.None? {
        device := NewDevice(nextId, now);
        nextId := nextId + 1;
      } else {
        var found := FindDevice(devices, client.id.value);
        if found.None? {
          // reading `device.id` on the null that findById returned
          return Failure(RuntimeError);
        }
        device := found.value;
      }
      var session := NewSession(nextId, user.id, device.id, client.agent, client.host, token, now);
      nextId := nextId + 1;
      if client.id.None? {
        devices := devices + [device];
      }
      if !DocumentValid(session) {
        // session.save() rejects the document; the device is already saved
        return Failure(RuntimeError);
      }
      sessions := sessions + [session];
      r := Success(Credentials(device.id, SignToken(config, user), session.token));
    }

    /** `authenticate`: compare the password with the stored hash, then issue credentials. */
    method Authenticate(user: User, password: string, client: ClientInfo, now: Time, token: string)
      returns (r: Result<Credentials, Fault>)
      requires Valid() && user in users && IsUid(token, TokenLength)
      modifies this
      ensures Valid()
      ensures (State(), r) == AuthenticateOutcome(old(State()), config, user, password, client, now, token)
    {
      if Matches(password, user.password) {
        r := GetCredentials(user, client, now, token);
      } else {
        r := Failure(Raised(DefaultAuthenticationError()));
      }
    }

    /** `register`; `salt` is bcrypt's random salt and `token` what `uid(256)` returns. */
    method Register(data: RegistrationInput, client: ClientInfo, now: Time, salt: string, token: string)
      returns (r: Result<Credentials, ServiceError>)
      requires Valid() && IsSalt(salt) && IsUid(token, TokenLength)
      modifies this
      ensures Valid()
      ensures (State(), r) == RegisterOutcome(old(State()), config, data, client, now, salt, token)
    {
      ghost var before := State();
      RegisterPreservesValid(before, config, data, client, now, salt, token);
      var hashed := ValidatePassword(data.password, data.confirmPassword, salt);
      if hashed.Failure? {
        return Failure(RegisterCatch(Raised(hashed.error)));
      }
      var user := NewUser(nextId, data.username, hashed.value, now);
      nextId := nextId + 1;
      if !RequiredFieldsPresent(user) {
        return Failure(RegisterCatch(RuntimeError));
      }
      if FindByUsername(users, data.username).Some? {
        return Failure(RegisterCatch(DriverError(DuplicateKeyCode, {"username"})));
      }
      InsertKeepsUnique(users, user);
      users := users + [user];
      assert Valid();
      var issued := GetCredentials(user, client, now, token);
      if issued.Success? {
        r := Success(issued.value);
      } else {
        r := Failure(RegisterCatch(issued.error));
      }
    }

    /** `login`; `token` is what `uid(256)` returns. */
    method Login(data: UserInput, client: ClientInfo, now: Time, token: string)
      returns (r: Result<Credentials, ServiceError>)
      requires Valid() && IsUid(token, TokenLength)
      modifies this
      ensures Valid()
      ensures (State(), r) == LoginOutcome(old(State()), config, data, client, now, token)
    {
      var found := FindByUsername(users, data.username);
      var attempt: Result<Credentials, Fault>;
      if found.Some? {
        attempt := Authenticate(found.value, data.password, client, now, token);
      } else {
        attempt := Failure(Raised(DefaultAuthenticationError()));
      }
      if attempt.Success? {
        r := Success(attempt.value);
      } else {
        r := Failure(LoginCatch(attempt.error));
      }
    }
  }
}
