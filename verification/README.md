# Device-aware authentication service, modelled in Dafny

This project models the credential-issuing core of a Node.js authentication
backend. The core is the `AuthService` class. It registers users and logs them in. Each success issues a
set of credentials: the id of the client device, a signed access token and a
random refresh token. The refresh token belongs to a new session record stored in the `auth_sessions`
collection.
The model also covers what that service depends on:

- the service error classes (`ServiceError`, `ValidationError`) and their JSON bodies;
- the User and Session records with their schema defaults and validation;
- the device projection and device listing of `DeviceService`.

Layout, one module per source file:

| file | module | models |
|---|---|---|
| base.dfy | `Wrappers`, `Documents` | `Option`/`Result`; document ids (fresh naturals) and timestamps (milliseconds) |
| errors.dfy | `Errors` | `src/services/utils/errors.ts` |
| primitives.dfy | `Primitives` | stand-ins for bcrypt `hash`/`compare` and rand-token `uid` |
| users.dfy | `Users` | `src/models/user.ts` and the `findOne({username})` lookup |
| sessions.dfy | `Sessions` | `src/models/session.ts` |
| devices.dfy | `Devices` | `src/services/devices.ts`, plus `new Device()` from `src/models/device.ts` |
| auth.dfy | `Auth` | `src/services/auth.ts` |

`auth.ts` is modelled in two layers:

- Pure functions (`Issue`, `AuthenticateOutcome`, `RegisterOutcome`, `LoginOutcome`) map a snapshot of the three collections (`Db`) and a request to the new snapshot and the outcome. The lemmas about them state the service's rules.
- The class `AuthService` holds the collections as `seq` fields and a fresh-id counter. Its methods perform the source's steps in order: save the user, then the device, then the session. Each method is proved to agree with its function and to keep the store invariant `Db.Valid()`. That invariant says usernames are unique, ids are unique within each collection and below the next fresh id, and every session is schema-valid and names a stored user and device.

Randomness and time are parameters:

- bcrypt's salt (`salt`);
- the string `uid(256)` produces (`token`);
- the clock (`now`).

Behaviour of the code worth noting:

- Passwords of exactly 8 characters are accepted, although the message says "longer than 8". Length is counted in UTF-16 code units, as JavaScript's `length` does.
- The access token carries only the account claims, not the device id.
- A device created during `getCredentials` is `new Device()` with no fields. It is saved without an owner, so it never appears in `getByUser` (`IssuedDeviceNotListed`).
- `getCredentials` always appends a new session. It never dedups address or agent history, and nothing in the modelled code revokes or refreshes a token.
- Mongoose's `required` rejects the empty string. An empty username fails the user save with a generic 500 error. An empty user-agent or address fails the session save after a new device has already been saved; the device stays stored.
- An unknown client id makes `findById` return null. Reading `device.id` on it throws, so register and login fail with a generic 500 error. In register, the user saved before that point stays stored.

## Model

| member | source | states |
|---|---|---|
| Errors.ServiceError.ToJSON | src/services/utils/errors.ts:19-39 | the body has `message`, plus `invalidArgs` for a ValidationError; never `status` or `name` |
| Errors.NewServiceError | src/services/utils/errors.ts:9-17 | omitted arguments default to the standard message and 500; the name is "ServiceError"; the body has only `message` |
| Errors.NewValidationError | src/services/utils/errors.ts:27-32 | status is 400 whatever is passed; message defaults to "Invalid arguments."; name "ValidationError"; body is exactly `message` and `invalidArgs` |
| Errors.DefaultServiceErrorBody | src/services/utils/errors.ts:9-21 | the default ServiceError has status 500 but shows only the default message |
| Errors.ValidationStatusIsFixed | src/services/utils/errors.ts:27-28 | any two ValidationErrors have the same status, 400 |
| Primitives.Hash | src/services/auth.ts:111 | the hash matches its password and differs from it |
| Primitives.MatchesExactlyHashedPassword | src/services/auth.ts:126 | `compare` accepts a hash for exactly the password it was made from |
| Users.NewUser | src/models/user.ts:8-13 | a new user carries the given id, username and hash, with both timestamps set to the creation time |
| Users.FindByUsername | src/services/auth.ts:194 | the result is a stored user with that username; it is absent iff no stored user has that username |
| Users.InsertKeepsUnique | src/models/user.ts:26-31 | appending a user keeps usernames unique iff its username is not yet stored |
| Users.FindByUsernameFindsStored | src/models/user.ts:26-31 | under unique usernames, looking up a stored user's name returns that user |
| Sessions.ParseReason | src/models/session.ts:98-101 | only "logout" and "expired" are accepted as a revocation reason, each read as the reason of that name |
| Sessions.ReasonRoundTrip | src/models/session.ts:30 | each reason reads back as itself from its stored name |
| Sessions.DefaultExpiry | src/models/session.ts:89-96 | the default expiry is after the creation time |
| Sessions.NewSession | src/models/session.ts:65-104 | a new session has the given user and device, one agent and one host, the given `uid(256)` string as its token, both timestamps at the creation time, no revocation and expiry 30 days after creation; it passes validation iff agent and address are non-empty |
| Devices.NewDevice | src/models/device.ts:17-20 | a new device has no owner and empty agent, host and token lists |
| Devices.FindDevice | src/services/auth.ts:140 | the result is a stored device with that id; it is absent iff none has it |
| Devices.TransformDevice | src/services/devices.ts:22-34 | the projection exists iff there is a host; it copies id and timestamps, takes the last agent (absent iff none) and the last host's address, and `loggedIn` holds iff the last token is unrevoked |
| Devices.LoggedInReadsLastTokenOnly | src/services/devices.ts:27-30 | tokens before the last one do not affect `loggedIn` |
| Devices.OwnedBy | src/services/devices.ts:42-44 | the selected devices are exactly the stored devices owned by the user, no more of them than are stored |
| Devices.OwnedByOne | src/services/devices.ts:42-44 | a single stored device is selected iff the user owns it |
| Devices.OwnedByAppend | src/services/devices.ts:42-44 | the selection keeps store order: selecting from a concatenation is the concatenation of the selections, so with `OwnedByOne` it is one entry per owned device, in store order |
| Devices.GetByUser | src/services/devices.ts:40-51 | succeeds iff every owned device has a host; then the i-th entry is the projection of the i-th device `OwnedBy` selects, so one entry per owned device in store order; otherwise the default ServiceError |
| Devices.OwnerlessDeviceNotListed | src/services/devices.ts:42-44 | appending a device without an owner changes no user's selection, as a corollary of `OwnedByAppend` and `OwnedByOne` |
| Auth.Utf16Length | src/services/auth.ts:105 | a string's JavaScript length lies between its character count and twice that |
| Auth.Utf16LengthOfBmp | src/services/auth.ts:105 | for characters up to U+FFFF the JavaScript length equals the character count |
| Auth.ValidatePassword | src/services/auth.ts:99-112 | mismatch fails first, then a JavaScript length under 8, both as 400 ValidationErrors naming `password` and `confirmPassword`; it succeeds iff both checks pass, with a hash that matches the password and is not it |
| Auth.MinimumLengthIsInclusive | src/services/auth.ts:105-109 | an 8-character password is accepted and a 7-character one refused |
| Auth.MismatchCheckedFirst | src/services/auth.ts:100-109 | unequal passwords always report the mismatch message, even when also too short |
| Auth.DefaultAuthenticationError | src/services/auth.ts:57-62 | the login error is a 400 ValidationError with the fixed message and fields `username`, `password` |
| Auth.SignToken | src/services/auth.ts:68-91 | the token carries the account's id, username and timestamps with the configured key, expiry, audience, issuer and subject |
| Auth.SignTokenIgnoresPassword | src/services/auth.ts:71-78 | the token does not depend on the password hash |
| Auth.RegisterCatch | src/services/auth.ts:177-182 | service errors pass through unchanged; a duplicate key on `username` becomes "This username is taken." on `username`; anything else the default 500 error |
| Auth.LoginCatch | src/services/auth.ts:198-201 | service errors pass through unchanged; anything else becomes the default 500 error |
| Auth.Issue | src/services/auth.ts:137-158 | users unchanged; a new device is added iff no client id is given; success iff the device resolves and agent and address are non-empty; on success exactly one session is appended, for this user and device, with the one agent and host, unrevoked, expiring 30 days after `now`, whose token is the refresh token and the `uid(256)` string; on failure no session is added |
| Auth.CreatedDeviceIsFresh | src/services/auth.ts:141 | a created device's id is not the id of any stored device |
| Auth.IssuePreservesValid | src/services/auth.ts:143-151 | issuance keeps the store invariant |
| Auth.IssuedDeviceNotListed | src/services/auth.ts:141 | issuance leaves every user's device listing unchanged |
| Auth.AuthenticateOutcome | src/services/auth.ts:121-129 | a wrong password changes nothing and throws the default authentication error, the only service error it throws; a matching password issues credentials as `Issue` does, so it succeeds iff the password matches, the device resolves and agent and address are non-empty; users are never changed |
| Auth.RegisterOutcome | src/services/auth.ts:165-183 | a rejected password stores nothing; a taken username gives the "taken" error and stores nothing; an empty username gives the default error; otherwise the user is stored with a hash that matches the password and is not the plaintext, a device is added iff no client id is given, and the call succeeds iff the device resolves and agent and address are non-empty, otherwise it fails with the default error and the user stays stored; success returns the presented client id or else the new device's id, an access token for the new user, and adds exactly one session for the new user and that device, with the client's agent and address, unrevoked, expiring 30 days after `now`, whose token is the `uid(256)` string |
| Auth.InsertUserPreservesValid | src/services/auth.ts:169-174 | saving a user with a free username and a fresh id keeps the store invariant |
| Auth.RegisterPreservesValid | src/services/auth.ts:165-183 | registration keeps the store invariant |
| Auth.LoginOutcome | src/services/auth.ts:190-202 | an unknown username and a wrong password both give the default authentication error and change nothing; with a matching password, a device is added iff no client id is given, and the call succeeds iff the device resolves and agent and address are non-empty, otherwise it fails with the default 500 error; success requires a matching password, returns the presented client id or else the new device's id, that user's access token and the `uid(256)` string as refresh token, and adds exactly one session for that user and that device, with the client's agent and address, unrevoked, expiring 30 days after `now` |
| Auth.LoginPreservesValid | src/services/auth.ts:190-202 | login keeps the store invariant |
| Auth.LoginFailuresIndistinguishable | src/services/auth.ts:194-197 | an unknown username and a wrong password produce identical outcomes |
| Auth.SecondRegistrationIsTaken | src/services/auth.ts:174-180 | after a successful registration, registering the same username again fails with the "taken" error and leaves the users unchanged |
| Auth.AuthService.constructor | src/services/auth.ts:46-52 | the service is bound to its configuration and to the existing collections |
| Auth.AuthService.GetCredentials | src/services/auth.ts:137-158 | the steps of `getCredentials` on the stores, agreeing with `Issue` and keeping the invariant |
| Auth.AuthService.Authenticate | src/services/auth.ts:121-129 | agrees with `AuthenticateOutcome` and keeps the invariant |
| Auth.AuthService.Register | src/services/auth.ts:165-183 | saves the user, then issues credentials; agrees with `RegisterOutcome` and keeps the invariant |
| Auth.AuthService.Login | src/services/auth.ts:190-202 | agrees with `LoginOutcome` and keeps the invariant |

## Left out

- Token refresh, logout and revocation, and tail-dedup of address and agent history: no code in the modelled files implements them.
- The HTTP layer, configuration parsing and bootstrap (`src/middleware.ts`, `src/controllers*.ts`, `src/routes.ts`, `src/app.ts`, `src/server.ts`, `src/settings.ts`) are not part of this model. The same goes for the thin `UserService` in `src/services/users.ts` and for the unused refresh-token schema in `src/models/token.ts`.
- bcrypt is a transparent stand-in. Its one-wayness is not modelled. Neither is its truncation of passwords after 72 bytes.
- JWT signing is modelled as the record handed to the signer. The encoded string and a signing failure are not modelled.
- Storage failures other than the duplicate-username case are not modelled. This covers unavailability and failed saves of valid documents, which the source would turn into the default 500 error.
- `findById` with a malformed client id throws a cast error instead of returning null. The model merges this with the unknown-id case; both end in the default 500 error.
- The client id is optional. An empty-string id, which JavaScript treats as absent, is folded into the absent case.
- Devices.GetByUser: takes the user id as an already-valid id. The source throws on a malformed id string, which ends in the same default ServiceError.
- `src/models/device.ts` declares no fields. The device record is given the fields `devices.ts` reads (`agents`, `hosts`, `tokens`) and an optional owner. Mongoose's handling of undeclared fields is not modelled.
- Inputs are strings. Missing (`undefined`) request fields are not modelled, apart from a missing agent or address, which is treated as "".
- `setDate(getDate() + 30)` is modelled as exactly 30 days of milliseconds. Local-time daylight-saving shifts are not modelled.
- Each service call runs as one sequential step. Interleaving of concurrent requests is not modelled.
- Logging (`console.log`) is not modelled.
