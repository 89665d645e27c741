/**
 * The response shapes, error codes and rate-limit constants that the backend
 * and the web client share (packages/shared/src/types/auth.ts).
 */
module SharedTypes {

  import opened Wrappers

  /** Identity of an account row, assigned by the store at creation. */
  type Id = nat

  /** An opaque bearer token returned by the signer. */
  type Token = string

  /** AuthErrorCode. */
  datatype ErrorCode =
    | INVALID_CREDENTIALS
    | USER_LOCKED
    | USERNAME_EXISTS
    | VALIDATION_ERROR
    | INTERNAL_ERROR

  /**
   * The human-readable messages the service returns, one constructor per
   * distinct text. Only their identity matters to the model; the lock-check
   * message carries the number of minutes it prints.
   */
  datatype Message =
    | UserCreated               // "User created successfully"
    | UsernameAlreadyExists     // "Username already exists"
    | LoginSuccessful           // "Login successful"
    | InvalidUsernameOrPassword // "Invalid username or password"
    | LockedTryAgainIn(minutes: int)  // "Account is locked. Try again in N minute(s)."
    | LockedAfterTooManyAttempts      // "Account locked due to too many failed attempts. ..."

  /** The `user` part of a success response: never the password hash. */
  datatype UserInfo = UserInfo(id: Id, username: string)

  /** AuthResponse = AuthSuccessResponse | AuthErrorResponse. */
  datatype AuthResponse =
    | Success(message: Message, token: Option<Token>, user: Option<UserInfo>)
    | Failure(message: Message, code: ErrorCode)

  /** RATE_LIMIT.MAX_ATTEMPTS */
  const MaxAttempts: nat := 3

  /** RATE_LIMIT.WINDOW_MINUTES */
  const WindowMinutes: nat := 5

  /** Milliseconds in a minute, the unit of the clock. */
  const MsPerMinute: nat := 60 * 1000

  /** The rolling window and the lock duration, in milliseconds. */
  const WindowMs: nat := WindowMinutes * 60 * 1000
}
