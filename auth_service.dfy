/**
 * AuthService (apps/backend/src/auth/auth.service.ts): signup and signin over
 * an account store that it updates in place. The store is the `users` table,
 * keyed by id, with its unique index on `username`; the password hash,
 * password check and token signer are collaborators handed to the
 * constructor, and the clock is the `now` argument of Signin.
 */
module Auth {

  import opened Wrappers
  import opened SharedTypes
  import opened RateLimit

  /** The stored form of a password, as produced by the hash collaborator. */
  datatype Digest = Digest(text: string)

  /** The JWT payload: subject id and username. */
  datatype Claims = Claims(sub: Id, username: string)

  /** One row of the users table. */
  datatype User = User(id: Id, username: string, password: Digest, throttle: Throttle)

  class AuthService {

    /** bcrypt.hash */
    const hash: string -> Digest
    /** bcrypt.compare */
    const verify: (string, Digest) -> bool
    /** jwtService.sign */
    const sign: Claims -> Token

    /** The users table, keyed by id. */
    var users: map<Id, User>
    /** The unique index on username. */
    var idOfName: map<string, Id>
    /** The next id the store assigns. */
    var nextId: Id

    /** A password checks against the hash of a password exactly when the two are equal. */
    ghost predicate CryptoSound() {
      forall p, q :: verify(p, hash(q)) <==> p == q
    }

    /**
     * The table and its index agree, every row is stored under its own id,
     * ids below `nextId` are the only ones in use, and every row's throttle
     * columns are consistent.
     */
    ghost predicate Wellformed()
      reads this
    {
      && CryptoSound()
      && (forall id :: id in users ==>
            && users[id].id == id
            && id < nextId
            && users[id].username in idOfName
            && idOfName[users[id].username] == id
            && Consistent(users[id].throttle))
      && (forall name :: name in idOfName ==> idOfName[name] in users && users[idOfName[name]].username == name)
    }

    /** Wellformed, and no account's counter has passed the limit. */
    ghost predicate Valid()
      reads this
    {
      && Wellformed()
      && forall id :: id in users ==> users[id].throttle.failedAttempts <= MaxAttempts
    }

    constructor (hash: string -> Digest, verify: (string, Digest) -> bool, sign: Claims -> Token)
      requires forall p, q :: verify(p, hash(q)) <==> p == q
      ensures Valid()
      ensures this.hash == hash && this.verify == verify && this.sign == sign
      ensures users == map[] && idOfName == map[]
    {
      this.hash := hash;
      this.verify := verify;
      this.sign := sign;
      users := map[];
      idOfName := map[];
      nextId := 0;
    }

    /** user.findUnique({ where: { username } }) */
    function FindByUsername(username: string): (u: Option<User>)
      reads this
      requires Wellformed()
      ensures u.Some? <==> exists id :: id in users && users[id].username == username
      ensures u.Some? ==> u.value.id in users && users[u.value.id] == u.value && u.value.username == username
    {
      if username in idOfName then Some(users[idOfName[username]]) else None
    }

    /** user.findUnique({ where: { id } }) */
    function FindById(id: Id): (u: Option<User>)
      reads this
    {
      if id in users then Some(users[id]) else None
    }

    /** signup: refuse a taken username, otherwise store a new account with the hashed password. */
    method Signup(username: string, password: string) returns (r: AuthResponse)
      requires Valid()
      modifies this
      ensures Valid()
      ensures old(FindByUsername(username)).Some? ==>
        && r == Failure(UsernameAlreadyExists, USERNAME_EXISTS)
        && users == old(users) && idOfName == old(idOfName) && nextId == old(nextId)
      ensures old(FindByUsername(username)).None? ==>
        var id := old(nextId);
        && id !in old(users)
        && users == old(users)[id := User(id, username, hash(password), Cleared)]
        && idOfName == old(idOfName)[username := id]
        && r == Success(UserCreated, None, Some(UserInfo(id, username)))
        && (forall p :: verify(p, users[id].password) <==> p == password)
    {
      var existingUser := FindByUsername(username);
      if existingUser.Some? {
        return Failure(UsernameAlreadyExists, USERNAME_EXISTS);
      }
      var hashedPassword := hash(password);
      var user := User(nextId, username, hashedPassword, Cleared);
      users := users[user.id := user];
      idOfName := idOfName[username := user.id];
      nextId := nextId + 1;
      return Success(UserCreated, None, Some(UserInfo(user.id, user.username)));
    }

    /**
     * signin: unknown name, running lock, wrong password (recorded, possibly
     * locking) or success (counters cleared, token issued).
     */
    method Signin(username: string, password: string, now: Time) returns (r: AuthResponse)
      requires Valid()
      modifies this
      ensures Valid()
      ensures idOfName == old(idOfName) && nextId == old(nextId)
      ensures old(FindByUsername(username)).None? ==>
        r == Failure(InvalidUsernameOrPassword, INVALID_CREDENTIALS) && users == old(users)
      ensures old(FindByUsername(username)).Some? ==>
        var user := old(FindByUsername(username)).value;
        var status := CheckLockStatus(user.throttle.lockedUntil, now);
        if status.Locked? then
          r == Failure(LockedTryAgainIn(status.remainingMinutes), USER_LOCKED) && users == old(users)
        else if verify(password, user.password) then
          && users == old(users)[user.id := user.(throttle := Cleared)]
          && r == Success(LoginSuccessful, Some(sign(Claims(user.id, user.username))), Some(UserInfo(user.id, user.username)))
        else
          var t := RecordedFailure(user.throttle, now);
          && users == old(users)[user.id := user.(throttle := t)]
          && r == if t.failedAttempts >= MaxAttempts then Failure(LockedAfterTooManyAttempts, USER_LOCKED)
                  else Failure(InvalidUsernameOrPassword, INVALID_CREDENTIALS)
      ensures r.Failure? && r.code == INVALID_CREDENTIALS ==> r.message == InvalidUsernameOrPassword
      ensures users.Keys == old(users).Keys
      ensures forall id :: id in users && users[id].username != username ==> users[id] == old(users)[id]
    {
      var found := FindByUsername(username);
      if found.None? {
        return Failure(InvalidUsernameOrPassword, INVALID_CREDENTIALS);
      }
      var user := found.value;

      var lockStatus := CheckLockStatus(user.throttle.lockedUntil, now);
      if lockStatus.Locked? {
        return Failure(LockedTryAgainIn(lockStatus.remainingMinutes), USER_LOCKED);
      }

      var isPasswordValid := verify(password, user.password);
      if !isPasswordValid {
        CounterStaysWithinLimit(user.throttle, now);
        RecordFailedAttempt(user, now);
        var updatedUser := FindById(user.id);
        if updatedUser.Some? && updatedUser.value.throttle.lockedUntil.Some? {
          return Failure(LockedAfterTooManyAttempts, USER_LOCKED);
        }
        return Failure(InvalidUsernameOrPassword, INVALID_CREDENTIALS);
      }

      ResetFailedAttempts(user);
      var token := GenerateToken(user);
      return Success(LoginSuccessful, Some(token), Some(UserInfo(user.id, user.username)));
    }

    /** recordFailedAttempt: write the failure transition of `user`'s columns to its row. */
    method RecordFailedAttempt(user: User, now: Time)
      requires Wellformed() && user.id in users
      modifies this
      ensures Wellformed()
      ensures users == old(users)[user.id := old(users)[user.id].(throttle := RecordedFailure(user.throttle, now))]
      ensures idOfName == old(idOfName) && nextId == old(nextId)
    {
      var row := users[user.id];
      users := users[user.id := row.(throttle := RecordedFailure(user.throttle, now))];
    }

    /** resetFailedAttempts: clear the counter, the last failure and the lock of `user`'s row. */
    method ResetFailedAttempts(user: User)
      requires Wellformed() && user.id in users
      modifies this
      ensures Wellformed()
      ensures users == old(users)[user.id := old(users)[user.id].(throttle := Cleared)]
      ensures idOfName == old(idOfName) && nextId == old(nextId)
    {
      var row := users[user.id];
      users := users[user.id := row.(throttle := Cleared)];
    }

    /** generateToken: sign the claims { sub: id, username }. */
    function GenerateToken(user: User): Token {
      sign(Claims(user.id, user.username))
    }
  }
}
