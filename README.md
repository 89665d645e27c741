# next-nest-auth: the authentication and rate-limit engine, in Dafny

This project models the decision logic of a small credential service:
`AuthService` of the NestJS backend, which registers accounts (signup),
authenticates them and issues a JWT (signin), and throttles repeated wrong
passwords per account with a rolling five-minute window and a five-minute
lock; and the two input schemas that the routes apply before the service is
called.

Files:

- `wrappers.dfy` (module `Wrappers`): `Option`, standing for a nullable column or a missing row.
- `shared_types.dfy` (module `SharedTypes`): the response union `AuthResponse`,
  `AuthErrorCode`, the messages, and `RATE_LIMIT` (`MaxAttempts = 3`,
  `WindowMinutes = 5`, with the window in milliseconds, `WindowMs`).
- `schemas.dfy` (module `Schemas`): `signupSchema` and `signinSchema`. Each
  schema collects one issue per failing check, as the validation library
  does, and accepts an input when it collects none. The username pattern
  `^[a-zA-Z0-9_]+$` is a recursive matcher, proved equal to "non-empty, every
  character in the class".
- `rate_limit.dfy` (module `RateLimit`): the pure part of the throttle.
  - `CheckLockStatus` is a function of `lockedUntil` and `now` alone, so
    evaluating it again gives the same answer.
  - `RecordedFailure` gives the three columns that `recordFailedAttempt` writes.
  - `Cleared` gives the columns that `resetFailedAttempts` writes.
  - `Replay` and `Streak` relate a run of failures to the counter they produce.
- `auth_service.dfy` (module `Auth`): the class `AuthService`.
  - It holds the `users` table (a map from id to row), its unique index on
    `username`, and the next id to assign.
  - Its methods `Signup`, `Signin`, `RecordFailedAttempt` and
    `ResetFailedAttempts` update that state in place.
  - Its invariant `Valid()` has these parts:
    - the password check and the hash agree: `verify(p, hash(q)) <==> p == q` (`CryptoSound`);
    - every row is stored under its own id, every id in use is below the next
      id, and the username index and the table agree in both directions;
    - every row's throttle columns are consistent (`Consistent`): a lock is
      present exactly when the counter has reached 3; a lock ends one window
      after the last failure; and the counter is 0 exactly when no last
      failure is recorded;
    - no counter ever exceeds 3.
- `scenario.dfy` (module `Scenario`): a client that runs one account through
  signup, counted failures, a clearing success, a lock, a refusal while
  locked and a success after the lock expires. Each outcome follows from the
  contracts of `Signup` and `Signin`.

Collaborators:
- The password hash, the password check and the JWT signer are
  function-valued constructor parameters.
- The constructor demands `verify(p, hash(q)) <==> p == q`, which is the only
  property of bcrypt that the service relies on.
- The clock is the explicit `now` argument of `Signin`, in milliseconds.

The source's own comments describe the limit as "Rate limiting (3 attempts
per 5 minutes)" (apps/backend/src/auth/auth.service.ts:20), "3 failed
attempts = 5 minute lockout" (apps/backend/src/auth/auth.service.ts:77) and
"3 attempts within 5 minutes" (packages/shared/src/types/auth.ts:41). The
code's test `user.lastFailedAt > windowStart`
(apps/backend/src/auth/auth.service.ts:189) is strict, so a failure exactly
five minutes after the previous one is outside the window: it resets the
counter to 1 and does not lock (`RateLimit.FullWindowGapRestartsCount`). The
model follows the code.

## Model

| member | source | states |
|---|---|---|
| `Schemas.PatternIsNonEmptyCharset` | packages/shared/src/schemas/auth.ts:13-16 | the username pattern matches exactly the non-empty strings whose every character is a letter, a digit or `_` |
| `Schemas.MatchesUsernamePattern` | packages/shared/src/schemas/auth.ts:13-16 | the pattern `^[a-zA-Z0-9_]+$`, matched left to right; whatever it matches is non-empty and drawn only from the class |
| `Schemas.MinIssues` | packages/shared/src/schemas/auth.ts:11 | a `.min(n)` check reports nothing exactly when the string has at least `n` characters |
| `Schemas.MaxIssues` | packages/shared/src/schemas/auth.ts:12 | a `.max(n)` check reports nothing exactly when the string has at most `n` characters |
| `Schemas.PatternIssues` | packages/shared/src/schemas/auth.ts:13-16 | the `.regex` check reports nothing exactly when the pattern matches |
| `Schemas.SignupIssues` | packages/shared/src/schemas/auth.ts:8-21 | `signupSchema`: it reports too-short (under 3), too-long (over 50) and bad-characters for the username, and too-short (under 8) and too-long (over 100) for the password, each exactly when that check fails; the username's issues come before the password's |
| `Schemas.SigninIssues` | packages/shared/src/schemas/auth.ts:27-30 | `signinSchema`: it reports a missing username and a missing password, each exactly when that field is empty, and nothing else |
| `Schemas.ShortUsernameRejected` | packages/shared/src/schemas/auth.ts:11 | a username under 3 characters is reported as too short and signup rejects the input |
| `Schemas.LongUsernameRejected` | packages/shared/src/schemas/auth.ts:12 | a username over 50 characters is reported as too long and signup rejects the input |
| `Schemas.AcceptedUsernameCharset` | packages/shared/src/schemas/auth.ts:13-16 | a username that signup accepts is non-empty and made only of `[A-Za-z0-9_]` |
| `Schemas.ForeignCharacterRejected` | packages/shared/src/schemas/auth.ts:13-16 | any character outside `[A-Za-z0-9_]` is reported and the input is rejected, whatever its length |
| `Schemas.SignupAcceptsExactly` | packages/shared/src/schemas/auth.ts:8-21 | signup accepts iff the username has 3 to 50 characters from the class and the password has 8 to 100 characters |
| `Schemas.PasswordCharactersIrrelevant` | packages/shared/src/schemas/auth.ts:17-20 | the password rule looks only at the length: replacing a password with any other of the same length never changes acceptance |
| `Schemas.SigninAcceptsExactly` | packages/shared/src/schemas/auth.ts:27-30 | signin accepts iff both username and password are non-empty, with no other constraint |
| `Schemas.SignupImpliesSignin` | packages/shared/src/schemas/auth.ts:8-30 | every input signup accepts is accepted by signin |
| `RateLimit.CeilMinutes` | apps/backend/src/auth/auth.service.ts:164-165 | for a positive remaining time the reported minutes are its ceiling in minutes: at least 1, `(m-1)` minutes < remaining ≤ `m` minutes |
| `RateLimit.CheckLockStatus` | apps/backend/src/auth/auth.service.ts:157-174 | locked iff `lockedUntil` is non-null and later than `now`; when locked, the minutes are the ceiling of the remaining time, and at least 1 |
| `RateLimit.LockOnlyWearsOff` | apps/backend/src/auth/auth.service.ts:157-174 | a lock seen at a later time was also in force at any earlier time, and the reported minutes never increase as time passes |
| `RateLimit.RecordedFailure` | apps/backend/src/auth/auth.service.ts:180-201 | new counter = old + 1 if the previous failure was less than 5 minutes ago, else 1; `lastFailedAt` = now; `lockedUntil` = now + 5 min iff the counter reaches 3, else null; so a lock always ends 5 minutes after the last failure. The window test at :189 is `RecentFailure`, the previous failure being less than 5 minutes before `now`; `Replay` and `Streak` give an independent reference |
| `RateLimit.ClearedIsUnlocked` | apps/backend/src/auth/auth.service.ts:217-226 | the cleared columns (0, null, null) are consistent and never locked |
| `RateLimit.CounterStaysWithinLimit` | apps/backend/src/auth/auth.service.ts:99-114 | a failure recorded after the lock check passed keeps the counter at most 3 |
| `RateLimit.ExpiredLockRestartsCount` | apps/backend/src/auth/auth.service.ts:180-201 | the first failure after an expired lock sets the counter to 1 and sets no lock |
| `RateLimit.ReportedWaitAtMostWindow` | apps/backend/src/auth/auth.service.ts:162-168 | while a lock set by a failure runs, the reported wait is between 1 and 5 minutes, provided the clock has not gone back past that failure |
| `RateLimit.FullWindowGapRestartsCount` | apps/backend/src/auth/auth.service.ts:182-195 | a failure exactly 5 minutes after the previous one resets the counter to 1 and does not lock |
| `RateLimit.ReplayCountsStreak` | apps/backend/src/auth/auth.service.ts:186-201 | over any run of recorded failures, the counter equals the trailing streak of failures each less than 5 minutes after the previous one; a gap of 5 minutes or more resets it, never decays it; locked iff the streak is at least 3 |
| `RateLimit.ReplayLocksIffLastThreeClose` | apps/backend/src/auth/auth.service.ts:197-201 | a run of failures leaves the account locked iff its last three failures are each less than 5 minutes after the one before; the lock ends 5 minutes after the last failure |
| `Auth.AuthService.constructor` | apps/backend/src/auth/auth.service.ts:27-30 | a service over an empty table with the given hash, check and signer satisfies the invariant |
| `Auth.AuthService.FindByUsername` | apps/backend/src/auth/auth.service.ts:42-44 | the lookup by username finds a row iff some stored account has that name, and returns that stored row |
| `Auth.AuthService.Signup` | apps/backend/src/auth/auth.service.ts:38-73 | a taken name gives `USERNAME_EXISTS` and the store is unchanged. A fresh name adds exactly one row under a new id, with `hash(password)` and cleared throttle columns, and returns success with `{id, username}`. The stored hash verifies against that password and no other. |
| `Auth.AuthService.Signin` | apps/backend/src/auth/auth.service.ts:82-151 | unknown name: `INVALID_CREDENTIALS`, no write. Running lock: `USER_LOCKED` with the remaining minutes, no write, even for the right password. Wrong password: the row gets `RecordedFailure`; `USER_LOCKED` iff the new counter reached 3, which is what the re-read of the row by id at :117-121 (`FindById`) tests, else the same `INVALID_CREDENTIALS` response as for an unknown name. Right password: the columns are cleared and the result is `sign({sub: id, username})` with `{id, username}`. No other account changes, and the invariant (consistent columns, counters at most 3) is kept. |
| `Auth.AuthService.RecordFailedAttempt` | apps/backend/src/auth/auth.service.ts:180-212 | only the row with `user.id` changes, and only its throttle columns, which become `RecordedFailure` of the columns `user` was read with |
| `Auth.AuthService.ResetFailedAttempts` | apps/backend/src/auth/auth.service.ts:217-226 | only the row with `user.id` changes, and only its throttle columns, which become 0, null and null |
| `Scenario.CreateAlice` | apps/backend/src/auth/auth.service.spec.ts:62-157 | ensures: signup stores the account under its name, with its hashed password and cleared columns. Proved in the body: a second signup with the same name gives `USERNAME_EXISTS`, and signin with an unknown name gives `INVALID_CREDENTIALS` |
| `Scenario.TwoFailuresThenSuccess` | apps/backend/src/auth/auth.service.spec.ts:245-268 | ensures: the account ends with cleared columns. Proved in the body: two wrong passwords one minute apart give `INVALID_CREDENTIALS` and count 1, then 2; the right password then returns the signed token with `{id, username}` |
| `Scenario.ThreeFailuresLock` | apps/backend/src/auth/auth.service.spec.ts:215-243 | ensures: after three wrong passwords one minute apart, the counter is 3 and the lock runs until 5 minutes after the third. Proved in the body: the second gives `INVALID_CREDENTIALS` and the third gives `USER_LOCKED` |
| `Scenario.LockRunsOut` | apps/backend/src/auth/auth.service.spec.ts:176-192 | ensures: once the lock time is reached, the right password leaves the columns cleared. Proved in the body: during the lock the right password gives `USER_LOCKED` with 5 minutes left and writes nothing, and the later signin succeeds |

## Left out

- Transport and wiring are not modelled, because none of it makes a decision:
  - the tRPC router and its Express bridge;
  - the NestJS modules and dependency injection;
  - application bootstrap;
  - the database connection lifecycle and `cleanDatabase`.
- The web client is not modelled: its pages, its forms and its token storage.
- bcrypt is only the abstract pair `hash`/`verify` with `verify(p, hash(q)) <==> p == q`.
  - Salting, the cost factor and the algorithm are not modelled.
  - bcrypt's handling of passwords longer than 72 bytes is not modelled.
- JWT signing is an abstract `sign` over the claims `{sub, username}`. The secret and the 24-hour expiry are not modelled.
- The store is an in-memory table with a unique index on `username`.
  - Ids are natural numbers from a counter, not database-generated strings.
  - The `createdAt` and `updatedAt` columns are not modelled.
  - A store call that throws is not modelled.
- `Auth.AuthService.RecordFailedAttempt`, `Auth.AuthService.ResetFailedAttempts`: they require the row to exist. In the source, an update of a missing row throws, which is an infrastructure failure outside this model.
- Concurrency is not modelled. Each signup and signin is one atomic step, so the read-then-write races are absent:
  - between the existence check and the insert in signup;
  - between reading the counters and writing them back in signin.
- `Auth.AuthService.Signin`: it takes one `now` for the whole call. The source reads the clock twice, once in the lock check and once in `recordFailedAttempt`.
- `RateLimit.CeilMinutes`: it is integer ceiling division. The source uses floating-point `Math.ceil(ms / 60000)`, and the two agree on remaining times of the size a lock produces, which is at most a few minutes.
- Messages are abstract constructors, one per distinct text. The lock-check message carries its minute count. The exact wording is not modelled.
- `Schemas.MinIssues`, `Schemas.MaxIssues`: a string's length is its number of `char`s. The validation library counts UTF-16 code units, which differ for characters outside the Basic Multilingual Plane. Issue messages and the library's error format are not modelled.
- `generateToken` has no entry of its own in the table. It is `Auth.AuthService.GenerateToken`, and `Auth.AuthService.Signin`'s contract states the token it returns.
