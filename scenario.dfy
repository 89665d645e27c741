/**
 * A client of AuthService that walks one account through the life the
 * service is built for: created, two wrong passwords, a correct one that
 * clears them, three wrong ones that lock it, a refused correct password
 * while locked, and a successful signin once the lock has run out. Every
 * outcome is derived from the contracts of Signup and Signin alone.
 */
module Scenario {

  import opened Wrappers
  import opened SharedTypes
  import opened RateLimit
  import opened Auth

  const Name: string := "alice"
  const Secret: string := "correct horse"
  const Wrong: string := "wrong horse"

  /** The service holds alice's account under `id`, with her hashed password and throttle `t`. */
  ghost predicate AliceIs(svc: AuthService, id: Id, t: Throttle)
    reads svc
  {
    svc.Valid() && svc.FindByUsername(Name) == Some(User(id, Name, svc.hash(Secret), t))
  }

  /** Signup creates the account once; a second signup and an unknown name are refused. */
  method CreateAlice() returns (svc: AuthService, id: Id)
    ensures fresh(svc)
    ensures AliceIs(svc, id, Cleared)
  {
    // Any injective hash will do; this one keeps the scenario readable.
    svc := new AuthService(p => Digest(p), (p, h) => h == Digest(p), c => "token");
    var r := svc.Signup(Name, Secret);
    assert r.Success?;
    id := r.user.value.id;

    r := svc.Signup(Name, "another one");
    assert r == Failure(UsernameAlreadyExists, USERNAME_EXISTS);

    r := svc.Signin("bob", Secret, 0);
    assert r == Failure(InvalidUsernameOrPassword, INVALID_CREDENTIALS);
  }

  /** Two wrong passwords a minute apart are counted; the right one clears them and returns alice's token. */
  method TwoFailuresThenSuccess(svc: AuthService, id: Id)
    requires AliceIs(svc, id, Cleared)
    modifies svc
    ensures AliceIs(svc, id, Cleared)
  {
    var r := svc.Signin(Name, Wrong, 0);
    assert r == Failure(InvalidUsernameOrPassword, INVALID_CREDENTIALS);
    assert AliceIs(svc, id, Throttle(1, Some(0), None));

    r := svc.Signin(Name, Wrong, MsPerMinute);
    assert r == Failure(InvalidUsernameOrPassword, INVALID_CREDENTIALS);
    assert AliceIs(svc, id, Throttle(2, Some(MsPerMinute), None));

    r := svc.Signin(Name, Secret, 2 * MsPerMinute);
    assert r == Success(LoginSuccessful, Some(svc.sign(Claims(id, Name))), Some(UserInfo(id, Name)));
  }

  /** Three wrong passwords a minute apart: the third reports the lock. */
  method ThreeFailuresLock(svc: AuthService, id: Id)
    requires AliceIs(svc, id, Cleared)
    modifies svc
    ensures AliceIs(svc, id, Throttle(3, Some(5 * MsPerMinute), Some(10 * MsPerMinute)))
  {
    var r := svc.Signin(Name, Wrong, 3 * MsPerMinute);
    assert AliceIs(svc, id, Throttle(1, Some(3 * MsPerMinute), None));
    r := svc.Signin(Name, Wrong, 4 * MsPerMinute);
    assert r == Failure(InvalidUsernameOrPassword, INVALID_CREDENTIALS);
    assert AliceIs(svc, id, Throttle(2, Some(4 * MsPerMinute), None));
    r := svc.Signin(Name, Wrong, 5 * MsPerMinute);
    assert r == Failure(LockedAfterTooManyAttempts, USER_LOCKED);
  }

  /** While locked even the right password is refused and nothing is written; after the lock it succeeds. */
  method LockRunsOut(svc: AuthService, id: Id)
    requires AliceIs(svc, id, Throttle(3, Some(5 * MsPerMinute), Some(10 * MsPerMinute)))
    modifies svc
    ensures AliceIs(svc, id, Cleared)
  {
    var r := svc.Signin(Name, Secret, 5 * MsPerMinute + 1);
    assert r == Failure(LockedTryAgainIn(5), USER_LOCKED);
    assert AliceIs(svc, id, Throttle(3, Some(5 * MsPerMinute), Some(10 * MsPerMinute)));

    r := svc.Signin(Name, Secret, 10 * MsPerMinute);
    assert r.Success?;
  }

  method AliceScenario() {
    var svc, id := CreateAlice();
    TwoFailuresThenSuccess(svc, id);
    ThreeFailuresLock(svc, id);
    LockRunsOut(svc, id);
  }
}
