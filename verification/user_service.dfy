/** The account service (src/services/userService.js): the in-memory limiter
    of failed logins, login, registration, the profile update and the
    password change. Hashing and comparing passwords (bcrypt) are parameters;
    the login token (jsonwebtoken) is left out. */
module UserService {
  import opened Common
  import opened Repository
  import opened Entities

  /** VALIDATION_RULES.MAX_LOGIN_ATTEMPTS. */
  const MaxLoginAttempts := 5
  /** VALIDATION_RULES.LOGIN_ATTEMPT_WINDOW: fifteen minutes, in milliseconds. */
  const LoginAttemptWindow := 15 * 60 * 1000

  // ---------------------------------------------------------------------------
  // The limiter

  /** One entry of `loginAttempts`: failures counted and the time of the last. */
  datatype Attempts = Attempts(count: int, lastAttempt: int)

  /** The `loginAttempts` map, keyed by email. */
  type Limiter = map<string, Attempts>

  /** `loginAttempts.get(email) || { count: 0, lastAttempt: 0 }`. */
  function Stored(m: Limiter, email: string): (a: Attempts)
    ensures email !in m ==> a.count == 0
  {
    if email in m then m[email] else Attempts(0, 0)
  }

  /** The window since the last failure has passed. */
  predicate Expired(a: Attempts, now: int) {
    now - a.lastAttempt > LoginAttemptWindow
  }

  /** `checkLoginAttempts(email)`: once the window has passed the count is
      zeroed, on the stored entry itself when there is one; a count that has
      reached the maximum is refused. */
  function CheckSpec(m: Limiter, email: string, now: int): (out: (Result<Attempts>, Limiter))
    ensures out.0.Err? <==> email in m && !Expired(m[email], now) && m[email].count >= MaxLoginAttempts
    ensures out.0.Err? ==> out.0.error == LoginAttemptsExceeded && out.1 == m
    ensures out.0.Ok? ==> out.0.value.count < MaxLoginAttempts
    ensures Expired(Stored(m, email), now) ==> out.0 == Ok(Stored(m, email).(count := 0))
    ensures email in m && Expired(m[email], now) ==> out.1 == m[email := m[email].(count := 0)]
    ensures !Expired(Stored(m, email), now) ==> out.1 == m
  {
    var a := Stored(m, email);
    var refreshed := if Expired(a, now) then a.(count := 0) else a;
    var m' := if email in m then m[email := refreshed] else m;
    if refreshed.count >= MaxLoginAttempts then (Err(LoginAttemptsExceeded), m') else (Ok(refreshed), m')
  }

  /** `recordFailedLogin(email)`: one more failure, at `now`, creating the
      entry when there is none; no other entry changes. */
  function RecordSpec(m: Limiter, email: string, now: int): (r: Limiter)
    ensures r.Keys == m.Keys + {email}
    ensures r[email] == Attempts(Stored(m, email).count + 1, now)
    ensures forall e :: e in m && e != email ==> r[e] == m[e]
  {
    m[email := Attempts(Stored(m, email).count + 1, now)]
  }

  /** What one failed login (an unknown email or a wrong password) does to
      the limiter: the check, then the record when the check lets it through. */
  function FailStep(m: Limiter, email: string, now: int): Limiter {
    var checked := CheckSpec(m, email, now);
    if checked.0.Ok? then RecordSpec(checked.1, email, now) else checked.1
  }

  /** Failed logins at the given times, in order. */
  function FailSteps(m: Limiter, email: string, times: seq<int>): Limiter {
    if times == [] then m
    else FailStep(FailSteps(m, email, times[..|times| - 1]), email, times[|times| - 1])
  }

  /** Failed logins, each within the window of the one before, are counted one
      by one from an email with no entry. */
  lemma {:induction false} FailuresCount(m: Limiter, email: string, times: seq<int>)
    requires email !in m
    requires 0 < |times| <= MaxLoginAttempts
    requires forall i :: 0 < i < |times| ==> times[i] - times[i - 1] <= LoginAttemptWindow
    ensures email in FailSteps(m, email, times)
    ensures FailSteps(m, email, times)[email] == Attempts(|times|, times[|times| - 1])
  {
    var init := times[..|times| - 1];
    var now := times[|times| - 1];
    if init != [] {
      FailuresCount(m, email, init);
      assert init[|init| - 1] == times[|times| - 2];
    }
  }

  /** Five failed logins, each within the window of the one before, lock the
      email out for the window that follows the last of them. */
  lemma LockoutAfterFiveFailures(m: Limiter, email: string, times: seq<int>, now: int)
    requires email !in m
    requires |times| == MaxLoginAttempts
    requires forall i :: 0 < i < |times| ==> times[i] - times[i - 1] <= LoginAttemptWindow
    requires now - times[|times| - 1] <= LoginAttemptWindow
    ensures CheckSpec(FailSteps(m, email, times), email, now).0 == Err(LoginAttemptsExceeded)
  {
    FailuresCount(m, email, times);
  }

  /** Once the window after the last failure has passed, the check lets the
      email through again, from a count of zero. */
  lemma WindowExpiryUnlocks(m: Limiter, email: string, now: int)
    requires email in m && now - m[email].lastAttempt > LoginAttemptWindow
    ensures CheckSpec(m, email, now).0 == Ok(m[email].(count := 0))
    ensures CheckSpec(m, email, now).1[email].count == 0
  {
  }

  /** After `resetLoginAttempts` the check always lets the email through. */
  lemma ResetUnlocks(m: Limiter, email: string, now: int)
    ensures CheckSpec(m - {email}, email, now).0.Ok?
    ensures CheckSpec(m - {email}, email, now).1 == m - {email}
  {
  }

  // ---------------------------------------------------------------------------
  // Users

  /** A user as the service answers it: every field but the password. */
  datatype UserView = UserView(
    id: string,
    createdAt: Option<int>,
    updatedAt: Option<int>,
    name: string,
    email: string,
    role: string,
    isActive: bool,
    pixKey: string,
    totalSpent: Option<int>,
    lastPurchase: Option<int>,
    lastLogin: Option<int>,
    registeredAt: Option<int>)

  /** `const { password, ...userResponse } = user`. */
  function View(u: User): (v: UserView)
    ensures v.id == u.id && v.email == u.body.email && v.role == u.body.role
  {
    UserView(u.id, u.createdAt, u.updatedAt, u.body.name, u.body.email, u.body.role, u.body.isActive,
             u.body.pixKey, u.body.totalSpent, u.body.lastPurchase, u.body.lastLogin, u.body.registeredAt)
  }

  /** The answer loses the password and nothing else: two users give the
      same answer exactly when they differ at most in their passwords. */
  lemma ViewForgetsOnlyPassword(u: User, w: User)
    ensures View(u) == View(w) <==> u == w.(body := w.body.(password := u.body.password))
  {
  }

  /** The data manager's `getUserByEmail`: the first user with the email. */
  function FindByEmail(users: seq<User>, email: string): (r: Option<User>)
    ensures r.Some? ==> r.value in users && r.value.body.email == email
    ensures r.None? <==> forall u :: u in users ==> u.body.email != email
  {
    var k := FirstMatch(users, (u: User) => u.body.email == email);
    if k < 0 then None else Some(users[k])
  }

  /** `updateLastLogin`: the login time; the repository stamps `updatedAt`. */
  function SetLastLogin(now: int): UserFields -> UserFields {
    (b: UserFields) => b.(lastLogin := Some(now))
  }

  /** `login(email, password)`, as its effect on the user list and the
      limiter. `verify(password, hash)` is bcrypt's comparison. */
  function LoginSpec(users: seq<User>, m: Limiter, email: string, password: string,
                     verify: (string, string) -> bool, now: int): (out: (Result<UserView>, seq<User>, Limiter))
    ensures out.0 == Err(LoginAttemptsExceeded) <==> CheckSpec(m, email, now).0.Err?
    ensures out.0 == Err(LoginAttemptsExceeded) ==> out.1 == users && out.2 == m
    ensures out.0.Err? ==> out.1 == users
    ensures out.0.Ok? <==>
              CheckSpec(m, email, now).0.Ok? && FindByEmail(users, email).Some? &&
              FindByEmail(users, email).value.body.isActive &&
              verify(password, FindByEmail(users, email).value.body.password)
    ensures out.0.Ok? ==>
              var u := FindByEmail(users, email).value;
              out.0.value == View(u) && email !in out.2 &&
              out.1 == UpdateRows(users, u.id, SetLastLogin(now), Some(now))
    ensures out.0 == Err(AccountInactive) <==>
              CheckSpec(m, email, now).0.Ok? && FindByEmail(users, email).Some? &&
              !FindByEmail(users, email).value.body.isActive
    ensures out.0 == Err(AccountInactive) ==> out.2 == CheckSpec(m, email, now).1
    ensures out.0 == Err(InvalidCredentials) ==> out.2 == FailStep(m, email, now)
  {
    var checked := CheckSpec(m, email, now);
    if checked.0.Err? then (Err(checked.0.error), users, checked.1)
    else
      match FindByEmail(users, email)
      case None => (Err(InvalidCredentials), users, RecordSpec(checked.1, email, now))
      case Some(u) =>
        if !u.body.isActive then (Err(AccountInactive), users, checked.1)
        else if !verify(password, u.body.password) then
          (Err(InvalidCredentials), users, RecordSpec(checked.1, email, now))
        else (Ok(View(u)), UpdateRows(users, u.id, SetLastLogin(now), Some(now)), checked.1 - {email})
  }

  /** An unknown email and a wrong password are failures the limiter counts;
      an inactive account is refused without counting one. */
  lemma LoginFailuresCounted(users: seq<User>, m: Limiter, email: string, password: string,
                             verify: (string, string) -> bool, now: int)
    requires CheckSpec(m, email, now).0.Ok?
    ensures var out := LoginSpec(users, m, email, password, verify, now);
            out.0 == Err(InvalidCredentials) <==>
              FindByEmail(users, email).None? ||
              (FindByEmail(users, email).value.body.isActive &&
               !verify(password, FindByEmail(users, email).value.body.password))
    ensures var out := LoginSpec(users, m, email, password, verify, now);
            out.0 == Err(InvalidCredentials) ==>
              email in out.2 && out.2[email].lastAttempt == now &&
              out.2[email].count == CheckSpec(m, email, now).0.value.count + 1
    ensures var out := LoginSpec(users, m, email, password, verify, now);
            out.0 == Err(AccountInactive) ==> Stored(out.2, email).count == CheckSpec(m, email, now).0.value.count
  {
    var checked := CheckSpec(m, email, now);
    assert Stored(checked.1, email) == checked.0.value;
  }

  /** A new user: the hashed password, role `user`, active, no PIX key yet,
      registered now, never logged in. */
  datatype RegisterInput = RegisterInput(name: string, email: string, password: string)

  function NewUser(input: RegisterInput, hashed: string, freshId: string, now: int): User {
    Row(freshId, None, None,
        UserFields(input.name, input.email, hashed, "user", true, "", None, None, None, Some(now)))
  }

  /** `register(userData)`: a taken email is refused; otherwise the new user is
      appended, and is then the one user the email finds. */
  function RegisterSpec(users: seq<User>, input: RegisterInput, hashed: string, freshId: string, now: int)
    : (out: (Result<UserView>, seq<User>))
    ensures out.0.Err? <==> FindByEmail(users, input.email).Some?
    ensures out.0.Err? ==> out.0.error == EmailInUse && out.1 == users
    ensures out.0.Ok? ==>
              |out.1| == |users| + 1 && out.1[..|users|] == users &&
              var u := out.1[|users|];
              out.0.value == View(u) && u.id == freshId && u.body.password == hashed &&
              u.body.role == "user" && u.body.isActive && u.body.email == input.email &&
              FindByEmail(out.1, input.email) == Some(u)
  {
    if FindByEmail(users, input.email).Some? then (Err(EmailInUse), users)
    else
      var u := NewUser(input, hashed, freshId, now);
      assert (users + [u])[..|users|] == users;
      FindByEmailAppend(users, u);
      (Ok(View(u)), users + [u])
  }

  lemma FindByEmailAppend(users: seq<User>, u: User)
    requires FindByEmail(users, u.body.email).None?
    ensures FindByEmail(users + [u], u.body.email) == Some(u)
  {
    var all := users + [u];
    forall j | 0 <= j < |users|
      ensures all[j].body.email != u.body.email
    {
      assert all[j] in users;
    }
    assert all[|users|] == u;
  }

  /** A second registration with the same email is refused. */
  lemma RegisterTwiceRefused(users: seq<User>, input: RegisterInput, hashed: string, freshId: string, now: int,
                             again: RegisterInput, hashed2: string, freshId2: string, later: int)
    requires RegisterSpec(users, input, hashed, freshId, now).0.Ok?
    requires again.email == input.email
    ensures RegisterSpec(RegisterSpec(users, input, hashed, freshId, now).1, again, hashed2, freshId2, later).0 ==
              Err(EmailInUse)
  {
  }

  /** A new user can log in with the password it registered with, as soon as
      the limiter lets the email through. */
  lemma RegisterThenLogin(users: seq<User>, m: Limiter, input: RegisterInput, hashed: string, freshId: string,
                          now: int, verify: (string, string) -> bool, later: int)
    requires RegisterSpec(users, input, hashed, freshId, now).0.Ok?
    requires verify(input.password, hashed)
    requires CheckSpec(m, input.email, later).0.Ok?
    ensures LoginSpec(RegisterSpec(users, input, hashed, freshId, now).1, m, input.email, input.password,
                      verify, later).0.Ok?
  {
  }

  /** The request body of `updateProfile`; `None` is a key left out. A given
      `paymentSettings` replaces the whole object, so its PIX key is `""`
      when it has none. */
  datatype ProfileInput = ProfileInput(
    id: Option<string>,
    name: Option<string>,
    email: Option<string>,
    password: Option<string>,
    role: Option<string>,
    isActive: Option<bool>,
    pixKey: Option<string>)

  /** `const { password, role, id, email, ...safeUpdateData } = updateData`. */
  function SafeUpdate(input: ProfileInput): (r: ProfileInput)
    ensures r.id.None? && r.email.None? && r.password.None? && r.role.None?
    ensures r.name == input.name && r.isActive == input.isActive && r.pixKey == input.pixKey
  {
    input.(id := None, email := None, password := None, role := None)
  }

  /** The fields of the body an update carries. */
  function ProfilePatch(input: ProfileInput): UserFields -> UserFields {
    (b: UserFields) =>
      b.(name := input.name.GetOr(b.name), email := input.email.GetOr(b.email),
         password := input.password.GetOr(b.password), role := input.role.GetOr(b.role),
         isActive := input.isActive.GetOr(b.isActive), pixKey := input.pixKey.GetOr(b.pixKey))
  }

  /** `{ ...user, ...data }` on the whole record, the id included. */
  function Spread(u: User, input: ProfileInput): User {
    Row(input.id.GetOr(u.id), u.createdAt, u.updatedAt, ProfilePatch(input)(u.body))
  }

  /** On the stripped data the spread keeps the id, the email, the password
      and the role, and is the repository's merge of the body. */
  lemma SafeSpreadKeepsCredentials(u: User, input: ProfileInput)
    ensures var s := Spread(u, SafeUpdate(input));
            s.id == u.id && s.body.email == u.body.email && s.body.password == u.body.password &&
            s.body.role == u.body.role && s == Merged(u, ProfilePatch(SafeUpdate(input)), None)
  {
  }

  /** `updateProfile(userId, updateData)`: a missing user is an error (the data
      manager throws); otherwise the stripped data is merged and stamped. */
  function UpdateProfileSpec(users: seq<User>, userId: string, input: ProfileInput, now: int)
    : (out: (Result<UserView>, seq<User>))
    ensures out.0.Err? <==> IndexOf(users, userId) < 0
    ensures out.0.Err? ==> out.0.error == UserNotFound && out.1 == users
    ensures |out.1| == |users|
    ensures forall j :: 0 <= j < |users| && j != IndexOf(users, userId) ==> out.1[j] == users[j]
    ensures out.0.Ok? ==>
              var k := IndexOf(users, userId);
              var u := out.1[k];
              out.0.value == View(u) && u.id == users[k].id && u.updatedAt == Some(now) &&
              u.body.email == users[k].body.email && u.body.password == users[k].body.password &&
              u.body.role == users[k].body.role &&
              u.body.name == input.name.GetOr(users[k].body.name) &&
              u.body.pixKey == input.pixKey.GetOr(users[k].body.pixKey)
  {
    var patch := ProfilePatch(SafeUpdate(input));
    match UpdatedRow(users, userId, patch, Some(now))
    case None => (Err(UserNotFound), users)
    case Some(u) => (Ok(View(u)), UpdateRows(users, userId, patch, Some(now)))
  }

  /** `findById(userId)`. */
  function FindUser(users: seq<User>, userId: string): (r: Result<User>)
    ensures r.Err? <==> forall u :: u in users ==> u.id != userId
    ensures r.Err? ==> r.error == UserNotFound
    ensures r.Ok? ==> r.value in users && r.value.id == userId
  {
    match FindFirst(users, userId)
    case None => Err(UserNotFound)
    case Some(u) => Ok(u)
  }

  function SetPassword(hash: string): UserFields -> UserFields {
    (b: UserFields) => b.(password := hash)
  }

  /** `changePassword(userId, currentPassword, newPassword)` with the new
      password already hashed: a missing user, then a wrong current password,
      are refused; otherwise only the password changes. */
  function ChangePasswordSpec(users: seq<User>, userId: string, currentPassword: string, newHash: string,
                              verify: (string, string) -> bool, now: int): (out: (Result<()>, seq<User>))
    ensures out.0 == Err(UserNotFound) <==> FindFirst(users, userId).None?
    ensures out.0 == Err(WrongCurrentPassword) <==>
              FindFirst(users, userId).Some? && !verify(currentPassword, FindFirst(users, userId).value.body.password)
    ensures out.0.Err? ==> out.1 == users
    ensures out.0.Ok? ==>
              var k := IndexOf(users, userId);
              0 <= k && |out.1| == |users| && out.1[k].body == users[k].body.(password := newHash) &&
              forall j :: 0 <= j < |users| && j != k ==> out.1[j] == users[j]
  {
    match FindFirst(users, userId)
    case None => (Err(UserNotFound), users)
    case Some(u) =>
      if !verify(currentPassword, u.body.password) then (Err(WrongCurrentPassword), users)
      else (Ok(()), UpdateRows(users, userId, SetPassword(newHash), Some(now)))
  }

  // ---------------------------------------------------------------------------
  // The service

  class UserService {
    const users: Repository<UserFields>
    var loginAttempts: Limiter

    /** The service starts with no failures recorded. */
    constructor (users: Repository<UserFields>)
      ensures this.users == users && loginAttempts == map[]
    {
      this.users := users;
      loginAttempts := map[];
    }

    method CheckLoginAttempts(email: string, now: int) returns (r: Result<Attempts>)
      modifies this
      ensures (r, loginAttempts) == CheckSpec(old(loginAttempts), email, now)
    {
      var attempts := Stored(loginAttempts, email);
      if now - attempts.lastAttempt > LoginAttemptWindow {
        attempts := attempts.(count := 0);
        if email in loginAttempts {
          loginAttempts := loginAttempts[email := attempts];
        }
      }
      if attempts.count >= MaxLoginAttempts {
        return Err(LoginAttemptsExceeded);
      }
      return Ok(attempts);
    }

    method RecordFailedLogin(email: string, now: int)
      modifies this
      ensures loginAttempts == RecordSpec(old(loginAttempts), email, now)
    {
      var attempts := Stored(loginAttempts, email);
      attempts := attempts.(count := attempts.count + 1, lastAttempt := now);
      loginAttempts := loginAttempts[email := attempts];
    }

    method ResetLoginAttempts(email: string)
      modifies this
      ensures loginAttempts == old(loginAttempts) - {email}
    {
      loginAttempts := loginAttempts - {email};
    }

    method Login(email: string, password: string, verify: (string, string) -> bool, now: int)
      returns (r: Result<UserView>)
      modifies this, users
      ensures (r, users.items, loginAttempts) == LoginSpec(old(users.items), old(loginAttempts), email, password, verify, now)
    {
      var checked := CheckLoginAttempts(email, now);
      if checked.Err? {
        return Err(checked.error);
      }
      var user := FindByEmail(users.items, email);
      if user.None? {
        RecordFailedLogin(email, now);
        return Err(InvalidCredentials);
      }
      var u := user.value;
      if !u.body.isActive {
        return Err(AccountInactive);
      }
      if !verify(password, u.body.password) {
        RecordFailedLogin(email, now);
        return Err(InvalidCredentials);
      }
      ResetLoginAttempts(email);
      var _ := users.Update(u.id, SetLastLogin(now), now);
      r := Ok(View(u));
    }

    method Register(input: RegisterInput, hashed: string, freshId: string, now: int) returns (r: Result<UserView>)
      modifies users
      ensures (r, users.items) == RegisterSpec(old(users.items), input, hashed, freshId, now)
    {
      if FindByEmail(users.items, input.email).Some? {
        return Err(EmailInUse);
      }
      var u := NewUser(input, hashed, freshId, now);
      users.Push(u);
      r := Ok(View(u));
    }

    method UpdateProfile(userId: string, input: ProfileInput, now: int) returns (r: Result<UserView>)
      modifies users
      ensures (r, users.items) == UpdateProfileSpec(old(users.items), userId, input, now)
    {
      var updated := users.Update(userId, ProfilePatch(SafeUpdate(input)), now);
      if updated.None? {
        return Err(UserNotFound);
      }
      r := Ok(View(updated.value));
    }

    method FindById(userId: string) returns (r: Result<User>)
      ensures r == FindUser(users.items, userId)
    {
      var user := users.FindById(userId);
      if user.None? {
        return Err(UserNotFound);
      }
      r := Ok(user.value);
    }

    method ChangePassword(userId: string, currentPassword: string, newHash: string,
                          verify: (string, string) -> bool, now: int) returns (r: Result<()>)
      modifies users
      ensures (r, users.items) == ChangePasswordSpec(old(users.items), userId, currentPassword, newHash, verify, now)
    {
      var user := users.FindById(userId);
      if user.None? {
        return Err(UserNotFound);
      }
      if !verify(currentPassword, user.value.body.password) {
        return Err(WrongCurrentPassword);
      }
      var _ := users.Update(userId, SetPassword(newHash), now);
      r := Ok(());
    }
  }
}
