/** Accounts and sessions of the numerically keyed application: login with
    the same counter and lock as the string-keyed one, except that it also
    stamps the last failure and that a successful login leaves the lock
    deadline where it was; hour-long sessions; and the current-user lookup
    from the session cookie.

    As in `Auth`, bcrypt's comparison, the session ids, the clock and the
    rendering of a lock deadline are inputs. */
module AuthService {
  import opened Common

  const MaxLoginAttempts: nat := 5
  const LockMillis: nat := 15 * 60000
  const SessionMillis: nat := 3600000
  const InvalidCredentials := "Invalid credentials"
  const LockedPrefix := "Account is locked. Try again after "

  datatype User = User(
    id: nat,
    name: string,
    email: string,
    phone: string,
    passwordHash: string,
    provider: string,
    isVerified: bool,
    referralCode: string,
    failedLoginAttempts: nat,
    lastFailedLogin: Option<int>,
    accountLockedUntil: Option<int>)

  /** `AuthUser`: the fields a login or the current-user lookup discloses. */
  datatype AuthUser = AuthUser(
    id: nat,
    name: string,
    email: string,
    phone: string,
    provider: string,
    isVerified: bool,
    referralCode: string)

  function Public(u: User): AuthUser {
    AuthUser(u.id, u.name, u.email, u.phone, u.provider, u.isVerified, u.referralCode)
  }

  datatype Session = Session(id: string, userId: nat, expiresAt: int, isRevoked: bool)

  predicate IsLocked(u: User, now: int) {
    u.accountLockedUntil.Some? && u.accountLockedUntil.value > now
  }

  datatype LoginResult = LoggedIn(user: AuthUser) | Refused(error: string)

  datatype Attempt = Attempt(user: User, result: LoginResult)

  /** One login attempt on a found user whose password check gave
      `passwordOk`.  A right password clears the counter and the failure
      stamp but not `accountLockedUntil`. */
  function Login(u: User, passwordOk: bool, now: int, timeText: int -> string): (a: Attempt)
    ensures a.result.LoggedIn? <==> !IsLocked(u, now) && passwordOk
    ensures a.result.LoggedIn? ==> a.result.user == Public(u)
    ensures a.result.LoggedIn? ==> a.user.accountLockedUntil == u.accountLockedUntil
    ensures a.user == u.(failedLoginAttempts := a.user.failedLoginAttempts,
                         lastFailedLogin := a.user.lastFailedLogin,
                         accountLockedUntil := a.user.accountLockedUntil)
    ensures IsLocked(u, now) ==> a.user == u
  {
    if IsLocked(u, now) then
      Attempt(u, Refused(LockedPrefix + timeText(u.accountLockedUntil.value)))
    else if !passwordOk then
      var failed := u.failedLoginAttempts + 1;
      var lockUntil := if failed >= MaxLoginAttempts then Some(now + LockMillis) else None;
      Attempt(u.(failedLoginAttempts := failed, lastFailedLogin := Some(now), accountLockedUntil := lockUntil),
              Refused(InvalidCredentials))
    else
      Attempt(u.(failedLoginAttempts := 0, lastFailedLogin := None), LoggedIn(Public(u)))
  }

  predicate Identifies(identifier: string, u: User) {
    if '@' in identifier then u.email == identifier else u.phone == identifier
  }

  function Lookup(users: seq<User>, identifier: string): Option<nat> {
    FindFirst(users, (u: User) => Identifies(identifier, u))
  }

  datatype Authentication = Authentication(result: LoginResult, users: seq<User>)

  /** `authenticateUser` over the user table. */
  function Authenticate(users: seq<User>, identifier: string, password: string,
                        verify: (string, string) -> bool, now: int, timeText: int -> string): Authentication
  {
    match Lookup(users, identifier)
    case None => Authentication(Refused(InvalidCredentials), users)
    case Some(k) =>
      var a := Login(users[k], verify(password, users[k].passwordHash), now, timeText);
      Authentication(a.result, users[k := a.user])
  }

  function FindSession(sessions: seq<Session>, id: string): Option<nat> {
    FindFirst(sessions, (s: Session) => s.id == id)
  }

  /** `validateSession`: the owner of an unrevoked, unexpired session. */
  function ValidateSession(sessions: seq<Session>, id: string, now: int): (r: Option<nat>)
    ensures r.Some? <==> exists k :: 0 <= k < |sessions| && FindSession(sessions, id) == Some(k)
                                      && !sessions[k].isRevoked && sessions[k].expiresAt > now
    ensures r.Some? ==> FindSession(sessions, id).Some?
                        && r.value == sessions[FindSession(sessions, id).value].userId
  {
    match FindSession(sessions, id)
    case None => None
    case Some(k) => if !sessions[k].isRevoked && sessions[k].expiresAt > now then Some(sessions[k].userId) else None
  }

  function HasUserId(id: nat): User -> bool {
    (u: User) => u.id == id
  }

  /** `getCurrentUser` with the value of the `session_id` cookie, if any.
      The owner id is checked for truthiness, so a session owned by user 0
      yields nobody. */
  function CurrentUser(users: seq<User>, sessions: seq<Session>, cookie: Option<string>, now: int): (r: Option<AuthUser>)
    ensures cookie.None? || cookie == Some("") ==> r.None?
    ensures r.Some? ==> cookie.Some? && ValidateSession(sessions, cookie.value, now) == Some(r.value.id)
    ensures r.Some? ==> r.value.id != 0
    ensures r.Some? ==> exists k :: 0 <= k < |users| && Public(users[k]) == r.value
    ensures cookie.Some? && cookie.value != "" ==>
      var owner := ValidateSession(sessions, cookie.value, now);
      owner.Some? && owner.value != 0 ==>
        match FindFirst(users, HasUserId(owner.value))
        case Some(k) => r == Some(Public(users[k]))
        case None => r.None?
  {
    match cookie
    case None => None
    case Some(sessionId) =>
      if sessionId == "" then None
      else match ValidateSession(sessions, sessionId, now)
        case None => None
        case Some(userId) =>
          if userId == 0 then None
          else match FindFirst(users, HasUserId(userId))
            case None => None
            case Some(k) => Some(Public(users[k]))
  }

  class AuthServiceStore {
    var users: seq<User>
    var sessions: seq<Session>

    constructor()
      ensures users == [] && sessions == []
    {
      users, sessions := [], [];
    }

    /** Creates a session for `userId` that expires an hour after `now`. */
    method CreateSession(userId: nat, id: string, now: int) returns (r: Result<string, string>)
      modifies this
      ensures FindSession(old(sessions), id).Some? ==> r == Err(UniqueViolation) && sessions == old(sessions)
      ensures FindSession(old(sessions), id).None? ==>
        r == Ok(id) && sessions == old(sessions) + [Session(id, userId, now + SessionMillis, false)]
      ensures users == old(users)
    {
      if FindSession(sessions, id).Some? {
        return Err(UniqueViolation);
      }
      sessions := sessions + [Session(id, userId, now + SessionMillis, false)];
      return Ok(id);
    }

    method AuthenticateUser(identifier: string, password: string, verify: (string, string) -> bool,
                            now: int, timeText: int -> string) returns (r: LoginResult)
      modifies this
      ensures var a := Authenticate(old(users), identifier, password, verify, now, timeText);
        r == a.result && users == a.users
      ensures sessions == old(sessions)
    {
      var found := Lookup(users, identifier);
      if found.None? {
        return Refused(InvalidCredentials);
      }
      var k := found.value;
      var u := users[k];
      if u.accountLockedUntil.Some? && u.accountLockedUntil.value > now {
        return Refused(LockedPrefix + timeText(u.accountLockedUntil.value));
      }
      var isPasswordValid := verify(password, u.passwordHash);
      if !isPasswordValid {
        var failedAttempts := u.failedLoginAttempts + 1;
        var lockUntil: Option<int> := None;
        if failedAttempts >= MaxLoginAttempts {
          lockUntil := Some(now + LockMillis);
        }
        users := users[k := u.(failedLoginAttempts := failedAttempts, lastFailedLogin := Some(now),
                               accountLockedUntil := lockUntil)];
        return Refused(InvalidCredentials);
      }
      users := users[k := u.(failedLoginAttempts := 0, lastFailedLogin := None)];
      return LoggedIn(Public(u));
    }
  }

  /** An unknown identifier is refused with the generic message and changes
      no record. */
  lemma UnknownIdentifierRefused(users: seq<User>, identifier: string, password: string,
                                 verify: (string, string) -> bool, now: int, timeText: int -> string)
    requires forall k :: 0 <= k < |users| ==> !Identifies(identifier, users[k])
    ensures Authenticate(users, identifier, password, verify, now, timeText)
         == Authentication(Refused(InvalidCredentials), users)
  {
  }

  /** While the lock holds the password is not consulted. */
  lemma LockedIgnoresPassword(u: User, now: int, timeText: int -> string)
    requires IsLocked(u, now)
    ensures Login(u, true, now, timeText) == Login(u, false, now, timeText)
    ensures Login(u, true, now, timeText).user == u
    ensures Login(u, true, now, timeText).result.Refused?
  {
  }

  /** A wrong password counts, stamps the failure time, and locks for
      fifteen minutes exactly when the new count reaches five. */
  lemma WrongPasswordCounts(u: User, now: int, timeText: int -> string)
    requires !IsLocked(u, now)
    ensures var a := Login(u, false, now, timeText);
      && a.result == Refused(InvalidCredentials)
      && a.user.failedLoginAttempts == u.failedLoginAttempts + 1
      && a.user.lastFailedLogin == Some(now)
      && (IsLocked(a.user, now) <==> u.failedLoginAttempts + 1 >= MaxLoginAttempts)
      && (a.user.accountLockedUntil.Some? ==> a.user.accountLockedUntil.value == now + LockMillis)
  {
  }

  /** A right password leaves the old lock deadline in the record, but that
      deadline is already past, so the account stays open from then on; and
      the next wrong password starts the count again at one and clears it. */
  lemma StaleLockIsHarmless(u: User, now: int, later: int, timeText: int -> string)
    requires !IsLocked(u, now) && now <= later
    ensures var v := Login(u, true, now, timeText).user;
      && v.accountLockedUntil == u.accountLockedUntil
      && v.failedLoginAttempts == 0 && v.lastFailedLogin.None?
      && !IsLocked(v, later)
      && Login(v, false, later, timeText).user.failedLoginAttempts == 1
      && Login(v, false, later, timeText).user.accountLockedUntil.None?
  {
  }

  /** A fresh session answers with its owner for an hour and not after. */
  lemma NewSessionLastsAnHour(sessions: seq<Session>, id: string, userId: nat, now: int, later: int)
    requires FindSession(sessions, id).None?
    ensures ValidateSession(sessions + [Session(id, userId, now + SessionMillis, false)], id, later)
         == if later < now + SessionMillis then Some(userId) else None
  {
    FindFirstExtend(sessions, (x: Session) => x.id == id, Session(id, userId, now + SessionMillis, false));
  }
}
