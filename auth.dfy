/** Accounts and sessions of the string-keyed application: registration
    with referral credit, login with a failed-attempt counter and a
    temporary lock, day-long sessions, revocation and the current-user
    lookup.

    Password hashing and comparison, identifier generation and the clock
    are inputs: the stored hash, the new ids and the referral code drawn
    for the new user are parameters, `verify(password, hash)` is bcrypt's
    comparison, `now` is the clock in milliseconds and `timeText` renders a
    lock deadline as `toLocaleTimeString` does. */
module Auth {
  import opened Common
  import Utils

  const MaxLoginAttempts: nat := 5
  const LockMillis: nat := 15 * 60000
  const SessionMillis: nat := 24 * 3600000
  const ReferralBonus: int := 20
  const InvalidCredentials := "Invalid credentials"
  const LockedPrefix := "Account is locked. Try again after "

  datatype User = User(
    id: string,
    name: string,
    email: string,
    phone: string,
    passwordHash: string,
    provider: Utils.Provider,
    isVerified: bool,
    referralCode: string,
    balance: int,
    failedLoginAttempts: nat,
    accountLockedUntil: Option<int>)

  /** The fields a successful login or the current-user lookup discloses. */
  datatype PublicUser = PublicUser(
    id: string,
    name: string,
    email: string,
    phone: string,
    provider: Utils.Provider,
    isVerified: bool,
    referralCode: string)

  function Public(u: User): PublicUser {
    PublicUser(u.id, u.name, u.email, u.phone, u.provider, u.isVerified, u.referralCode)
  }

  datatype Session = Session(id: string, userId: string, expiresAt: int, isRevoked: bool)

  datatype Referral = Referral(referrerId: string, referredId: string)

  /** The columns queried with `findUnique` are unique across the table. */
  predicate Distinct(u: User, v: User) {
    u.id != v.id && u.email != v.email && u.phone != v.phone && u.referralCode != v.referralCode
  }

  predicate UniqueUsers(users: seq<User>) {
    forall i, j :: 0 <= i < j < |users| ==> Distinct(users[i], users[j])
  }

  // ---------------------------------------------------------------- login

  predicate IsLocked(u: User, now: int) {
    u.accountLockedUntil.Some? && u.accountLockedUntil.value > now
  }

  datatype LoginResult = LoggedIn(user: PublicUser) | Refused(error: string)

  /** A user record after a login attempt, and what the caller is told. */
  datatype Attempt = Attempt(user: User, result: LoginResult)

  /** One login attempt on a found user whose password check gave
      `passwordOk`.  A locked account is refused before the password is
      looked at; a wrong password counts, and locks once the count reaches
      the maximum; a right one clears both counter and lock. */
  function Login(u: User, passwordOk: bool, now: int, timeText: int -> string): (a: Attempt)
    ensures a.result.LoggedIn? <==> !IsLocked(u, now) && passwordOk
    ensures a.result.LoggedIn? ==> a.result.user == Public(u) && !IsLocked(a.user, now)
    ensures a.user == u.(failedLoginAttempts := a.user.failedLoginAttempts,
                         accountLockedUntil := a.user.accountLockedUntil)
    ensures IsLocked(u, now) ==> a.user == u
  {
    if IsLocked(u, now) then
      Attempt(u, Refused(LockedPrefix + timeText(u.accountLockedUntil.value)))
    else if !passwordOk then
      var failed := u.failedLoginAttempts + 1;
      var lockUntil := if failed >= MaxLoginAttempts then Some(now + LockMillis) else None;
      Attempt(u.(failedLoginAttempts := failed, accountLockedUntil := lockUntil), Refused(InvalidCredentials))
    else
      Attempt(u.(failedLoginAttempts := 0, accountLockedUntil := None), LoggedIn(Public(u)))
  }

  /** An identifier with an '@' names an email address, any other a phone. */
  predicate Identifies(identifier: string, u: User) {
    if '@' in identifier then u.email == identifier else u.phone == identifier
  }

  function Lookup(users: seq<User>, identifier: string): Option<nat> {
    FindFirst(users, (u: User) => Identifies(identifier, u))
  }

  datatype Authentication = Authentication(result: LoginResult, users: seq<User>)

  /** `authenticateUser` over the user table. */
  function Authenticate(users: seq<User>, identifier: string, password: string,
                        verify: (string, string) -> bool, now: int, timeText: int -> string): Authentication
  {
    match Lookup(users, identifier)
    case None => Authentication(Refused(InvalidCredentials), users)
    case Some(k) =>
      var a := Login(users[k], verify(password, users[k].passwordHash), now, timeText);
      Authentication(a.result, users[k := a.user])
  }

  // ------------------------------------------------------------- sessions

  function FindSession(sessions: seq<Session>, id: string): Option<nat> {
    FindFirst(sessions, (s: Session) => s.id == id)
  }

  /** `validateSession`: the owner of the session with this id, provided it
      is not revoked and has not expired. */
  function ValidateSession(sessions: seq<Session>, id: string, now: int): (r: Option<string>)
    ensures r.Some? <==> exists k :: 0 <= k < |sessions| && FindSession(sessions, id) == Some(k)
                                      && !sessions[k].isRevoked && sessions[k].expiresAt > now
    ensures r.Some? ==> FindSession(sessions, id).Some?
                        && r.value == sessions[FindSession(sessions, id).value].userId
  {
    match FindSession(sessions, id)
    case None => None
    case Some(k) => if !sessions[k].isRevoked && sessions[k].expiresAt > now then Some(sessions[k].userId) else None
  }

  /** The session table after marking the session `id` revoked. */
  function Revoked(sessions: seq<Session>, id: string): seq<Session> {
    match FindSession(sessions, id)
    case None => sessions
    case Some(k) => sessions[k := sessions[k].(isRevoked := true)]
  }

  function HasUserId(id: string): User -> bool {
    (u: User) => u.id == id
  }

  /** `getCurrentUser`: nothing for an empty session id, an invalid session
      or a vanished user; otherwise the public fields of the owner. */
  function CurrentUser(users: seq<User>, sessions: seq<Session>, sessionId: string, now: int): (r: Option<PublicUser>)
    ensures sessionId == "" ==> r.None?
    ensures r.Some? ==> ValidateSession(sessions, sessionId, now) == Some(r.value.id)
    ensures r.Some? ==> exists k :: 0 <= k < |users| && Public(users[k]) == r.value
    ensures var owner := ValidateSession(sessions, sessionId, now);
      sessionId != "" && owner.Some? && owner.value != "" ==>
        match FindFirst(users, HasUserId(owner.value))
        case Some(k) => r == Some(Public(users[k]))
        case None => r.None?
  {
    if sessionId == "" then None
    else match ValidateSession(sessions, sessionId, now)
      case None => None
      case Some(userId) =>
        if userId == "" then None
        else match FindFirst(users, HasUserId(userId))
          case None => None
          case Some(k) => Some(Public(users[k]))
  }

  // --------------------------------------------------------- registration

  /** What the caller supplies to `createUser`, with the password already
      hashed and the new user's own referral code already drawn. */
  datatype SignUp = SignUp(
    id: string,
    name: string,
    email: string,
    phone: string,
    passwordHash: string,
    ownCode: string,
    referralCode: Option<string>)

  function NewUser(s: SignUp): User {
    User(s.id, s.name, s.email, s.phone, s.passwordHash, Utils.DetectProvider(s.phone),
         false, s.ownCode, 0, 0, None)
  }

  datatype Registration = Registration(result: Result<User, string>, users: seq<User>, referrals: seq<Referral>)

  /** `createUser` as one database transaction: the insert fails on a taken
      id, email, phone or referral code and rolls everything back;
      otherwise a non-empty referral code that belongs to a user (the new
      one included) credits that user and records the referral. */
  function Register(users: seq<User>, referrals: seq<Referral>, s: SignUp): (g: Registration)
    ensures g.result.Err? <==> exists k :: 0 <= k < |users| && !Distinct(users[k], NewUser(s))
    ensures g.result.Err? ==> g.result.error == UniqueViolation && g.users == users && g.referrals == referrals
    ensures g.result.Ok? ==>
      && g.result.value == NewUser(s)
      && |g.users| == |users| + 1
      && g.users[|users|] == NewUser(s).(balance := g.users[|users|].balance)
      && (|g.referrals| == |referrals| || |g.referrals| == |referrals| + 1)
      && g.referrals[..|referrals|] == referrals
    ensures g.result.Ok? ==> forall j :: 0 <= j < |users| ==>
      g.users[j] == users[j].(balance := g.users[j].balance)
  {
    var u := NewUser(s);
    if exists k :: 0 <= k < |users| && !Distinct(users[k], u) then
      Registration(Err(UniqueViolation), users, referrals)
    else
      var created := users + [u];
      match s.referralCode
      case None => Registration(Ok(u), created, referrals)
      case Some(code) =>
        if code == "" then Registration(Ok(u), created, referrals)
        else match FindFirst(created, (v: User) => v.referralCode == code)
          case None => Registration(Ok(u), created, referrals)
          case Some(k) =>
            Registration(Ok(u), created[k := created[k].(balance := created[k].balance + ReferralBonus)],
                         referrals + [Referral(created[k].id, u.id)])
  }

  // ---------------------------------------------------------------- store

  class AuthStore {
    var users: seq<User>
    var sessions: seq<Session>
    var referrals: seq<Referral>

    constructor()
      ensures users == [] && sessions == [] && referrals == []
    {
      users, sessions, referrals := [], [], [];
    }

    method CreateUser(s: SignUp) returns (r: Result<User, string>)
      modifies this
      ensures var g := Register(old(users), old(referrals), s);
        r == g.result && users == g.users && referrals == g.referrals
      ensures sessions == old(sessions)
    {
      var u := NewUser(s);
      if exists k :: 0 <= k < |users| && !Distinct(users[k], u) {
        return Err(UniqueViolation);
      }
      users := users + [u];
      if s.referralCode.Some? && s.referralCode.value != "" {
        var code := s.referralCode.value;
        var referrer := FindFirst(users, (v: User) => v.referralCode == code);
        if referrer.Some? {
          var k := referrer.value;
          referrals := referrals + [Referral(users[k].id, u.id)];
          users := users[k := users[k].(balance := users[k].balance + ReferralBonus)];
        }
      }
      return Ok(u);
    }

    /** Creates a session for `userId` that expires a day after `now`. */
    method CreateSession(userId: string, id: string, now: int) returns (r: Result<string, string>)
      modifies this
      ensures FindSession(old(sessions), id).Some? ==> r == Err(UniqueViolation) && sessions == old(sessions)
      ensures FindSession(old(sessions), id).None? ==>
        r == Ok(id) && sessions == old(sessions) + [Session(id, userId, now + SessionMillis, false)]
      ensures users == old(users) && referrals == old(referrals)
    {
      if FindSession(sessions, id).Some? {
        return Err(UniqueViolation);
      }
      sessions := sessions + [Session(id, userId, now + SessionMillis, false)];
      return Ok(id);
    }

    method AuthenticateUser(identifier: string, password: string, verify: (string, string) -> bool,
                            now: int, timeText: int -> string) returns (r: LoginResult)
      modifies this
      ensures var a := Authenticate(old(users), identifier, password, verify, now, timeText);
        r == a.result && users == a.users
      ensures sessions == old(sessions) && referrals == old(referrals)
    {
      var found := Lookup(users, identifier);
      if found.None? {
        return Refused(InvalidCredentials);
      }
      var k := found.value;
      var u := users[k];
      if u.accountLockedUntil.Some? && u.accountLockedUntil.value > now {
        return Refused(LockedPrefix + timeText(u.accountLockedUntil.value));
      }
      var isPasswordValid := verify(password, u.passwordHash);
      if !isPasswordValid {
        var failedAttempts := u.failedLoginAttempts + 1;
        var lockUntil: Option<int> := None;
        if failedAttempts >= MaxLoginAttempts {
          lockUntil := Some(now + LockMillis);
        }
        users := users[k := u.(failedLoginAttempts := failedAttempts, accountLockedUntil := lockUntil)];
        return Refused(InvalidCredentials);
      }
      users := users[k := u.(failedLoginAttempts := 0, accountLockedUntil := None)];
      return LoggedIn(Public(u));
    }

    /** `revokeSession`: false when there is no such session (the update
      throws and the error is swallowed). */
    method RevokeSession(id: string) returns (ok: bool)
      modifies this
      ensures ok <==> FindSession(old(sessions), id).Some?
      ensures sessions == Revoked(old(sessions), id)
      ensures users == old(users) && referrals == old(referrals)
    {
      var k := FindSession(sessions, id);
      if k.None? {
        return false;
      }
      sessions := sessions[k.value := sessions[k.value].(isRevoked := true)];
      return true;
    }
  }

  // --------------------------------------------------------------- lemmas

  /** An unknown identifier is refused with the generic message and changes
      no record. */
  lemma UnknownIdentifierRefused(users: seq<User>, identifier: string, password: string,
                                 verify: (string, string) -> bool, now: int, timeText: int -> string)
    requires forall k :: 0 <= k < |users| ==> !Identifies(identifier, users[k])
    ensures Authenticate(users, identifier, password, verify, now, timeText)
         == Authentication(Refused(InvalidCredentials), users)
  {
  }

  /** A login touches only the record the identifier names. */
  lemma AuthenticateTouchesOneUser(users: seq<User>, identifier: string, password: string,
                                   verify: (string, string) -> bool, now: int, timeText: int -> string, j: nat)
    requires j < |users| && !Identifies(identifier, users[j])
    ensures var a := Authenticate(users, identifier, password, verify, now, timeText);
      |a.users| == |users| && a.users[j] == users[j]
  {
  }

  /** While the lock holds the password is not consulted: the answer is the
      same for a right and a wrong one, and the record does not change. */
  lemma LockedIgnoresPassword(u: User, now: int, timeText: int -> string)
    requires IsLocked(u, now)
    ensures Login(u, true, now, timeText) == Login(u, false, now, timeText)
    ensures Login(u, true, now, timeText).user == u
    ensures Login(u, true, now, timeText).result.Refused?
  {
  }

  /** A wrong password on an open account adds one to the counter and sets
      the lock exactly when the new count reaches five, for fifteen minutes. */
  lemma WrongPasswordCounts(u: User, now: int, timeText: int -> string)
    requires !IsLocked(u, now)
    ensures var a := Login(u, false, now, timeText);
      && a.result == Refused(InvalidCredentials)
      && a.user.failedLoginAttempts == u.failedLoginAttempts + 1
      && (IsLocked(a.user, now) <==> u.failedLoginAttempts + 1 >= MaxLoginAttempts)
      && (a.user.accountLockedUntil.Some? ==> a.user.accountLockedUntil.value == now + LockMillis)
      && Public(a.user) == Public(u)
  {
  }

  /** A right password on an open account logs in with the account's
      public fields and clears counter and lock. */
  lemma RightPasswordResets(u: User, now: int, timeText: int -> string)
    requires !IsLocked(u, now)
    ensures var a := Login(u, true, now, timeText);
      && a.result == LoggedIn(Public(u))
      && a.user.failedLoginAttempts == 0
      && !IsLocked(a.user, now) && a.user.accountLockedUntil.None?
  {
  }

  /** `n` wrong passwords in a row at the same instant. */
  function Failures(u: User, n: nat, now: int, timeText: int -> string): User
    decreases n
  {
    if n == 0 then u else Failures(Login(u, false, now, timeText).user, n - 1, now, timeText)
  }

  /** From an open account with `c` failures, `n` more wrong passwords bring
      the count to `c + n` until it reaches five; the attempt that reaches
      five locks the account, and the attempts after it are refused
      without counting. */
  lemma {:induction false} RepeatedFailures(u: User, n: nat, now: int, timeText: int -> string)
    requires !IsLocked(u, now)
    ensures var c := u.failedLoginAttempts;
      var v := Failures(u, n, now, timeText);
      && v.failedLoginAttempts == (if n == 0 || c + n <= MaxLoginAttempts then c + n
                                   else if c + 1 >= MaxLoginAttempts then c + 1
                                   else MaxLoginAttempts)
      && (n > 0 ==> (IsLocked(v, now) <==> v.failedLoginAttempts >= MaxLoginAttempts))
    decreases n
  {
    if n > 0 {
      var w := Login(u, false, now, timeText).user;
      if IsLocked(w, now) {
        LockedStays(w, n - 1, now, timeText);
      } else {
        RepeatedFailures(w, n - 1, now, timeText);
      }
    }
  }

  /** Wrong passwords against a locked account change nothing. */
  lemma {:induction false} LockedStays(u: User, n: nat, now: int, timeText: int -> string)
    requires IsLocked(u, now)
    ensures Failures(u, n, now, timeText) == u
    decreases n
  {
    if n > 0 {
      LockedStays(u, n - 1, now, timeText);
    }
  }

  /** The counter is not cleared when a lock runs out: an account locked
      before is locked again by its very next wrong password. */
  lemma ExpiredLockRelocksAtOnce(u: User, now: int, timeText: int -> string)
    requires !IsLocked(u, now) && u.failedLoginAttempts >= MaxLoginAttempts - 1
    ensures IsLocked(Login(u, false, now, timeText).user, now)
    ensures Login(u, false, now, timeText).user.accountLockedUntil == Some(now + LockMillis)
  {
  }

  /** A lock set at `now` refuses every attempt for fifteen minutes and
      none after. */
  lemma LockLastsFifteenMinutes(u: User, now: int, later: int, timeText: int -> string)
    requires u.accountLockedUntil == Some(now + LockMillis) && now <= later
    ensures IsLocked(u, later) <==> later < now + LockMillis
  {
  }

  /** A fresh session answers with its owner for a day and not after. */
  lemma NewSessionLastsADay(sessions: seq<Session>, id: string, userId: string, now: int, later: int)
    requires FindSession(sessions, id).None?
    ensures ValidateSession(sessions + [Session(id, userId, now + SessionMillis, false)], id, later)
         == if later < now + SessionMillis then Some(userId) else None
  {
    FindFirstExtend(sessions, (x: Session) => x.id == id, Session(id, userId, now + SessionMillis, false));
  }

  /** A revoked session never validates again. */
  lemma RevokedSessionInvalid(sessions: seq<Session>, id: string, later: int)
    ensures ValidateSession(Revoked(sessions, id), id, later).None?
  {
    var p := (x: Session) => x.id == id;
    match FindSession(sessions, id)
    case None =>
    case Some(k) =>
      var after := Revoked(sessions, id);
      FindFirstAlike(sessions, p, after, p);
  }

  /** A referral code that names an existing user credits that user with
      twenty and records one referral from them to the new user; nobody
      else's balance moves. */
  lemma ReferralCreditsReferrer(users: seq<User>, referrals: seq<Referral>, s: SignUp, k: nat)
    requires forall j :: 0 <= j < |users| ==> Distinct(users[j], NewUser(s))
    requires s.referralCode.Some? && s.referralCode.value != ""
    requires FindFirst(users, (v: User) => v.referralCode == s.referralCode.value) == Some(k)
    ensures var g := Register(users, referrals, s);
      && g.result == Ok(NewUser(s))
      && |g.users| == |users| + 1 && g.users[|users|] == NewUser(s)
      && g.users[k].balance == users[k].balance + ReferralBonus
      && (forall j :: 0 <= j < |users| && j != k ==> g.users[j] == users[j])
      && g.referrals == referrals + [Referral(users[k].id, s.id)]
  {
    var p := (v: User) => v.referralCode == s.referralCode.value;
    FindFirstPrefix(users, p, NewUser(s), k);
  }

  /** A referral code nobody holds is ignored: the user is created and no
      balance or referral changes. */
  lemma UnknownReferralIgnored(users: seq<User>, referrals: seq<Referral>, s: SignUp)
    requires forall j :: 0 <= j < |users| ==> Distinct(users[j], NewUser(s))
    requires s.referralCode.Some? && s.referralCode.value != s.ownCode
    requires forall j :: 0 <= j < |users| ==> users[j].referralCode != s.referralCode.value
    ensures Register(users, referrals, s) == Registration(Ok(NewUser(s)), users + [NewUser(s)], referrals)
  {
    var created := users + [NewUser(s)];
    assert forall j :: 0 <= j < |created| ==> created[j].referralCode != s.referralCode.value;
  }

  /** A taken id, email, phone or referral code rolls the whole
      registration back. */
  lemma ConflictChangesNothing(users: seq<User>, referrals: seq<Referral>, s: SignUp, k: nat)
    requires k < |users| && !Distinct(users[k], NewUser(s))
    ensures Register(users, referrals, s) == Registration(Err(UniqueViolation), users, referrals)
  {
  }

  /** Registration keeps the unique columns unique. */
  lemma RegisterKeepsUnique(users: seq<User>, referrals: seq<Referral>, s: SignUp)
    requires UniqueUsers(users)
    ensures UniqueUsers(Register(users, referrals, s).users)
  {
    var u := NewUser(s);
    if !exists k :: 0 <= k < |users| && !Distinct(users[k], u) {
      var created := users + [u];
      assert UniqueUsers(created);
    }
  }

  /** Logging in keeps the unique columns unique. */
  lemma AuthenticateKeepsUnique(users: seq<User>, identifier: string, password: string,
                                verify: (string, string) -> bool, now: int, timeText: int -> string)
    requires UniqueUsers(users)
    ensures UniqueUsers(Authenticate(users, identifier, password, verify, now, timeText).users)
  {
  }
}
