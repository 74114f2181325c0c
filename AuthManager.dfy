/** Users, sessions and admin rights (js/AuthManager.js). */
module Auth {
  import opened Errors
  import opened Passwords
  import Lists

  const TWO_POW_31: int := 0x8000_0000
  const TWO_POW_32: int := 0x1_0000_0000

  /** JavaScript's `ToInt32`: the integer congruent to `x` modulo 2^32 in [-2^31, 2^31). */
  function Wrap32(x: int): (r: int)
    ensures -TWO_POW_31 <= r < TWO_POW_31
    ensures -TWO_POW_31 <= x < TWO_POW_31 ==> r == x
  {
    (x + TWO_POW_31) % TWO_POW_32 - TWO_POW_31
  }

  /** Adding before or after the wrap-around lands on the same int32. */
  lemma Wrap32AddLeft(a: int, b: int)
    ensures Wrap32(Wrap32(a) + b) == Wrap32(a + b)
  {
    var q := (a + TWO_POW_31) / TWO_POW_32;
    assert Wrap32(a) == a - q * TWO_POW_32;
    ModuloShift(a + b + TWO_POW_31, q);
  }

  lemma ModuloShift(x: int, q: int)
    ensures (x - q * TWO_POW_32) % TWO_POW_32 == x % TWO_POW_32
  {
    var r := x % TWO_POW_32;
    var d := x / TWO_POW_32;
    assert x == d * TWO_POW_32 + r;
    assert x - q * TWO_POW_32 == (d - q) * TWO_POW_32 + r;
  }

  /** The password hash: `h := int32(31 * h + code)` over the characters, from 0. */
  function HashOf(password: string): (h: int)
    ensures -TWO_POW_31 <= h < TWO_POW_31
  {
    if password == [] then 0
    else Wrap32(31 * HashOf(password[..|password| - 1]) + password[|password| - 1] as int)
  }

  /** A user record; `passwordHash` holds the hash as a number rather than its decimal string. */
  datatype User = User(
    userId: string,
    username: string,
    passwordHash: int,
    role: string,
    accountNumbers: seq<int>,
    createdAt: int,
    lastLogin: Option<int>)

  datatype Session = Session(userId: string, loginTime: int, lastActivity: int)

  const ADMIN_ROLE: string := "admin"
  const USER_ROLE: string := "user"

  /** `accountNumbers.push(n)` unless already present. */
  function Linked(accountNumbers: seq<int>, accountNumber: int): (r: seq<int>)
    ensures accountNumber in r
    ensures forall n :: n in r <==> n in accountNumbers || n == accountNumber
    ensures accountNumbers <= r
    ensures Lists.Distinct(accountNumbers) ==> Lists.Distinct(r)
  {
    if accountNumber in accountNumbers then accountNumbers else accountNumbers + [accountNumber]
  }

  /** Linking the same account twice is linking it once. */
  lemma LinkIdempotent(accountNumbers: seq<int>, accountNumber: int)
    ensures Linked(Linked(accountNumbers, accountNumber), accountNumber) == Linked(accountNumbers, accountNumber)
  {
  }

  /** No two users share a username. */
  ghost predicate UniqueUsernames(users: map<string, User>) {
    forall a, b :: a in users && b in users && users[a].username == users[b].username ==> a == b
  }

  /** Storing a user whose name nobody has keeps the names unique. */
  lemma AddingNewNameKeepsNamesUnique(users: map<string, User>, userId: string, user: User)
    requires UniqueUsernames(users)
    requires forall id :: id in users ==> users[id].username != user.username
    ensures UniqueUsernames(users[userId := user])
  {
    var after := users[userId := user];
    forall a, b | a in after && b in after && after[a].username == after[b].username ensures a == b {
      if a != userId && b != userId {
        assert after[a] == users[a] && after[b] == users[b];
      }
    }
  }

  /** The sessions after validating `sessionId` at `now`: a known session's last activity moves to `now`. */
  function Touched(sessions: map<string, Session>, sessionId: string, now: int): (r: map<string, Session>)
    ensures r.Keys == sessions.Keys
    ensures sessionId in sessions ==> r[sessionId] == sessions[sessionId].(lastActivity := now)
                                      && r[sessionId].userId == sessions[sessionId].userId
  {
    if sessionId in sessions then sessions[sessionId := sessions[sessionId].(lastActivity := now)] else sessions
  }

  /** Validating the same session twice at the same time is validating it once. */
  lemma TouchIdempotent(sessions: map<string, Session>, sessionId: string, now: int)
    ensures Touched(Touched(sessions, sessionId, now), sessionId, now) == Touched(sessions, sessionId, now)
  {
  }

  /**
   * The registry's invariant: the order lists each user id once, each user is stored
   * under its own id with distinct account numbers, usernames are unique, and admins
   * and sessions refer to stored users.
   */
  ghost predicate Consistent(users: map<string, User>, userOrder: seq<string>, sessions: map<string, Session>, adminUsers: set<string>) {
    && (forall id :: id in userOrder <==> id in users)
    && Lists.Distinct(userOrder)
    && (forall id :: id in users ==> users[id].userId == id && Lists.Distinct(users[id].accountNumbers))
    && UniqueUsernames(users)
    && adminUsers <= users.Keys
    && (forall s :: s in sessions ==> sessions[s].userId in users)
  }

  /** `createUser`'s update keeps the invariant. */
  lemma AddUserKeepsConsistent(users: map<string, User>, userOrder: seq<string>, sessions: map<string, Session>, adminUsers: set<string>,
                               user: User, admin: bool)
    requires Consistent(users, userOrder, sessions, adminUsers)
    requires user.accountNumbers == []
    requires forall id :: id in users ==> users[id].username != user.username
    ensures Consistent(users[user.userId := user],
                       if user.userId in users then userOrder else userOrder + [user.userId],
                       sessions,
                       if admin then adminUsers + {user.userId} else adminUsers)
  {
    AddingNewNameKeepsNamesUnique(users, user.userId, user);
    if user.userId !in users {
      var order := userOrder + [user.userId];
      forall i, j | 0 <= i < j < |order| ensures order[i] != order[j] {
        if j == |userOrder| {
          assert userOrder[i] in users;
        }
      }
    }
  }

  class AuthManager {
    /** userId -> user. */
    var users: map<string, User>
    /** The user ids in insertion order, the order `users.values()` visits them. */
    var userOrder: seq<string>
    /** sessionId -> session. */
    var sessions: map<string, Session>
    var adminUsers: set<string>

    ghost predicate Valid()
      reads this
    {
      Consistent(users, userOrder, sessions, adminUsers)
    }

    constructor ()
      ensures Valid()
      ensures users == map[] && userOrder == [] && sessions == map[] && adminUsers == {}
    {
      users := map[];
      userOrder := [];
      sessions := map[];
      adminUsers := {};
    }

    /** `hashPassword(password)`: the loop over the UTF-16 code units, wrapping to int32 at each step. */
    method HashPassword(password: string) returns (hash: int)
      ensures hash == HashOf(password)
      ensures -TWO_POW_31 <= hash < TWO_POW_31
    {
      hash := 0;
      var i := 0;
      while i < |password|
        invariant 0 <= i <= |password|
        invariant hash == HashOf(password[..i])
      {
        var code := password[i] as int;
        assert password[..i + 1][..i] == password[..i];
        Wrap32AddLeft(hash * 32, code - hash);
        hash := Wrap32(Wrap32(hash * 32) - hash + code);
        i := i + 1;
      }
      assert password[..i] == password;
    }

    /** `findUserByUsername(username)`: the user with that name, visiting users in insertion order. */
    method FindUserByUsername(username: string) returns (r: Option<User>)
      requires Valid()
      ensures r.Some? <==> exists id :: id in users && users[id].username == username
      ensures r.Some? ==> r.value.userId in users && users[r.value.userId] == r.value && r.value.username == username
    {
      var i := 0;
      while i < |userOrder|
        invariant 0 <= i <= |userOrder|
        invariant forall j :: 0 <= j < i ==> users[userOrder[j]].username != username
      {
        var user := users[userOrder[i]];
        if user.username == username {
          return Some(user);
        }
        i := i + 1;
      }
      return None;
    }

    /**
     * `createUser(username, password, role = 'user')` with the fresh id `userId` and the
     * clock reading `now`: refuses a weak password, then a taken username; otherwise
     * stores the user and makes it an admin when the role is admin.
     */
    method CreateUser(username: string, password: string, userId: string, now: int, role: string := USER_ROLE)
      returns (r: Result<string>)
      requires Valid()
      modifies this
      ensures Valid()
      ensures !IsStrong(password) ==> r == Err(WeakPassword)
      ensures IsStrong(password) && (exists id :: id in old(users) && old(users)[id].username == username) ==> r == Err(DuplicateUsername)
      ensures r.Ok? <==> IsStrong(password) && forall id :: id in old(users) ==> old(users)[id].username != username
      ensures r.Err? ==> users == old(users) && userOrder == old(userOrder) && adminUsers == old(adminUsers)
      ensures r.Ok? ==> r.value == userId
                        && users == old(users)[userId := User(userId, username, HashOf(password), role, [], now, None)]
                        && adminUsers == old(adminUsers) + (if role == ADMIN_ROLE then {userId} else {})
                        && userOrder == if userId in old(users) then old(userOrder) else old(userOrder) + [userId]
      ensures sessions == old(sessions)
    {
      var validation := Validate(password);
      if !validation.isValid {
        return Err(WeakPassword);
      }
      var existing := FindUserByUsername(username);
      if existing.Some? {
        return Err(DuplicateUsername);
      }
      assert forall id :: id in users ==> users[id].username != username;
      var passwordHash := HashPassword(password);
      var user := User(userId, username, passwordHash, role, [], now, None);
      ghost var before := users;
      if userId !in users {
        userOrder := userOrder + [userId];
      }
      users := users[userId := user];
      AddUserKeepsConsistent(before, old(userOrder), sessions, adminUsers, user, role == ADMIN_ROLE);
      if role == ADMIN_ROLE {
        adminUsers := adminUsers + {userId};
      }
      return Ok(userId);
    }

    /**
     * `login(username, password)` with the fresh id `sessionId` and the clock reading `now`:
     * succeeds exactly when a user has that name and the password's hash.
     */
    method Login(username: string, password: string, sessionId: string, now: int) returns (r: Result<string>)
      requires Valid()
      modifies this
      ensures Valid()
      ensures r.Ok? <==> exists id :: id in old(users) && old(users)[id].username == username && old(users)[id].passwordHash == HashOf(password)
      ensures r.Err? ==> r.error == BadCredentials && users == old(users) && sessions == old(sessions)
      ensures r.Ok? ==> r.value == sessionId
                        && (exists id :: id in old(users) && old(users)[id].username == username
                              && sessions == old(sessions)[sessionId := Session(id, now, now)]
                              && users == old(users)[id := old(users)[id].(lastLogin := Some(now))])
      ensures userOrder == old(userOrder) && adminUsers == old(adminUsers)
    {
      var user := FindUserByUsername(username);
      if user.None? {
        return Err(BadCredentials);
      }
      var passwordHash := HashPassword(password);
      if user.value.passwordHash != passwordHash {
        return Err(BadCredentials);
      }
      var id := user.value.userId;
      sessions := sessions[sessionId := Session(id, now, now)];
      users := users[id := users[id].(lastLogin := Some(now))];
      return Ok(sessionId);
    }

    /** `logout(sessionId)`: true exactly when the session existed; it is gone afterwards. */
    method Logout(sessionId: string) returns (existed: bool)
      requires Valid()
      modifies this
      ensures Valid()
      ensures existed <==> sessionId in old(sessions)
      ensures sessions == old(sessions) - {sessionId}
      ensures users == old(users) && userOrder == old(userOrder) && adminUsers == old(adminUsers)
    {
      if sessionId in sessions {
        sessions := sessions - {sessionId};
        return true;
      }
      return false;
    }

    /** `validateSession(sessionId)` at clock reading `now`: the session, its last activity moved to `now`. */
    method ValidateSession(sessionId: string, now: int) returns (r: Option<Session>)
      requires Valid()
      modifies this
      ensures Valid()
      ensures r.Some? <==> sessionId in old(sessions)
      ensures sessions == Touched(old(sessions), sessionId, now)
      ensures r.Some? ==> r.value == sessions[sessionId]
      ensures users == old(users) && userOrder == old(userOrder) && adminUsers == old(adminUsers)
    {
      if sessionId !in sessions {
        return None;
      }
      var session := sessions[sessionId].(lastActivity := now);
      sessions := sessions[sessionId := session];
      return Some(session);
    }

    /** `isAdmin(sessionId)`: false for an unknown session, otherwise whether its user is an admin. */
    method IsAdmin(sessionId: string, now: int) returns (b: bool)
      requires Valid()
      modifies this
      ensures Valid()
      ensures b <==> sessionId in old(sessions) && old(sessions)[sessionId].userId in adminUsers
      ensures sessions == Touched(old(sessions), sessionId, now)
      ensures users == old(users) && userOrder == old(userOrder) && adminUsers == old(adminUsers)
    {
      var session := ValidateSession(sessionId, now);
      if session.None? {
        return false;
      }
      return session.value.userId in adminUsers;
    }

    /** `linkAccountToUser(userId, n)`: refuses an unknown user; adds `n` to its accounts unless already there. */
    method LinkAccountToUser(userId: string, accountNumber: int) returns (r: Result<()>)
      requires Valid()
      modifies this
      ensures Valid()
      ensures r.Ok? <==> userId in old(users)
      ensures r.Err? ==> r.error == UnknownUser && users == old(users)
      ensures r.Ok? ==> users == old(users)[userId := old(users)[userId].(accountNumbers := Linked(old(users)[userId].accountNumbers, accountNumber))]
      ensures sessions == old(sessions) && userOrder == old(userOrder) && adminUsers == old(adminUsers)
    {
      if userId !in users {
        return Err(UnknownUser);
      }
      var user := users[userId];
      if accountNumber !in user.accountNumbers {
        users := users[userId := user.(accountNumbers := user.accountNumbers + [accountNumber])];
      }
      return Ok(());
    }

    /** `userOwnsAccount(sessionId, n)`: the session exists and its user's accounts include `n`. */
    method UserOwnsAccount(sessionId: string, accountNumber: int, now: int) returns (b: bool)
      requires Valid()
      modifies this
      ensures Valid()
      ensures b <==> sessionId in old(sessions) && old(sessions)[sessionId].userId in users
                     && accountNumber in users[old(sessions)[sessionId].userId].accountNumbers
      ensures sessions == Touched(old(sessions), sessionId, now)
      ensures users == old(users) && userOrder == old(userOrder) && adminUsers == old(adminUsers)
    {
      var session := ValidateSession(sessionId, now);
      if session.None? {
        return false;
      }
      var userId := session.value.userId;
      return userId in users && accountNumber in users[userId].accountNumbers;
    }

    /**
     * `changePassword(sessionId, old, new)`: refuses an unknown session, then a wrong old
     * password, then a weak new one; otherwise stores the new password's hash.
     */
    method ChangePassword(sessionId: string, oldPassword: string, newPassword: string, now: int) returns (r: Result<bool>)
      requires Valid()
      modifies this
      ensures Valid()
      ensures sessionId !in old(sessions) ==> r == Err(InvalidSession) && sessions == old(sessions)
      ensures sessionId in old(sessions) ==>
        var userId := old(sessions)[sessionId].userId;
        var user := old(users)[userId];
        && sessions == Touched(old(sessions), sessionId, now)
        && (user.passwordHash != HashOf(oldPassword) ==> r == Err(WrongOldPassword))
        && (user.passwordHash == HashOf(oldPassword) && !IsStrong(newPassword) ==> r == Err(WeakPassword))
        && (r.Ok? <==> user.passwordHash == HashOf(oldPassword) && IsStrong(newPassword))
        && (r.Ok? ==> r.value && users == old(users)[userId := user.(passwordHash := HashOf(newPassword))])
      ensures r.Err? ==> users == old(users)
      ensures userOrder == old(userOrder) && adminUsers == old(adminUsers)
    {
      var session := ValidateSession(sessionId, now);
      if session.None? {
        return Err(InvalidSession);
      }
      var userId := session.value.userId;
      var user := users[userId];
      var oldPasswordHash := HashPassword(oldPassword);
      if user.passwordHash != oldPasswordHash {
        return Err(WrongOldPassword);
      }
      var validation := Validate(newPassword);
      if !validation.isValid {
        return Err(WeakPassword);
      }
      var newHash := HashPassword(newPassword);
      users := users[userId := user.(passwordHash := newHash)];
      return Ok(true);
    }
  }
}
