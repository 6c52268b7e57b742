/**
 * `UserService`: self-registration, registration with a chosen role, and profile
 * updates, over the user table and the role table. A failure is the message of the
 * `RuntimeException` the service throws; the tables are then left as they were.
 */
module Users {
  import opened Common

  /** A stored password: the encoder's output for a raw password, kept opaque. */
  datatype Secret = Encoded(raw: Option<string>)

  datatype Role = Role(id: nat, name: string)

  /** A row of the user table; `roles` holds the names of the user's roles. */
  datatype User = User(
    id: nat,
    username: string,
    email: string,
    password: Secret,
    firstName: string,
    lastName: string,
    enabled: bool,
    roles: set<string>)

  /** The registration and update form. */
  datatype UserForm = UserForm(
    username: string,
    email: string,
    password: Option<string>,
    firstName: string,
    lastName: string)

  datatype Result<T> = Ok(value: T) | Err(message: string)

  const DefaultRole: string := "ROLE_USER"
  const UsernameTaken: string := "Username already exists"
  const EmailTaken: string := "Email already exists"
  const DefaultRoleMissing: string := "Default role ROLE_USER not found"
  const UserNotFound: string := "User not found"
  /** The message of the `IllegalArgumentException` the BCrypt encoder throws for a null password. */
  const PasswordMissing: string := "rawPassword cannot be null"

  /** The enabled user a registration saves under `id`, with the one role given. */
  function NewUser(id: nat, form: UserForm, role: string): User {
    User(id, form.username, form.email, Encoded(form.password), form.firstName, form.lastName, true, {role})
  }

  /** `updateUser`'s changes: names and email replaced, the password only when a non-empty one is given. */
  function Updated(user: User, form: UserForm): (u: User)
    ensures u.id == user.id && u.username == user.username && u.roles == user.roles && u.enabled == user.enabled
    ensures u.firstName == form.firstName && u.lastName == form.lastName && u.email == form.email
    ensures u.password == (if form.password.Some? && form.password.value != "" then Encoded(form.password) else user.password)
  {
    var u := user.(firstName := form.firstName, lastName := form.lastName, email := form.email);
    if form.password.Some? && form.password.value != "" then u.(password := Encoded(form.password)) else u
  }

  predicate HasUsername(users: map<nat, User>, username: string) {
    exists id :: id in users && users[id].username == username
  }

  predicate HasEmail(users: map<nat, User>, email: string) {
    exists id :: id in users && users[id].email == email
  }

  /** No two users share a username. */
  predicate UniqueUsernames(users: map<nat, User>) {
    forall i, j :: i in users && j in users && i != j ==> users[i].username != users[j].username
  }

  /** No two users share an email. */
  predicate UniqueEmails(users: map<nat, User>) {
    forall i, j :: i in users && j in users && i != j ==> users[i].email != users[j].email
  }

  /** Adding a user whose username and email are both new keeps both unique. */
  lemma AddingFreshUserKeepsUnique(users: map<nat, User>, id: nat, u: User)
    requires id !in users
    requires !HasUsername(users, u.username) && !HasEmail(users, u.email)
    ensures UniqueUsernames(users) ==> UniqueUsernames(users[id := u])
    ensures UniqueEmails(users) ==> UniqueEmails(users[id := u])
  {
    var users' := users[id := u];
    if UniqueUsernames(users) {
      forall i, j | i in users' && j in users' && i != j
        ensures users'[i].username != users'[j].username
      {
        if i == id {
          assert j in users;
        } else if j == id {
          assert i in users;
        }
      }
    }
    if UniqueEmails(users) {
      forall i, j | i in users' && j in users' && i != j
        ensures users'[i].email != users'[j].email
      {
        if i == id {
          assert j in users;
        } else if j == id {
          assert i in users;
        }
      }
    }
  }

  /** The user and role tables, with the identity counters the database keeps. */
  class UserService {
    var users: map<nat, User>
    var roles: map<string, Role>
    var nextUserId: nat
    var nextRoleId: nat

    /**
     * Each user is stored under its own id, below the next id; usernames are unique; and
     * every role a user has exists in the role table.
     */
    ghost predicate Valid()
      reads this
    {
      && (forall id :: id in users ==> users[id].id == id && id < nextUserId)
      && UniqueUsernames(users)
      && (forall id, r :: id in users && r in users[id].roles ==> r in roles)
    }

    constructor (roles: map<string, Role>)
      ensures Valid()
      ensures users == map[] && this.roles == roles
    {
      users := map[];
      this.roles := roles;
      nextUserId := 0;
      nextRoleId := 0;
    }

    /** Saves a new user with the given role under the next id. */
    method Save(form: UserForm, role: string) returns (user: User)
      requires Valid()
      requires role in roles
      requires form.password.Some?
      requires !HasUsername(users, form.username) && !HasEmail(users, form.email)
      modifies this
      ensures Valid()
      ensures user == NewUser(old(nextUserId), form, role)
      ensures users == old(users)[old(nextUserId) := user]
      ensures roles == old(roles) && nextRoleId == old(nextRoleId)
      ensures old(UniqueEmails(users)) ==> UniqueEmails(users)
    {
      user := NewUser(nextUserId, form, role);
      AddingFreshUserKeepsUnique(users, nextUserId, user);
      users := users[nextUserId := user];
      nextUserId := nextUserId + 1;
    }

    /**
     * `registerUser`: a taken username fails first, then a taken email; a null password
     * fails in the encoder; a missing ROLE_USER fails without saving; otherwise an enabled
     * user with exactly ROLE_USER and the encoded password is saved. Usernames, and
     * emails when they were, stay unique.
     */
    method RegisterUser(form: UserForm) returns (r: Result<User>)
      requires Valid()
      modifies this
      ensures Valid()
      ensures roles == old(roles)
      ensures HasUsername(old(users), form.username) ==> r == Err(UsernameTaken) && users == old(users)
      ensures !HasUsername(old(users), form.username) && HasEmail(old(users), form.email) ==>
                r == Err(EmailTaken) && users == old(users)
      ensures !HasUsername(old(users), form.username) && !HasEmail(old(users), form.email) && form.password.None? ==>
                r == Err(PasswordMissing) && users == old(users)
      ensures !HasUsername(old(users), form.username) && !HasEmail(old(users), form.email) && form.password.Some?
              && DefaultRole !in roles ==>
                r == Err(DefaultRoleMissing) && users == old(users)
      ensures !HasUsername(old(users), form.username) && !HasEmail(old(users), form.email) && form.password.Some?
              && DefaultRole in roles ==>
                r == Ok(NewUser(old(nextUserId), form, DefaultRole)) && users == old(users)[old(nextUserId) := r.value]
      ensures old(UniqueEmails(users)) ==> UniqueEmails(users)
    {
      if HasUsername(users, form.username) {
        return Err(UsernameTaken);
      }
      if HasEmail(users, form.email) {
        return Err(EmailTaken);
      }
      if form.password.None? {
        return Err(PasswordMissing);
      }
      if DefaultRole !in roles {
        return Err(DefaultRoleMissing);
      }
      var user := Save(form, DefaultRole);
      return Ok(user);
    }

    /**
     * `registerUserWithRole`: the same duplicate checks and the same encoder failure on a
     * null password, before any role is created; then the named role, created when
     * absent, is the new user's only role.
     */
    method RegisterUserWithRole(form: UserForm, roleName: string) returns (r: Result<User>)
      requires Valid()
      modifies this
      ensures Valid()
      ensures HasUsername(old(users), form.username) ==> r == Err(UsernameTaken) && users == old(users) && roles == old(roles)
      ensures !HasUsername(old(users), form.username) && HasEmail(old(users), form.email) ==>
                r == Err(EmailTaken) && users == old(users) && roles == old(roles)
      ensures !HasUsername(old(users), form.username) && !HasEmail(old(users), form.email) && form.password.None? ==>
                r == Err(PasswordMissing) && users == old(users) && roles == old(roles)
      ensures !HasUsername(old(users), form.username) && !HasEmail(old(users), form.email) && form.password.Some? ==>
                && r == Ok(NewUser(old(nextUserId), form, roleName))
                && users == old(users)[old(nextUserId) := r.value]
                && roles == (if roleName in old(roles) then old(roles) else old(roles)[roleName := Role(old(nextRoleId), roleName)])
      ensures old(UniqueEmails(users)) ==> UniqueEmails(users)
    {
      if HasUsername(users, form.username) {
        return Err(UsernameTaken);
      }
      if HasEmail(users, form.email) {
        return Err(EmailTaken);
      }
      if form.password.None? {
        return Err(PasswordMissing);
      }
      if roleName !in roles {
        roles := roles[roleName := Role(nextRoleId, roleName)];
        nextRoleId := nextRoleId + 1;
      }
      var user := Save(form, roleName);
      return Ok(user);
    }

    /**
     * `updateUser`: an unknown id fails; otherwise only that user changes, as `Updated`
     * says, and the username never changes.
     */
    method UpdateUser(id: nat, form: UserForm) returns (r: Result<User>)
      requires Valid()
      modifies this
      ensures Valid()
      ensures roles == old(roles)
      ensures id !in old(users) ==> r == Err(UserNotFound) && users == old(users)
      ensures id in old(users) ==> r == Ok(Updated(old(users)[id], form)) && users == old(users)[id := r.value]
    {
      if id !in users {
        return Err(UserNotFound);
      }
      var user := Updated(users[id], form);
      users := users[id := user];
      return Ok(user);
    }
  }

  /**
   * The uniqueness invariant forces the duplicate check: a saved user keeps usernames
   * unique only when no existing user had that username.
   */
  lemma {:induction false} RegisteredUsernameWasFree(users: map<nat, User>, id: nat, form: UserForm, role: string)
    requires id !in users
    requires UniqueUsernames(users[id := NewUser(id, form, role)])
    ensures !HasUsername(users, form.username)
  {
    var users' := users[id := NewUser(id, form, role)];
    forall other | other in users
      ensures users[other].username != form.username
    {
      assert other != id && other in users' && id in users';
      assert users'[other] == users[other];
    }
  }
}
