/** The `users` table of server.js and the pure rules of its user routes:
    the credentials match of POST /api/login, the checks of
    POST /api/users, and the permission matrix and field rules of
    PUT /api/users/:id. Form fields the server only tests for truthiness
    are strings, an absent field being the empty string. */
module ServerUsers {
  import opened Common

  /** One row of `users`. The password is stored as sent. */
  datatype User = User(
    id: int,
    username: string,
    password: string,
    role: string,
    name: string,
    phone: Option<string>,
    avatar: Option<string>)

  /** The columns login, account creation and profile update send back:
      everything but the password and the phone. */
  datatype Account = Account(id: int, username: string, role: string, name: string, avatar: Option<string>)

  function AccountOf(u: User): (a: Account)
    ensures a.id == u.id && a.username == u.username && a.role == u.role
    ensures a.name == u.name && a.avatar == u.avatar
  {
    Account(u.id, u.username, u.role, u.name, u.avatar)
  }

  /** The rows of `users` are stored under their own id. */
  ghost predicate Keyed(users: map<int, User>)
  {
    forall k :: k in users ==> users[k].id == k
  }

  /** No two rows share a username. */
  ghost predicate UniqueUsernames(users: map<int, User>)
  {
    forall a, b :: a in users && b in users && users[a].username == users[b].username ==> a == b
  }

  /** Some row other than `except` has this username. */
  predicate UsernameTaken(users: map<int, User>, username: string, except: Option<int>)
  {
    exists k :: k in users && Some(k) != except && users[k].username == username
  }

  // ---------------------------------------------------------------------
  // Login

  /** `WHERE username = ? AND password = ?`. */
  predicate Matches(u: User, username: string, password: string)
  {
    u.username == username && u.password == password
  }

  // ---------------------------------------------------------------------
  // Account creation

  /** The checks of POST /api/users, in the handler's order, before any
      insert: all four fields present, then the role one an admin may
      create, then the username free. `None` lets the insert go ahead. */
  function NewUserCheck(users: map<int, User>, username: string, password: string,
                        role: string, name: string): (e: Option<Failure>)
    ensures e.None? <==>
      username != "" && password != "" && role != "" && name != "" &&
      (role == ROLE_USER || role == ROLE_TECHNICIAN) && !UsernameTaken(users, username, None)
    ensures e == Some(BadRequest) <==>
      username == "" || password == "" || role == "" || name == "" ||
      (role != ROLE_USER && role != ROLE_TECHNICIAN)
    ensures e == Some(Conflict) <==>
      username != "" && password != "" && name != "" &&
      (role == ROLE_USER || role == ROLE_TECHNICIAN) && UsernameTaken(users, username, None)
  {
    if username == "" || password == "" || role == "" || name == "" then Some(BadRequest)
    else if role != ROLE_USER && role != ROLE_TECHNICIAN then Some(BadRequest)
    else if UsernameTaken(users, username, None) then Some(Conflict)
    else None
  }

  // ---------------------------------------------------------------------
  // Profile update

  /** The multipart body of PUT /api/users/:id: the requester's claimed id
      and role, and the optional fields the client pages append. */
  datatype ProfileForm = ProfileForm(
    requesterId: int,
    requesterRole: string,
    username: Option<string>,
    name: Option<string>,
    phone: Option<string>,
    role: Option<string>,
    password: Option<string>)

  /** A field JavaScript treats as true: present and not empty. */
  predicate Truthy(s: Option<string>)
  {
    s.Some? && s.value != ""
  }

  /** The request asks for a username other than the current one. */
  predicate NewUsername(target: User, f: ProfileForm)
  {
    Truthy(f.username) && f.username.value != target.username
  }

  /** One `column = ?` entry of the profile UPDATE. */
  datatype UserAssignment =
    | SetUsername(username: string)
    | SetName(name: string)
    | SetPassword(password: string)
    | SetAvatar(avatar: string)

  /** What the request writes. An admin editing their own record writes
      only a new avatar; in every other allowed case a new username, a
      non-empty name, a non-empty password and a new avatar are written.
      Role and phone are never written. */
  function Edited(target: User, f: ProfileForm, avatar: Option<string>, adminSelf: bool): (r: User)
    ensures r.id == target.id && r.role == target.role && r.phone == target.phone
    ensures adminSelf ==> r.username == target.username && r.name == target.name && r.password == target.password
    ensures avatar.None? ==> r.avatar == target.avatar
    ensures r.username != target.username ==> !adminSelf && NewUsername(target, f)
    ensures !adminSelf && NewUsername(target, f) ==> r.username == f.username.value
    ensures r.name != target.name ==> !adminSelf && Truthy(f.name)
    ensures !adminSelf && Truthy(f.name) ==> r.name == f.name.value
    ensures r.password != target.password ==> !adminSelf && Truthy(f.password)
    ensures !adminSelf && Truthy(f.password) ==> r.password == f.password.value
    ensures avatar.Some? ==> r.avatar == avatar
  {
    var avatar' := if avatar.Some? then avatar else target.avatar;
    if adminSelf then target.(avatar := avatar')
    else
      target.(username := if NewUsername(target, f) then f.username.value else target.username,
              name := if Truthy(f.name) then f.name.value else target.name,
              password := if Truthy(f.password) then f.password.value else target.password,
              avatar := avatar')
  }

  /** One `column = ?` entry applied to the row. */
  function ApplyUser(u: User, a: UserAssignment): User
  {
    match a
    case SetUsername(s) => u.(username := s)
    case SetName(s) => u.(name := s)
    case SetPassword(s) => u.(password := s)
    case SetAvatar(s) => u.(avatar := Some(s))
  }

  /** `UPDATE users SET a1, a2, ...`: the assignments applied left to right. */
  function ApplyUserAll(u: User, updates: seq<UserAssignment>): User
    decreases |updates|
  {
    if updates == [] then u
    else ApplyUser(ApplyUserAll(u, updates[..|updates| - 1]), updates[|updates| - 1])
  }

  lemma ApplyUserAllSnoc(u: User, updates: seq<UserAssignment>, a: UserAssignment)
    ensures ApplyUserAll(u, updates + [a]) == ApplyUser(ApplyUserAll(u, updates), a)
  {
    assert (updates + [a])[..|updates|] == updates;
  }

  /** The handler's construction of the SET list: for an admin editing
      their own record only the avatar push, otherwise the username, name,
      password and avatar pushes, each guarded by its field being truthy
      (and the username by differing from the stored one). The list is
      empty exactly when nothing is written, and executing it yields the
      row `Edited` describes. */
  method BuildUserAssignments(target: User, f: ProfileForm, avatar: Option<string>, adminSelf: bool)
    returns (updates: seq<UserAssignment>)
    ensures updates == [] <==> !WritesSomething(target, f, avatar, adminSelf)
    ensures ApplyUserAll(target, updates) == Edited(target, f, avatar, adminSelf)
  {
    updates := [];
    ghost var row := target;
    if adminSelf {
      if avatar.Some? {
        updates, row := PushUser(target, updates, row, SetAvatar(avatar.value));
      }
    } else {
      if NewUsername(target, f) {
        updates, row := PushUser(target, updates, row, SetUsername(f.username.value));
      }
      if Truthy(f.name) {
        updates, row := PushUser(target, updates, row, SetName(f.name.value));
      }
      if Truthy(f.password) {
        updates, row := PushUser(target, updates, row, SetPassword(f.password.value));
      }
      if avatar.Some? {
        updates, row := PushUser(target, updates, row, SetAvatar(avatar.value));
      }
    }
  }

  /** `updates.push(a)`, with the row the list so far produces. */
  method PushUser(u: User, updates: seq<UserAssignment>, ghost row: User, a: UserAssignment)
    returns (updates': seq<UserAssignment>, ghost row': User)
    requires ApplyUserAll(u, updates) == row
    ensures updates' == updates + [a] && row' == ApplyUser(row, a) && ApplyUserAll(u, updates') == row'
  {
    ApplyUserAllSnoc(u, updates, a);
    updates' := updates + [a];
    row' := ApplyUser(row, a);
  }

  /** The SET list is non-empty. */
  predicate WritesSomething(target: User, f: ProfileForm, avatar: Option<string>, adminSelf: bool)
  {
    if adminSelf then avatar.Some?
    else NewUsername(target, f) || Truthy(f.name) || Truthy(f.password) || avatar.Some?
  }

  /** The outcome of PUT /api/users/:id, with the handler's checks in its
      order: unknown target 404; neither self nor admin 403; a new username
      another row holds 409; an admin editing another admin 403; nothing
      to write 400; else the edited row. */
  function ProfileOutcome(users: map<int, User>, targetId: int, f: ProfileForm, avatar: Option<string>): (r: Result<User>)
    ensures r.Err? ==> r.failure in {NotFound, Forbidden, Conflict, BadRequest}
    ensures r == Err(NotFound) <==> targetId !in users
    ensures targetId in users ==>
      var target := users[targetId];
      var isSelf := f.requesterId == targetId;
      var isAdmin := f.requesterRole == ROLE_ADMIN;
      var taken := NewUsername(target, f) && UsernameTaken(users, f.username.value, Some(targetId));
      var adminOnAdmin := isAdmin && !isSelf && target.role == ROLE_ADMIN;
      && (r == Err(Forbidden) <==> (!isSelf && !isAdmin) || (!taken && adminOnAdmin))
      && (r == Err(Conflict) <==> (isSelf || isAdmin) && taken)
      && (r == Err(BadRequest) <==>
            (isSelf || isAdmin) && !taken && !adminOnAdmin && !WritesSomething(target, f, avatar, isSelf && isAdmin))
      && (r.Ok? ==> r.value == Edited(target, f, avatar, isSelf && isAdmin))
  {
    if targetId !in users then Err(NotFound)
    else
      var target := users[targetId];
      var isSelf := f.requesterId == targetId;
      var isAdmin := f.requesterRole == ROLE_ADMIN;
      if !isSelf && !isAdmin then Err(Forbidden)
      else if NewUsername(target, f) && UsernameTaken(users, f.username.value, Some(targetId)) then Err(Conflict)
      else if isAdmin && !isSelf && target.role == ROLE_ADMIN then Err(Forbidden)
      else if !WritesSomething(target, f, avatar, isSelf && isAdmin) then Err(BadRequest)
      else Ok(Edited(target, f, avatar, isSelf && isAdmin))
  }

  /** The permission matrix: a successful update was made by the target
      themself or by an admin, and never by an admin on another admin. */
  lemma ProfilePermissions(users: map<int, User>, targetId: int, f: ProfileForm, avatar: Option<string>)
    requires ProfileOutcome(users, targetId, f, avatar).Ok?
    ensures targetId in users
    ensures f.requesterId == targetId || f.requesterRole == ROLE_ADMIN
    ensures f.requesterRole == ROLE_ADMIN && f.requesterId != targetId ==> users[targetId].role != ROLE_ADMIN
  {
  }

  /** An admin editing their own record changes at most the avatar. */
  lemma AdminSelfEditsOnlyAvatar(users: map<int, User>, targetId: int, f: ProfileForm, avatar: Option<string>)
    requires f.requesterId == targetId && f.requesterRole == ROLE_ADMIN
    requires ProfileOutcome(users, targetId, f, avatar).Ok?
    ensures ProfileOutcome(users, targetId, f, avatar).value == users[targetId].(avatar := avatar)
  {
  }

  /** A successful update keeps usernames unique. */
  lemma ProfileKeepsUsernamesUnique(users: map<int, User>, targetId: int, f: ProfileForm, avatar: Option<string>)
    requires Keyed(users) && UniqueUsernames(users)
    requires ProfileOutcome(users, targetId, f, avatar).Ok?
    ensures var u := ProfileOutcome(users, targetId, f, avatar).value;
            u.id == targetId && UniqueUsernames(users[targetId := u])
  {
    var u := ProfileOutcome(users, targetId, f, avatar).value;
    forall k | k in users && k != targetId
      ensures users[k].username != u.username
    {
      if u.username != users[targetId].username {
        assert !UsernameTaken(users, f.username.value, Some(targetId));
      }
    }
  }

  /** An edit that carries only a role or a phone change is refused with
      400, since the handler writes neither column. */
  lemma RoleOrPhoneOnlyEditRefused(users: map<int, User>, targetId: int, f: ProfileForm)
    requires targetId in users && f.requesterRole == ROLE_ADMIN && users[targetId].role != ROLE_ADMIN
    requires f.username.None? && f.name.None? && f.password.None?
    ensures ProfileOutcome(users, targetId, f, None) == Err(BadRequest)
  {
  }
}
