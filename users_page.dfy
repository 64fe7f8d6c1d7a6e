/** The admin's account page, client/src/pages/Users.jsx: the member list,
    the new-account form and its check, the edit dialog with its
    changed-field flags and request body, the in-place replacement of an
    edited entry, and the grouping of the list by role. */
module UsersPage {
  import opened Common
  import opened ServerUsers
  import opened ServerDatabase

  /** One entry of the list. GET /api/users sends no phone; the reply of
      an account creation has no password and no avatar; the reply of an
      edit has no password. A missing field is `None`. */
  datatype Member = Member(id: int, username: string, role: string, name: string,
                           password: Option<string>, phone: Option<string>, avatar: Option<string>)

  /** An entry of GET /api/users. */
  function Listed(u: User): (m: Member)
    ensures m.id == u.id && m.username == u.username && m.role == u.role && m.name == u.name
    ensures m.password == Some(u.password) && m.phone.None? && m.avatar == u.avatar
  {
    Member(u.id, u.username, u.role, u.name, Some(u.password), None, u.avatar)
  }

  /** An entry built from an account reply. */
  function FromAccount(a: Account): (m: Member)
    ensures m.id == a.id && m.username == a.username && m.role == a.role && m.name == a.name
    ensures m.password.None? && m.phone.None? && m.avatar == a.avatar
  {
    Member(a.id, a.username, a.role, a.name, None, None, a.avatar)
  }

  // ---------------------------------------------------------------------
  // The list

  /** `prev.map((u) => (u.id === data.id ? data : u))`. */
  function ReplaceById(list: seq<Member>, data: Member): (r: seq<Member>)
    ensures |r| == |list|
    ensures forall i :: 0 <= i < |list| ==> r[i] == if list[i].id == data.id then data else list[i]
  {
    if list == [] then [] else [if list[0].id == data.id then data else list[0]] + ReplaceById(list[1..], data)
  }

  /** The ids of the list, in order. */
  function Ids(list: seq<Member>): (ids: seq<int>)
    ensures |ids| == |list| && forall i :: 0 <= i < |list| ==> ids[i] == list[i].id
  {
    if list == [] then [] else [list[0].id] + Ids(list[1..])
  }

  /** Replacing by id keeps every id in its place, puts the new entry
      wherever its id was, and leaves every other entry alone; doing it
      twice is doing it once. */
  lemma ReplaceByIdFacts(list: seq<Member>, data: Member)
    ensures Ids(ReplaceById(list, data)) == Ids(list)
    ensures forall i :: 0 <= i < |list| && list[i].id == data.id ==> ReplaceById(list, data)[i] == data
    ensures forall i :: 0 <= i < |list| && list[i].id != data.id ==> ReplaceById(list, data)[i] == list[i]
    ensures ReplaceById(ReplaceById(list, data), data) == ReplaceById(list, data)
  {
  }

  /** `users.filter((u) => u.role === role)`. */
  function WithRole(list: seq<Member>, role: string): (r: seq<Member>)
    ensures |r| <= |list|
    ensures forall i :: 0 <= i < |r| ==> r[i].role == role && r[i] in list
  {
    if list == [] then []
    else (if list[0].role == role then [list[0]] else []) + WithRole(list[1..], role)
  }

  /** Filtering distributes over concatenation: it keeps the original
      order. */
  lemma {:induction false} WithRoleConcat(a: seq<Member>, b: seq<Member>, role: string)
    ensures WithRole(a + b, role) == WithRole(a, role) + WithRole(b, role)
  {
    if a == [] {
      assert a + b == b;
    } else {
      assert (a + b)[1..] == a[1..] + b;
      WithRoleConcat(a[1..], b, role);
    }
  }

  /** Every entry with the role is kept. */
  lemma {:induction false} WithRoleKeeps(list: seq<Member>, role: string, i: int)
    requires 0 <= i < |list| && list[i].role == role
    ensures list[i] in WithRole(list, role)
  {
    if i > 0 {
      WithRoleKeeps(list[1..], role, i - 1);
    }
  }

  /** The `grouped` object. */
  datatype Groups = Groups(admins: seq<Member>, technicians: seq<Member>, residents: seq<Member>)

  function Grouped(list: seq<Member>): (g: Groups)
    ensures forall m :: m in g.admins ==> m.role == ROLE_ADMIN
    ensures forall m :: m in g.technicians ==> m.role == ROLE_TECHNICIAN
    ensures forall m :: m in g.residents ==> m.role == ROLE_USER
  {
    Groups(WithRole(list, ROLE_ADMIN), WithRole(list, ROLE_TECHNICIAN), WithRole(list, ROLE_USER))
  }

  /** The three groups are disjoint, every entry of a known role is in
      its group, and together they hold no more entries than the list. */
  lemma {:induction false} GroupedPartition(list: seq<Member>)
    ensures var g := Grouped(list);
      && (forall m :: m in g.admins ==> m !in g.technicians && m !in g.residents)
      && (forall m :: m in g.technicians ==> m !in g.residents)
      && (forall i :: 0 <= i < |list| && list[i].role in {ROLE_ADMIN, ROLE_TECHNICIAN, ROLE_USER} ==>
            list[i] in g.admins || list[i] in g.technicians || list[i] in g.residents)
      && |g.admins| + |g.technicians| + |g.residents| <= |list|
    decreases |list|
  {
    forall i | 0 <= i < |list| && list[i].role in {ROLE_ADMIN, ROLE_TECHNICIAN, ROLE_USER}
      ensures var g := Grouped(list); list[i] in g.admins || list[i] in g.technicians || list[i] in g.residents
    {
      WithRoleKeeps(list, list[i].role, i);
    }
    if list != [] {
      GroupedPartition(list[1..]);
    }
  }

  /** The edit button: shown for every entry except admins. */
  predicate ShowsEditButton(m: Member)
  {
    m.role != ROLE_ADMIN
  }

  // ---------------------------------------------------------------------
  // New account

  /** The new-account form; the role buttons only pick 'user' or
      'technician'. */
  datatype CreateForm = CreateForm(name: string, username: string, password: string, phone: string, role: string)

  const EMPTY_CREATE_FORM: CreateForm := CreateForm("", "", "", "", ROLE_USER)

  /** `handleCreateUser`'s check: name, username and password present. */
  predicate CreateFormFilled(f: CreateForm)
  {
    f.name != "" && f.username != "" && f.password != ""
  }

  /** A filled form whose role came from the role buttons passes the
      server's 400 checks; only a taken username can still stop it. */
  lemma FilledFormPassesServerChecks(users: map<int, User>, f: CreateForm)
    requires CreateFormFilled(f) && (f.role == ROLE_USER || f.role == ROLE_TECHNICIAN)
    ensures NewUserCheck(users, f.username, f.password, f.role, f.name) != Some(BadRequest)
    ensures NewUserCheck(users, f.username, f.password, f.role, f.name).None? <==> !UsernameTaken(users, f.username, None)
  {
  }

  // ---------------------------------------------------------------------
  // Edit dialog

  /** The dialog's fields, as `openEditModal` fills them. */
  datatype EditForm = EditForm(username: string, name: string, password: string, phone: string, role: string)

  function OpenedForm(m: Member): (f: EditForm)
    ensures f.username == m.username && f.name == m.name && f.password == "" && f.role == m.role
    ensures f.phone == if m.phone.Some? then m.phone.value else ""
  {
    EditForm(m.username, m.name, "", if m.phone.Some? then m.phone.value else "", m.role)
  }

  /** The six changed-field flags of `handleEditSubmit`. */
  datatype EditFlags = EditFlags(username: bool, name: bool, phone: bool, role: bool, password: bool, avatar: bool)

  function Flags(f: EditForm, m: Member, avatarFile: Option<string>): (fl: EditFlags)
    ensures fl.username <==> f.username != m.username
    ensures fl.name <==> f.name != m.name
    ensures fl.phone <==> f.phone != (if m.phone.Some? then m.phone.value else "")
    ensures fl.role <==> f.role != m.role
    ensures fl.password <==> f.password != ""
    ensures fl.avatar <==> avatarFile.Some?
  {
    EditFlags(f.username != m.username, f.name != m.name,
              f.phone != (if m.phone.Some? then m.phone.value else ""),
              f.role != m.role, |f.password| > 0, avatarFile.Some?)
  }

  predicate AnyFlag(fl: EditFlags)
  {
    fl.username || fl.name || fl.phone || fl.role || fl.password || fl.avatar
  }

  /** A dialog opened on an entry and not touched has no flag set. */
  lemma UntouchedDialogHasNoChange(m: Member)
    ensures !AnyFlag(Flags(OpenedForm(m), m, None))
  {
  }

  /** The body `handleEditSubmit` appends field by field: the requester,
      then exactly the flagged fields. */
  method BuildEditBody(requesterId: int, requesterRole: string, f: EditForm, fl: EditFlags)
    returns (body: ProfileForm)
    ensures body.requesterId == requesterId && body.requesterRole == requesterRole
    ensures body.username == (if fl.username then Some(f.username) else None)
    ensures body.name == (if fl.name then Some(f.name) else None)
    ensures body.phone == (if fl.phone then Some(f.phone) else None)
    ensures body.role == (if fl.role then Some(f.role) else None)
    ensures body.password == (if fl.password then Some(f.password) else None)
  {
    body := ProfileForm(requesterId, requesterRole, None, None, None, None, None);
    if fl.username {
      body := body.(username := Some(f.username));
    }
    if fl.name {
      body := body.(name := Some(f.name));
    }
    if fl.phone {
      body := body.(phone := Some(f.phone));
    }
    if fl.role {
      body := body.(role := Some(f.role));
    }
    if fl.password {
      body := body.(password := Some(f.password));
    }
  }

  /** The dialog's role and phone edits are lost: when nothing but the
      role, the phone or a blanked name is flagged, the server answers
      400. */
  lemma RoleOrPhoneEditRefused(users: map<int, User>, m: Member, f: EditForm, adminId: int)
    requires m.id in users && users[m.id].role != ROLE_ADMIN
    requires var fl := Flags(f, m, None); !fl.username && !fl.password && (fl.name ==> f.name == "")
    ensures var fl := Flags(f, m, None);
            var body := ProfileForm(adminId, ROLE_ADMIN,
                                    if fl.username then Some(f.username) else None,
                                    if fl.name then Some(f.name) else None,
                                    if fl.phone then Some(f.phone) else None,
                                    if fl.role then Some(f.role) else None,
                                    if fl.password then Some(f.password) else None);
            ProfileOutcome(users, m.id, body, None) == Err(BadRequest)
  {
  }

  /** The messages of the page. */
  datatype Notice = Cleared | Incomplete | NothingToSave | Refused(failure: Failure)

  class UsersPage {
    const db: Database
    const adminId: int
    const adminRole: string
    var users: seq<Member>
    var form: CreateForm
    var formError: Notice
    var editUser: Option<Member>
    var editForm: EditForm
    var editAvatarFile: Option<string>
    var editError: Notice

    ghost predicate Valid()
      reads this, db
    {
      db.Valid() && (form.role == ROLE_USER || form.role == ROLE_TECHNICIAN)
    }

    /** The page as it mounts, with the list GET /api/users returned. */
    constructor (server: Database, id: int, role: string, listed: seq<Member>)
      requires server.Valid()
      ensures Valid() && db == server && adminId == id && adminRole == role
      ensures users == listed && form == EMPTY_CREATE_FORM && editUser.None?
    {
      db := server;
      adminId := id;
      adminRole := role;
      users := listed;
      form := EMPTY_CREATE_FORM;
      formError := Cleared;
      editUser := None;
      editForm := EditForm("", "", "", "", "");
      editAvatarFile := None;
      editError := Cleared;
    }

    /** The role buttons of the new-account form. */
    method PickRole(technician: bool)
      requires Valid()
      modifies this`form
      ensures Valid() && form == old(form).(role := if technician then ROLE_TECHNICIAN else ROLE_USER)
    {
      form := form.(role := if technician then ROLE_TECHNICIAN else ROLE_USER);
    }

    /** `handleCreateUser`: an incomplete form is refused locally; a
        created account is appended at the end of the list and the form
        is reset. */
    method HandleCreateUser()
      requires Valid()
      modifies this, db
      ensures Valid() && db.tickets == old(db.tickets)
      ensures !CreateFormFilled(old(form)) ==>
        formError == Incomplete && users == old(users) && db.users == old(db.users)
      ensures CreateFormFilled(old(form)) ==>
        var check := NewUserCheck(old(db.users), old(form).username, old(form).password, old(form).role, old(form).name);
        && check != Some(BadRequest)
        && (check.None? ==>
              var u := User(old(db.nextUserId), old(form).username, old(form).password, old(form).role, old(form).name, None, None);
              && db.users == old(db.users)[u.id := u]
              && users == old(users) + [FromAccount(AccountOf(u))]
              && form == EMPTY_CREATE_FORM)
        && (check.Some? ==> db.users == old(db.users) && users == old(users) && formError == Refused(check.value))
    {
      if form.name == "" || form.username == "" || form.password == "" {
        formError := Incomplete;
        return;
      }
      formError := Cleared;
      var r := db.CreateUser(form.username, form.password, form.role, form.name);
      if r.Ok? {
        users := users + [FromAccount(r.value)];
        form := EMPTY_CREATE_FORM;
      } else {
        formError := Refused(r.failure);
      }
    }

    /** `openEditModal`, from an entry's edit button. */
    method OpenEditModal(m: Member)
      requires ShowsEditButton(m)
      modifies this`editUser, this`editForm, this`editAvatarFile, this`editError
      ensures editUser == Some(m) && editForm == OpenedForm(m) && editAvatarFile.None? && editError == Cleared
    {
      editUser := Some(m);
      editForm := OpenedForm(m);
      editAvatarFile := None;
      editError := Cleared;
    }

    /** `handleEditSubmit`: with no flag set nothing is sent; otherwise
        the body of the flagged fields goes to PUT /api/users/:id, and a
        success replaces the entry with the returned id and refills the
        dialog from the reply (clearing the password); a refusal keeps the
        dialog as it was. */
    method HandleEditSubmit()
      requires Valid() && editUser.Some?
      modifies this, db
      ensures Valid() && db.tickets == old(db.tickets)
      ensures !AnyFlag(Flags(old(editForm), old(editUser).value, old(editAvatarFile))) ==>
        && editError == NothingToSave && users == old(users) && db.users == old(db.users)
        && editUser == old(editUser) && editForm == old(editForm) && editAvatarFile == old(editAvatarFile)
      ensures AnyFlag(Flags(old(editForm), old(editUser).value, old(editAvatarFile))) ==>
        var target := old(editUser).value;
        var fl := Flags(old(editForm), target, old(editAvatarFile));
        var body := ProfileForm(adminId, adminRole,
                                if fl.username then Some(old(editForm).username) else None,
                                if fl.name then Some(old(editForm).name) else None,
                                if fl.phone then Some(old(editForm).phone) else None,
                                if fl.role then Some(old(editForm).role) else None,
                                if fl.password then Some(old(editForm).password) else None);
        var outcome := ProfileOutcome(old(db.users), target.id, body, old(editAvatarFile));
        && (outcome.Ok? ==>
              && db.users == old(db.users)[target.id := outcome.value]
              && users == ReplaceById(old(users), FromAccount(AccountOf(outcome.value)))
              && editUser == Some(FromAccount(AccountOf(outcome.value)))
              && editForm == OpenedForm(FromAccount(AccountOf(outcome.value)))
              && editAvatarFile.None?)
        && (outcome.Err? ==>
              && db.users == old(db.users) && users == old(users) && editError == Refused(outcome.failure)
              && editUser == old(editUser) && editForm == old(editForm) && editAvatarFile == old(editAvatarFile))
    {
      var target := editUser.value;
      var fl := Flags(editForm, target, editAvatarFile);
      if !AnyFlag(fl) {
        editError := NothingToSave;
        return;
      }
      editError := Cleared;
      var body := BuildEditBody(adminId, adminRole, editForm, fl);
      var r := db.UpdateUser(target.id, body, editAvatarFile);
      if r.Ok? {
        TakeEditReply(r.value);
      } else {
        editError := Refused(r.failure);
      }
    }

    /** The success branch of `handleEditSubmit`: the entry with the
        returned id becomes the reply, and the dialog is refilled from it
        with the file cleared. */
    method TakeEditReply(reply: Account)
      modifies this`users, this`editUser, this`editForm, this`editAvatarFile
      ensures users == ReplaceById(old(users), FromAccount(reply))
      ensures editUser == Some(FromAccount(reply)) && editForm == OpenedForm(FromAccount(reply))
      ensures editAvatarFile.None?
    {
      var data := FromAccount(reply);
      users := ReplaceById(users, data);
      editUser := Some(data);
      editForm := OpenedForm(data);
      editAvatarFile := None;
    }
  }
}
