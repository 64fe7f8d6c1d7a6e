/** The own-account page, client/src/pages/Profile.jsx: the form filled
    from the logged-in account, the changed-field flags (an admin may only
    change the avatar), the request body, and the merge of the server's
    reply into the session on success. */
module ProfilePage {
  import opened Common
  import opened ServerUsers
  import opened ServerDatabase
  import opened AuthContext

  /** The four changed-field flags of `handleSubmit`. */
  datatype ProfileFlags = ProfileFlags(username: bool, name: bool, password: bool, avatar: bool)

  function Flags(me: Account, username: string, name: string, password: string, avatarFile: Option<string>): (fl: ProfileFlags)
    ensures fl.username <==> me.role != ROLE_ADMIN && username != me.username
    ensures fl.name <==> me.role != ROLE_ADMIN && name != me.name
    ensures fl.password <==> me.role != ROLE_ADMIN && password != ""
    ensures fl.avatar <==> avatarFile.Some?
  {
    var isAdmin := me.role == ROLE_ADMIN;
    ProfileFlags(!isAdmin && username != me.username, !isAdmin && name != me.name,
                 !isAdmin && |password| > 0, avatarFile.Some?)
  }

  predicate AnyFlag(fl: ProfileFlags)
  {
    fl.username || fl.name || fl.password || fl.avatar
  }

  /** The body the handler sends: the requester is the account itself,
      and only the flagged text fields go along. */
  function Body(me: Account, username: string, name: string, password: string): (body: ProfileForm)
    ensures body.requesterId == me.id && body.requesterRole == me.role
    ensures body.phone.None? && body.role.None?
    ensures body.username.Some? <==> me.role != ROLE_ADMIN && username != me.username
    ensures body.name.Some? <==> me.role != ROLE_ADMIN && name != me.name
    ensures body.password.Some? <==> me.role != ROLE_ADMIN && password != ""
    ensures body.username.Some? ==> body.username.value == username
    ensures body.name.Some? ==> body.name.value == name
    ensures body.password.Some? ==> body.password.value == password
  {
    var fl := Flags(me, username, name, password, None);
    ProfileForm(me.id, me.role,
                if fl.username then Some(username) else None,
                if fl.name then Some(name) else None,
                None, None,
                if fl.password then Some(password) else None)
  }

  /** What the server makes of a save from this page, while the row still
      carries the username the page shows: an admin's save (which is sent
      only with a new avatar) always succeeds and changes only the avatar;
      anyone else's is refused with 409 exactly when the new username is
      taken, with 400 exactly when every field sent is empty and no avatar
      comes along, and is never refused with 403 or 404. */
  lemma SaveOutcome(users: map<int, User>, me: Account, username: string, name: string, password: string,
                    avatarFile: Option<string>)
    requires me.id in users && users[me.id].username == me.username
    requires AnyFlag(Flags(me, username, name, password, avatarFile))
    ensures var r := ProfileOutcome(users, me.id, Body(me, username, name, password), avatarFile);
      && (me.role == ROLE_ADMIN ==> r == Ok(users[me.id].(avatar := avatarFile)))
      && (me.role != ROLE_ADMIN ==>
            && r != Err(NotFound) && r != Err(Forbidden)
            && (r == Err(Conflict) <==>
                  username != "" && username != me.username && UsernameTaken(users, username, Some(me.id)))
            && (r == Err(BadRequest) <==>
                  (username != me.username ==> username == "") && (name != me.name ==> name == "") &&
                  password == "" && avatarFile.None?))
  {
  }

  /** The messages of the page. */
  datatype Notice = Cleared | NothingToSave | Refused(failure: Failure)

  class ProfilePage {
    const db: Database
    const auth: Auth
    /** The account the session holds, as the page reads it. */
    var me: Account
    var username: string
    var name: string
    var password: string
    var avatarFile: Option<string>
    var error: Notice
    var saved: bool

    ghost predicate Valid()
      reads this, db, auth
    {
      db.Valid() && auth.user == Some(AccountRecord(me))
    }

    /** The form as it mounts: the session's username and name, no
        password, no new avatar. */
    constructor (server: Database, session: Auth, account: Account)
      requires server.Valid() && session.user == Some(AccountRecord(account))
      ensures Valid() && db == server && auth == session && me == account
      ensures username == account.username && name == account.name && password == "" && avatarFile.None?
    {
      db := server;
      auth := session;
      me := account;
      username := account.username;
      name := account.name;
      password := "";
      avatarFile := None;
      error := Cleared;
      saved := false;
    }

    /** Typing into the three text fields. */
    method Type(newUsername: string, newName: string, newPassword: string)
      modifies this`username, this`name, this`password
      ensures username == newUsername && name == newName && password == newPassword
    {
      username := newUsername;
      name := newName;
      password := newPassword;
    }

    /** `handleAvatarChange` with a chosen file. */
    method ChooseAvatar(file: string)
      modifies this`avatarFile
      ensures avatarFile == Some(file)
    {
      avatarFile := Some(file);
    }

    /** The body, appended field by field. */
    method BuildBody() returns (body: ProfileForm)
      ensures body == Body(me, username, name, password)
    {
      var isAdmin := me.role == ROLE_ADMIN;
      body := ProfileForm(me.id, me.role, None, None, None, None, None);
      if !isAdmin && username != me.username {
        body := body.(username := Some(username));
      }
      if !isAdmin && name != me.name {
        body := body.(name := Some(name));
      }
      if !isAdmin && password != "" {
        body := body.(password := Some(password));
      }
    }

    /** The success branch of `handleSubmit`: the reply is merged into
        the session, which is written back to storage; the password and
        the chosen file are cleared. */
    method TakeReply(data: Account)
      requires Valid()
      modifies this`me, this`password, this`avatarFile, this`saved, auth
      ensures Valid() && me == data
      ensures auth.user == Some(Merge(old(auth.user), AccountRecord(data)))
      ensures auth.storage == Persisted(old(auth.storage), Some(AccountRecord(data)))
      ensures password == "" && avatarFile.None? && saved
    {
      MergeAccountReplaces(me, data);
      auth.UpdateUser(AccountRecord(data));
      auth.Persist();
      me := data;
      password := "";
      avatarFile := None;
      saved := true;
    }

    /** `handleSubmit`: with no flag set nothing is sent; otherwise the body
        goes to PUT /api/users/:id for the page's own account, and a reply
        is taken in as above; a refusal leaves the session, its stored
        copy, the password and the chosen file as they were. */
    method HandleSubmit()
      requires Valid()
      modifies this, db, auth
      ensures Valid() && db.tickets == old(db.tickets)
      ensures !AnyFlag(Flags(old(me), old(username), old(name), old(password), old(avatarFile))) ==>
        && error == NothingToSave && db.users == old(db.users) && me == old(me)
        && auth.user == old(auth.user) && auth.storage == old(auth.storage)
      ensures AnyFlag(Flags(old(me), old(username), old(name), old(password), old(avatarFile))) ==>
        var outcome := ProfileOutcome(old(db.users), old(me).id, Body(old(me), old(username), old(name), old(password)),
                                      old(avatarFile));
        && (outcome.Ok? ==>
              && db.users == old(db.users)[old(me).id := outcome.value]
              && me == AccountOf(outcome.value)
              && auth.user == Some(Merge(old(auth.user), AccountRecord(me)))
              && auth.storage == Persisted(old(auth.storage), Some(AccountRecord(me)))
              && password == "" && avatarFile.None? && saved)
        && (outcome.Err? ==>
              && db.users == old(db.users) && me == old(me) && error == Refused(outcome.failure)
              && auth.user == old(auth.user) && auth.storage == old(auth.storage)
              && password == old(password) && avatarFile == old(avatarFile))
    {
      if !AnyFlag(Flags(me, username, name, password, avatarFile)) {
        error := NothingToSave;
        return;
      }
      error := Cleared;
      saved := false;
      var body := BuildBody();
      var r := db.UpdateUser(me.id, body, avatarFile);
      if r.Ok? {
        TakeReply(r.value);
      } else {
        error := Refused(r.failure);
      }
    }
  }
}
