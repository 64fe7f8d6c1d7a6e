/** The state server.js keeps in MySQL, as one object: the `tickets` and
    `users` tables as maps from id to row, and the AUTO_INCREMENT counters
    that hand out the next ids. Each route handler that reads or writes
    the tables is a method; a handler's error reply is an `Err`. */
module ServerDatabase {
  import opened Common
  import opened ServerTickets
  import opened ServerUsers

  /** One row of GET /api/technicians. */
  datatype TechnicianEntry = TechnicianEntry(id: int, username: string, name: string)

  class Database {
    var tickets: map<int, Ticket>
    var users: map<int, User>
    var nextTicketId: int
    var nextUserId: int

    /** Every row sits under its own id, every id is below the counter of
        its table, and no two users share a username (the column is
        checked by the handlers before every insert or rename). */
    ghost predicate Valid()
      reads this
    {
      && ServerTickets.Keyed(tickets)
      && ServerUsers.Keyed(users)
      && UniqueUsernames(users)
      && (forall k :: k in tickets ==> k < nextTicketId)
      && (forall k :: k in users ==> k < nextUserId)
    }

    /** The tables as the installation script seeds them. */
    constructor (seedUsers: map<int, User>, seedTickets: map<int, Ticket>, ticketCounter: int, userCounter: int)
      requires ServerTickets.Keyed(seedTickets) && ServerUsers.Keyed(seedUsers) && UniqueUsernames(seedUsers)
      requires forall k :: k in seedTickets ==> k < ticketCounter
      requires forall k :: k in seedUsers ==> k < userCounter
      ensures Valid()
      ensures tickets == seedTickets && users == seedUsers
      ensures nextTicketId == ticketCounter && nextUserId == userCounter
    {
      tickets := seedTickets;
      users := seedUsers;
      nextTicketId := ticketCounter;
      nextUserId := userCounter;
    }

    // -------------------------------------------------------------------
    // POST /api/login

    /** 400 when either credential is empty, 401 when no row has exactly
        this username and password, else the matching row without its
        password and phone. Usernames being unique, the match is the only
        one. */
    method Login(username: string, password: string) returns (r: Result<Account>)
      requires Valid()
      ensures r == Err(BadRequest) <==> username == "" || password == ""
      ensures r == Err(Unauthorized) <==>
        username != "" && password != "" && forall k :: k in users ==> !Matches(users[k], username, password)
      ensures r.Err? ==> r.failure == BadRequest || r.failure == Unauthorized
      ensures r.Ok? ==> forall k :: k in users && Matches(users[k], username, password) ==> r.value == AccountOf(users[k])
      ensures r.Ok? ==> r.value.username == username
    {
      if username == "" || password == "" {
        return Err(BadRequest);
      }
      var found := set k | k in users && Matches(users[k], username, password);
      if found == {} {
        forall k | k in users
          ensures !Matches(users[k], username, password)
        {
          assert k !in found;
        }
        return Err(Unauthorized);
      }
      NonEmptyHasMember(found);
      var k :| k in found;
      r := Ok(AccountOf(users[k]));
    }

    // -------------------------------------------------------------------
    // GET /api/tickets/:id

    /** 404 for an unknown id, else the row. */
    method GetTicket(id: int) returns (r: Result<Ticket>)
      ensures r.Ok? <==> id in tickets
      ensures r.Err? ==> r.failure == NotFound
      ensures r.Ok? ==> r.value == tickets[id]
    {
      if id !in tickets {
        return Err(NotFound);
      }
      r := Ok(tickets[id]);
    }

    // -------------------------------------------------------------------
    // POST /api/tickets

    /** 400 without a title or a creator; else the row `NewTicket`
        describes is inserted under the next id and returned. An empty
        description or room number is stored as NULL. */
    method CreateTicket(title: string, description: string, roomNumber: string,
                        createdBy: Option<int>, imageBefore: Option<string>, now: int)
      returns (r: Result<Ticket>)
      requires Valid()
      modifies this
      ensures Valid()
      ensures users == old(users) && nextUserId == old(nextUserId)
      ensures r.Err? <==> title == "" || createdBy.None?
      ensures r.Err? ==> r.failure == BadRequest && tickets == old(tickets) && nextTicketId == old(nextTicketId)
      ensures r.Ok? ==>
        && old(nextTicketId) !in old(tickets)
        && r.value == NewTicket(old(nextTicketId), title, description, roomNumber, createdBy.value, imageBefore, now)
        && tickets == old(tickets)[old(nextTicketId) := r.value]
        && nextTicketId == old(nextTicketId) + 1
    {
      if title == "" || createdBy.None? {
        return Err(BadRequest);
      }
      var row := NewTicket(nextTicketId, title, description, roomNumber, createdBy.value, imageBefore, now);
      tickets := tickets[nextTicketId := row];
      nextTicketId := nextTicketId + 1;
      r := Ok(row);
    }

    // -------------------------------------------------------------------
    // PUT /api/tickets/:id

    /** 404 for an unknown id; otherwise the SET list is built field by
        field, 400 when it is empty, else executed on the row. The outcome
        is `UpdateOutcome` and only the addressed row changes. */
    method UpdateTicket(id: int, p: TicketPatch, upload: Option<string>) returns (r: Result<Ticket>)
      requires Valid()
      modifies this
      ensures Valid()
      ensures r == UpdateOutcome(old(tickets), id, p, upload)
      ensures r.Ok? ==> tickets == old(tickets)[id := r.value]
      ensures r.Err? ==> tickets == old(tickets)
      ensures users == old(users) && nextTicketId == old(nextTicketId) && nextUserId == old(nextUserId)
    {
      if id !in tickets {
        return Err(NotFound);
      }
      var t := tickets[id];
      var updates := BuildAssignments(t, p, upload);
      if updates == [] {
        return Err(BadRequest);
      }
      var row := AssignAll(t, updates);
      tickets := tickets[id := row];
      r := Ok(row);
    }

    // -------------------------------------------------------------------
    // DELETE /api/tickets/:id

    /** 404 for an unknown id, 403 unless `MayDelete` allows the caller,
        else the row is removed. */
    method DeleteTicket(id: int, role: string, userId: int) returns (e: Option<Failure>)
      requires Valid()
      modifies this
      ensures Valid()
      ensures e == Some(NotFound) <==> id !in old(tickets)
      ensures e == Some(Forbidden) <==> id in old(tickets) && !MayDelete(old(tickets)[id], role, userId)
      ensures e.None? <==> id in old(tickets) && MayDelete(old(tickets)[id], role, userId)
      ensures e.None? ==> tickets == old(tickets) - {id}
      ensures e.Some? ==> tickets == old(tickets)
      ensures users == old(users) && nextTicketId == old(nextTicketId) && nextUserId == old(nextUserId)
    {
      if id !in tickets {
        return Some(NotFound);
      }
      if !MayDelete(tickets[id], role, userId) {
        return Some(Forbidden);
      }
      tickets := tickets - {id};
      e := None;
    }

    // -------------------------------------------------------------------
    // POST /api/users

    /** The checks of `NewUserCheck`, then a row with no phone and no
        avatar is inserted under the next id. The reply leaves the
        password out. */
    method CreateUser(username: string, password: string, role: string, name: string)
      returns (r: Result<Account>)
      requires Valid()
      modifies this
      ensures Valid()
      ensures tickets == old(tickets) && nextTicketId == old(nextTicketId)
      ensures r.Err? <==> NewUserCheck(old(users), username, password, role, name).Some?
      ensures r.Err? ==> Some(r.failure) == NewUserCheck(old(users), username, password, role, name)
      ensures r.Err? ==> users == old(users) && nextUserId == old(nextUserId)
      ensures r.Ok? ==>
        var u := User(old(nextUserId), username, password, role, name, None, None);
        && old(nextUserId) !in old(users)
        && users == old(users)[old(nextUserId) := u]
        && r.value == AccountOf(u)
        && nextUserId == old(nextUserId) + 1
    {
      var check := NewUserCheck(users, username, password, role, name);
      if check.Some? {
        return Err(check.value);
      }
      var u := User(nextUserId, username, password, role, name, None, None);
      NewUserKeepsUsernamesUnique(users, u);
      users := users[nextUserId := u];
      nextUserId := nextUserId + 1;
      r := Ok(AccountOf(u));
    }

    // -------------------------------------------------------------------
    // PUT /api/users/:id

    /** The handler's checks in its order (404, 403, 409, 403 for an admin
        on another admin), the SET list built push by push, 400 when it is
        empty, else the list executed on the row. The outcome is
        `ProfileOutcome` and only the target row changes. */
    method UpdateUser(targetId: int, f: ProfileForm, avatar: Option<string>) returns (r: Result<Account>)
      requires Valid()
      modifies this
      ensures Valid()
      ensures r == Reply(ProfileOutcome(old(users), targetId, f, avatar))
      ensures ProfileOutcome(old(users), targetId, f, avatar).Ok? ==>
        users == old(users)[targetId := ProfileOutcome(old(users), targetId, f, avatar).value]
      ensures ProfileOutcome(old(users), targetId, f, avatar).Err? ==> users == old(users)
      ensures tickets == old(tickets) && nextTicketId == old(nextTicketId) && nextUserId == old(nextUserId)
    {
      if targetId !in users {
        return Err(NotFound);
      }
      var target := users[targetId];
      var isSelf := f.requesterId == targetId;
      var isAdmin := f.requesterRole == ROLE_ADMIN;
      if !isSelf && !isAdmin {
        return Err(Forbidden);
      }
      if NewUsername(target, f) && UsernameTaken(users, f.username.value, Some(targetId)) {
        return Err(Conflict);
      }
      if isAdmin && !isSelf && target.role == ROLE_ADMIN {
        return Err(Forbidden);
      }
      var updates := BuildUserAssignments(target, f, avatar, isSelf && isAdmin);
      if updates == [] {
        return Err(BadRequest);
      }
      var row := ApplyUserAll(target, updates);
      ProfileKeepsUsernamesUnique(users, targetId, f, avatar);
      users := users[targetId := row];
      r := Ok(AccountOf(row));
    }

    // -------------------------------------------------------------------
    // GET /api/technicians

    /** Exactly the users whose role is 'technician', by id, username and
        name. */
    function Technicians(): (r: set<TechnicianEntry>)
      reads this
      ensures forall e :: e in r ==> e.id in users && users[e.id].role == ROLE_TECHNICIAN
      ensures forall k :: k in users && users[k].role == ROLE_TECHNICIAN ==>
        TechnicianEntry(k, users[k].username, users[k].name) in r
    {
      set k | k in users && users[k].role == ROLE_TECHNICIAN :: TechnicianEntry(k, users[k].username, users[k].name)
    }
  }

  /** The reply of PUT /api/users/:id: the error, or the row without its
      password and phone. */
  function Reply(outcome: Result<User>): (r: Result<Account>)
    ensures r.Err? <==> outcome.Err?
    ensures r.Err? ==> r.failure == outcome.failure
    ensures r.Ok? ==> r.value == AccountOf(outcome.value)
  {
    match outcome
    case Ok(u) => Ok(AccountOf(u))
    case Err(e) => Err(e)
  }

  /** Inserting a row whose username no row holds keeps usernames unique. */
  lemma NewUserKeepsUsernamesUnique(users: map<int, User>, u: User)
    requires UniqueUsernames(users) && u.id !in users
    requires !UsernameTaken(users, u.username, None)
    ensures UniqueUsernames(users[u.id := u])
  {
    var users' := users[u.id := u];
    forall a, b | a in users' && b in users' && users'[a].username == users'[b].username
      ensures a == b
    {
      if a != b && (a == u.id || b == u.id) {
        assert false;
      }
    }
  }
}
