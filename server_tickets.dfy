/** The `tickets` table of server.js and the pure rules of its ticket
    routes: the row created by POST /api/tickets, the role filter and
    newest-first order of GET /api/tickets, the delete rule of
    DELETE /api/tickets/:id, and the partial-update semantics of
    PUT /api/tickets/:id. */
module ServerTickets {
  import opened Common

  /** One row of `tickets`. Absent columns (SQL NULL) are `None`. */
  datatype Ticket = Ticket(
    id: int,
    title: string,
    description: Option<string>,
    roomNumber: Option<string>,
    createdBy: int,
    technicianId: Option<int>,
    status: string,
    imageBefore: Option<string>,
    imageAfter: Option<string>,
    rating: Option<int>,
    review: Option<string>,
    cancelReason: Option<string>,
    createdAt: int)

  /** The `technician_id` field of an update request: not sent, JSON null,
      the text 'null' a multipart form carries, or an id. */
  datatype TechnicianField = Absent | NullValue | NullText | Technician(id: int)

  /** The body of PUT /api/tickets/:id; `None` (or `Absent`) is a field the
      request does not carry. The after-image is a separate upload. */
  datatype TicketPatch = TicketPatch(
    status: Option<string>,
    technicianId: TechnicianField,
    rating: Option<int>,
    review: Option<string>,
    cancelReason: Option<string>)

  /** One `column = ?` entry of the UPDATE statement the handler builds. */
  datatype Assignment =
    | SetStatus(status: string)
    | SetTechnician(technician: Option<int>)
    | SetImageAfter(path: Option<string>)
    | SetRating(rating: int)
    | SetReview(review: string)
    | SetCancelReason(reason: string)

  /** `value || null`: an empty form field is stored as NULL. */
  function OrNull(s: string): (r: Option<string>)
    ensures r.None? <==> s == ""
    ensures r.Some? ==> r.value == s
  {
    if s == "" then None else Some(s)
  }

  /** The row INSERT INTO tickets adds. The columns the statement leaves out
      take the table's defaults: status 'Pending', everything else NULL. */
  function NewTicket(id: int, title: string, description: string, roomNumber: string,
                     createdBy: int, imageBefore: Option<string>, now: int): (t: Ticket)
    ensures t.id == id && t.title == title && t.createdBy == createdBy && t.createdAt == now
    ensures t.status == PENDING && t.imageBefore == imageBefore
    ensures t.technicianId.None? && t.imageAfter.None? && t.rating.None?
    ensures t.review.None? && t.cancelReason.None?
    ensures t.description == OrNull(description) && t.roomNumber == OrNull(roomNumber)
  {
    Ticket(id, title, OrNull(description), OrNull(roomNumber), createdBy, None, PENDING,
           imageBefore, None, None, None, None, now)
  }

  // ---------------------------------------------------------------------
  // Listing

  /** The WHERE clause of GET /api/tickets: a resident sees the tickets they
      created, a technician the unassigned ones and their own, and any other
      role (admin) all of them. */
  function Visible(t: Ticket, role: string, userId: int): (b: bool)
    ensures role == ROLE_USER ==> (b <==> t.createdBy == userId)
    ensures role == ROLE_TECHNICIAN ==> (b <==> t.technicianId.None? || t.technicianId == Some(userId))
    ensures role != ROLE_USER && role != ROLE_TECHNICIAN ==> b
  {
    if role == ROLE_USER then t.createdBy == userId
    else if role == ROLE_TECHNICIAN then t.technicianId == Some(userId) || t.technicianId.None?
    else true
  }

  /** The rows of `tickets` are stored under their own id. */
  ghost predicate Keyed(tickets: map<int, Ticket>)
  {
    forall k :: k in tickets ==> tickets[k].id == k
  }

  /** `k` is one of `ids` and no row among `ids` was created after it. */
  ghost predicate IsNewest(tickets: map<int, Ticket>, ids: set<int>, k: int)
    requires ids <= tickets.Keys
  {
    k in ids && forall j :: j in ids ==> tickets[j].createdAt <= tickets[k].createdAt
  }

  /** Some id of a non-empty set has the latest creation time. */
  lemma {:induction false} NewestExists(tickets: map<int, Ticket>, ids: set<int>)
    requires ids != {} && ids <= tickets.Keys
    ensures exists k :: IsNewest(tickets, ids, k)
    decreases |ids|
  {
    NonEmptyHasMember(ids);
    var x :| x in ids;
    if ids == {x} {
      assert IsNewest(tickets, ids, x);
    } else {
      var rest := ids - {x};
      NewestExists(tickets, rest);
      var k :| IsNewest(tickets, rest, k);
      if tickets[x].createdAt <= tickets[k].createdAt {
        assert IsNewest(tickets, ids, k);
      } else {
        assert IsNewest(tickets, ids, x);
      }
    }
  }

  /** The ids of a list of rows. */
  function IdsOf(rows: seq<Ticket>): set<int>
  {
    if rows == [] then {} else {rows[0].id} + IdsOf(rows[1..])
  }

  /** Every row of the list is the table's row under its id. */
  ghost predicate RowsOf(tickets: map<int, Ticket>, rows: seq<Ticket>)
  {
    forall i :: 0 <= i < |rows| ==> rows[i].id in tickets && rows[i] == tickets[rows[i].id]
  }

  /** No id occurs twice in the list. */
  predicate Distinct(rows: seq<Ticket>)
  {
    forall i, j :: 0 <= i < j < |rows| ==> rows[i].id != rows[j].id
  }

  /** The list is ordered newest first. */
  predicate NewestFirstOrder(rows: seq<Ticket>)
  {
    forall i, j :: 0 <= i < j < |rows| ==> rows[i].createdAt >= rows[j].createdAt
  }

  /** `ORDER BY created_at DESC` over the rows with the given ids. Rows with
      equal creation times come in an order SQL leaves open, and so does
      this definition. */
  ghost function NewestFirst(tickets: map<int, Ticket>, ids: set<int>): (rows: seq<Ticket>)
    requires Keyed(tickets) && ids <= tickets.Keys
    ensures IdsOf(rows) == ids && |rows| == |ids|
    ensures RowsOf(tickets, rows) && Distinct(rows) && NewestFirstOrder(rows)
    decreases |ids|
  {
    if ids == {} then []
    else
      NewestExists(tickets, ids);
      var k :| IsNewest(tickets, ids, k);
      var rest := NewestFirst(tickets, ids - {k});
      ConsNewest(tickets, ids, k, rest);
      [tickets[k]] + rest
  }

  lemma ConsNewest(tickets: map<int, Ticket>, ids: set<int>, k: int, rest: seq<Ticket>)
    requires Keyed(tickets) && ids <= tickets.Keys && IsNewest(tickets, ids, k)
    requires IdsOf(rest) == ids - {k} && |rest| == |ids - {k}|
    requires RowsOf(tickets, rest) && Distinct(rest) && NewestFirstOrder(rest)
    ensures var rows := [tickets[k]] + rest;
      IdsOf(rows) == ids && |rows| == |ids| &&
      RowsOf(tickets, rows) && Distinct(rows) && NewestFirstOrder(rows)
  {
    var rows := [tickets[k]] + rest;
    assert rows[1..] == rest;
    forall i | 0 <= i < |rest| ensures rest[i].id in ids - {k} {
      IdsOfMember(rest, i);
    }
    assert forall i :: 1 <= i < |rows| ==> rows[i] == rest[i - 1];
  }

  lemma {:induction false} IdsOfMember(rows: seq<Ticket>, i: int)
    requires 0 <= i < |rows|
    ensures rows[i].id in IdsOf(rows)
  {
    if i > 0 {
      IdsOfMember(rows[1..], i - 1);
    }
  }

  /** The response of GET /api/tickets, without the joined display names:
      exactly the visible rows, each once, newest first. */
  ghost function Listing(tickets: map<int, Ticket>, role: string, userId: int): (rows: seq<Ticket>)
    requires Keyed(tickets)
    ensures RowsOf(tickets, rows) && Distinct(rows) && NewestFirstOrder(rows)
    ensures forall i :: 0 <= i < |rows| ==> Visible(rows[i], role, userId)
    ensures forall k :: k in tickets ==> (k in IdsOf(rows) <==> Visible(tickets[k], role, userId))
  {
    var ids := set k | k in tickets && Visible(tickets[k], role, userId);
    var rows := NewestFirst(tickets, ids);
    forall i | 0 <= i < |rows| ensures Visible(rows[i], role, userId) {
      IdsOfMember(rows, i);
    }
    rows
  }

  // ---------------------------------------------------------------------
  // Deleting

  /** The permission check of DELETE /api/tickets/:id: an admin may delete
      any ticket, a resident only a Pending ticket they created. */
  function MayDelete(t: Ticket, role: string, userId: int): (b: bool)
    ensures role == ROLE_ADMIN ==> b
    ensures role == ROLE_USER ==> (b <==> t.createdBy == userId && t.status == PENDING)
    ensures role != ROLE_ADMIN && role != ROLE_USER ==> !b
  {
    role == ROLE_ADMIN || (role == ROLE_USER && t.createdBy == userId && t.status == PENDING)
  }

  // ---------------------------------------------------------------------
  // Partial update

  /** The stored `technician_id` after the request: null and 'null' clear
      it, an absent field leaves it, an id replaces it. */
  function TechnicianAfter(current: Option<int>, f: TechnicianField): Option<int>
  {
    match f
    case Absent => current
    case NullValue => None
    case NullText => None
    case Technician(k) => Some(k)
  }

  /** The after-image path the handler compares with the stored one: the new
      upload if there is one, else the stored path. */
  function ImageAfter(t: Ticket, upload: Option<string>): Option<string>
  {
    if upload.Some? then upload else t.imageAfter
  }

  /** The request writes at least one column. A new upload counts only when
      its path differs from the stored one. */
  predicate HasChanges(t: Ticket, p: TicketPatch, upload: Option<string>)
  {
    || p.status.Some?
    || !p.technicianId.Absent?
    || ImageAfter(t, upload) != t.imageAfter
    || p.rating.Some?
    || p.review.Some?
    || p.cancelReason.Some?
  }

  /** The row after PUT /api/tickets/:id, stated column by column: the
      columns the request carries take their new values and every other
      column keeps its value. Nothing about the row's current status, its
      creator or the caller is consulted. */
  function Patched(t: Ticket, p: TicketPatch, upload: Option<string>): (r: Ticket)
    ensures r.id == t.id && r.title == t.title && r.description == t.description
    ensures r.roomNumber == t.roomNumber && r.createdBy == t.createdBy
    ensures r.imageBefore == t.imageBefore && r.createdAt == t.createdAt
    ensures p.status.None? ==> r.status == t.status
    ensures p.status.Some? ==> r.status == p.status.value
    ensures p.technicianId.Absent? ==> r.technicianId == t.technicianId
    ensures (p.technicianId.NullValue? || p.technicianId.NullText?) ==> r.technicianId.None?
    ensures p.technicianId.Technician? ==> r.technicianId == Some(p.technicianId.id)
    ensures upload.None? ==> r.imageAfter == t.imageAfter
    ensures upload.Some? ==> r.imageAfter == upload
    ensures p.rating.None? ==> r.rating == t.rating
    ensures p.rating.Some? ==> r.rating == p.rating
    ensures p.review.None? ==> r.review == t.review
    ensures p.review.Some? ==> r.review == p.review
    ensures p.cancelReason.None? ==> r.cancelReason == t.cancelReason
    ensures p.cancelReason.Some? ==> r.cancelReason == p.cancelReason
  {
    t.(status := if p.status.Some? then p.status.value else t.status,
       technicianId := TechnicianAfter(t.technicianId, p.technicianId),
       imageAfter := ImageAfter(t, upload),
       rating := if p.rating.Some? then p.rating else t.rating,
       review := if p.review.Some? then p.review else t.review,
       cancelReason := if p.cancelReason.Some? then p.cancelReason else t.cancelReason)
  }

  /** The outcome of PUT /api/tickets/:id on the table: 404 for an unknown
      id, 400 when nothing is to be written, else the patched row. */
  function UpdateOutcome(tickets: map<int, Ticket>, id: int, p: TicketPatch, upload: Option<string>): (r: Result<Ticket>)
    ensures r.Err? ==> r.failure == NotFound || r.failure == BadRequest
    ensures r == Err(NotFound) <==> id !in tickets
    ensures r == Err(BadRequest) <==> id in tickets && !HasChanges(tickets[id], p, upload)
    ensures r.Ok? ==> id in tickets && r.value == Patched(tickets[id], p, upload)
  {
    if id !in tickets then Err(NotFound)
    else if !HasChanges(tickets[id], p, upload) then Err(BadRequest)
    else Ok(Patched(tickets[id], p, upload))
  }

  /** One `column = ?` applied to the row. */
  function Assign(t: Ticket, a: Assignment): Ticket
  {
    match a
    case SetStatus(s) => t.(status := s)
    case SetTechnician(k) => t.(technicianId := k)
    case SetImageAfter(path) => t.(imageAfter := path)
    case SetRating(n) => t.(rating := Some(n))
    case SetReview(s) => t.(review := Some(s))
    case SetCancelReason(s) => t.(cancelReason := Some(s))
  }

  /** `UPDATE tickets SET a1, a2, ...`: the assignments applied left to right. */
  function AssignAll(t: Ticket, updates: seq<Assignment>): Ticket
    decreases |updates|
  {
    if updates == [] then t
    else Assign(AssignAll(t, updates[..|updates| - 1]), updates[|updates| - 1])
  }

  lemma AssignAllSnoc(t: Ticket, updates: seq<Assignment>, a: Assignment)
    ensures AssignAll(t, updates + [a]) == Assign(AssignAll(t, updates), a)
  {
    assert (updates + [a])[..|updates|] == updates;
  }

  /** The handler's construction of the SET list, one push per field
      present in the request. The list is empty exactly when the request
      writes nothing, and executing it yields the row `Patched` describes. */
  method BuildAssignments(t: Ticket, p: TicketPatch, upload: Option<string>) returns (updates: seq<Assignment>)
    ensures updates == [] <==> !HasChanges(t, p, upload)
    ensures AssignAll(t, updates) == Patched(t, p, upload)
  {
    ghost var row;
    updates, row := PushWorkflowColumns(t, p, upload);
    updates, row := PushReviewColumns(t, p, updates, row);
  }

  /** The first three pushes: status, technician and after-image. */
  method PushWorkflowColumns(t: Ticket, p: TicketPatch, upload: Option<string>)
    returns (updates: seq<Assignment>, ghost row: Ticket)
    ensures AssignAll(t, updates) == row
    ensures row == t.(status := Patched(t, p, upload).status,
                      technicianId := Patched(t, p, upload).technicianId,
                      imageAfter := Patched(t, p, upload).imageAfter)
    ensures updates == [] <==> !(p.status.Some? || !p.technicianId.Absent? || ImageAfter(t, upload) != t.imageAfter)
  {
    var imageAfter := if upload.Some? then upload else t.imageAfter;
    updates := [];
    row := t;
    if p.status.Some? {
      updates, row := Push(t, updates, row, SetStatus(p.status.value));
    }
    if !p.technicianId.Absent? {
      var k := if p.technicianId.NullText? || p.technicianId.NullValue? then None else Some(p.technicianId.id);
      updates, row := Push(t, updates, row, SetTechnician(k));
    }
    if imageAfter != t.imageAfter {
      updates, row := Push(t, updates, row, SetImageAfter(imageAfter));
    }
  }

  /** The last three pushes: rating, review and cancel reason. */
  method PushReviewColumns(t: Ticket, p: TicketPatch, updates: seq<Assignment>, ghost row: Ticket)
    returns (updates': seq<Assignment>, ghost row': Ticket)
    requires AssignAll(t, updates) == row
    ensures AssignAll(t, updates') == row'
    ensures row' == row.(rating := if p.rating.Some? then p.rating else row.rating,
                         review := if p.review.Some? then p.review else row.review,
                         cancelReason := if p.cancelReason.Some? then p.cancelReason else row.cancelReason)
    ensures updates' == [] <==> updates == [] && p.rating.None? && p.review.None? && p.cancelReason.None?
  {
    updates', row' := updates, row;
    if p.rating.Some? {
      updates', row' := Push(t, updates', row', SetRating(p.rating.value));
    }
    if p.review.Some? {
      updates', row' := Push(t, updates', row', SetReview(p.review.value));
    }
    if p.cancelReason.Some? {
      updates', row' := Push(t, updates', row', SetCancelReason(p.cancelReason.value));
    }
  }

  /** `updates.push(a)`, with the row the list so far produces. */
  method Push(t: Ticket, updates: seq<Assignment>, ghost row: Ticket, a: Assignment)
    returns (updates': seq<Assignment>, ghost row': Ticket)
    requires AssignAll(t, updates) == row
    ensures updates' == updates + [a] && row' == Assign(row, a) && AssignAll(t, updates') == row'
  {
    AssignAllSnoc(t, updates, a);
    updates' := updates + [a];
    row' := Assign(row, a);
  }

  // ---------------------------------------------------------------------
  // What the update does not check

  /** The update accepts any status string and any rating on any existing
      row: no role, ownership, current status or 1..5 range is checked. */
  lemma UpdateAcceptsAnyStatusAndRating(tickets: map<int, Ticket>, id: int, s: string, n: int)
    requires id in tickets
    ensures UpdateOutcome(tickets, id, TicketPatch(Some(s), Absent, Some(n), None, None), None)
         == Ok(tickets[id].(status := s, rating := Some(n)))
  {
  }

  /** Two accepts of the same ticket by two technicians both succeed, and
      the second overwrites the technician the first one set. */
  lemma SecondAcceptOverwrites(tickets: map<int, Ticket>, id: int, first: int, second: int)
    requires id in tickets
    ensures var accept1 := TicketPatch(Some(IN_PROGRESS), Technician(first), None, None, None);
            var accept2 := TicketPatch(Some(IN_PROGRESS), Technician(second), None, None, None);
            var r1 := UpdateOutcome(tickets, id, accept1, None);
            r1.Ok? && r1.value.technicianId == Some(first) &&
            var r2 := UpdateOutcome(tickets[id := r1.value], id, accept2, None);
            r2.Ok? && r2.value.technicianId == Some(second) && r2.value.status == IN_PROGRESS
  {
  }
}
