/** The ticket page as a stateful component: the state cells of
    client/src/pages/TicketDetail.jsx and its event handlers, each sending
    its request to the server's tables. A page whose copy of the ticket is
    current moves the stored row exactly by `Lifecycle.Step`, so the rules
    of `Lifecycle.Consistent` hold of every row as long as every update
    comes from this page. */
module TicketDetailPage {
  import opened Common
  import opened ServerTickets
  import opened ServerDatabase
  import opened TicketDetail
  import opened Lifecycle

  /** Every stored ticket keeps the lifecycle rules. */
  ghost predicate AllConsistent(tickets: map<int, Ticket>)
  {
    forall k :: k in tickets ==> Consistent(tickets[k])
  }

  /** Applying one page action to one row keeps every row consistent. */
  lemma StepKeepsAllConsistent(tickets: map<int, Ticket>, id: int, v: Viewer, a: Action)
    requires AllConsistent(tickets) && id in tickets && WellFormed(a)
    ensures AllConsistent(tickets[id := Step(tickets[id], v, a)])
  {
    StepPreserves(tickets[id], v, a);
  }

  /** The table after a handler: unchanged when it sends nothing or the
      server refuses, else with the row the server returns. */
  ghost function AfterRequest(tickets: map<int, Ticket>, id: int, req: Option<Request>): map<int, Ticket>
  {
    if req.None? then tickets
    else
      var outcome := UpdateOutcome(tickets, id, req.value.patch, req.value.upload);
      if outcome.Ok? then tickets[id := outcome.value] else tickets
  }

  /** The message banner: nothing, the handler's own complaint, or the
      server's error reply. */
  datatype Notice = Cleared | LocalCheck | Refused(failure: Failure)

  class TicketDetailPage {
    const db: Database
    const viewer: Viewer
    const ticketId: int

    var ticket: Option<Ticket>
    var actionLoading: bool
    var error: Notice
    var success: bool
    var afterFile: Option<string>
    var rating: int
    var review: string
    var selectedTech: Option<int>
    var showCancelPanel: bool
    var cancelReason: string
    var leftPage: bool

    /** The tables are well formed and the star count is one the rating
        widget can produce. */
    ghost predicate Valid()
      reads this, db
    {
      db.Valid() && 0 <= rating <= 5
    }

    /** The page's copy of the ticket is the stored row. */
    ghost predicate Current()
      reads this, db
    {
      ticket.Some? && ticketId in db.tickets && db.tickets[ticketId] == ticket.value
    }

    /** The initial state cells, before the ticket is fetched. */
    constructor (server: Database, who: Viewer, id: int)
      requires server.Valid()
      ensures Valid() && db == server && viewer == who && ticketId == id
      ensures ticket.None? && error == Cleared && !actionLoading && !leftPage
      ensures rating == 0 && review == "" && afterFile.None? && selectedTech.None?
      ensures !showCancelPanel && cancelReason == ""
    {
      db := server;
      viewer := who;
      ticketId := id;
      ticket := None;
      actionLoading := false;
      error := Cleared;
      success := false;
      afterFile := None;
      rating := 0;
      review := "";
      selectedTech := None;
      showCancelPanel := false;
      cancelReason := "";
      leftPage := false;
    }

    /** `fetchTicket`: the stored row, or the not-found message. */
    method FetchTicket()
      requires Valid()
      modifies this
      ensures Valid() && db.tickets == old(db.tickets)
      ensures ticketId in db.tickets ==> Current()
      ensures ticketId !in db.tickets ==> ticket == old(ticket) && error == Refused(NotFound)
    {
      var r := db.GetTicket(ticketId);
      if r.Ok? {
        ticket := Some(r.value);
      } else {
        error := Refused(r.failure);
      }
    }

    /** A click on star `k` of the rating widget (`onRate={setRating}`). */
    method ClickStar(k: int)
      requires Valid() && 1 <= k <= 5
      modifies this`rating
      ensures Valid() && rating == k
    {
      rating := k;
    }

    /** The PUT request of an action handler and the state cells every
        handler sets from its reply: the returned row, or the server's
        error. */
    method Submit(req: Request) returns (ok: bool)
      requires Valid()
      modifies this, db
      ensures Valid()
      ensures var outcome := UpdateOutcome(old(db.tickets), ticketId, req.patch, req.upload);
        && (ok <==> outcome.Ok?)
        && (ok ==> db.tickets == old(db.tickets)[ticketId := outcome.value] && ticket == Some(outcome.value) && success)
        && (!ok ==> db.tickets == old(db.tickets) && ticket == old(ticket) && error == Refused(outcome.failure))
      ensures db.users == old(db.users)
      ensures !actionLoading
      ensures rating == old(rating) && review == old(review) && afterFile == old(afterFile)
      ensures cancelReason == old(cancelReason) && showCancelPanel == old(showCancelPanel)
      ensures selectedTech == old(selectedTech) && leftPage == old(leftPage)
    {
      actionLoading := true;
      error := Cleared;
      var r := db.UpdateTicket(ticketId, req.patch, req.upload);
      if r.Ok? {
        ticket := Some(r.value);
        success := true;
        ok := true;
      } else {
        error := Refused(r.failure);
        ok := false;
      }
      actionLoading := false;
    }

    /** `handleAccept`, reachable from the accept panel only. */
    method HandleAccept()
      requires Valid() && ticket.Some? && CanAccept(ticket.value, viewer)
      modifies this, db
      ensures Valid() && db.users == old(db.users)
      ensures db.tickets == AfterRequest(old(db.tickets), ticketId, Sent(old(ticket.value), viewer, Accept))
      ensures old(Current()) ==>
        Current() && db.tickets == old(db.tickets)[ticketId := Step(old(ticket.value), viewer, Accept)]
      ensures old(Current()) && AllConsistent(old(db.tickets)) ==> AllConsistent(db.tickets)
    {
      ghost var before := db.tickets;
      var req := Sent(ticket.value, viewer, Accept).value;
      if Current() {
        SentRequestsAccepted(db.tickets, ticketId, viewer, Accept);
      }
      var ok := Submit(req);
      if old(Current()) && AllConsistent(before) {
        StepKeepsAllConsistent(before, ticketId, viewer, Accept);
      }
    }

    /** `handleAssignTech`, reachable from the assignment panel only:
        nothing happens until a technician is selected. */
    method HandleAssignTech()
      requires Valid() && ticket.Some? && CanAssign(ticket.value, viewer)
      modifies this, db
      ensures Valid() && db.users == old(db.users)
      ensures old(selectedTech).None? ==> db.tickets == old(db.tickets) && ticket == old(ticket)
      ensures db.tickets == AfterRequest(old(db.tickets), ticketId, Sent(old(ticket.value), viewer, Assign(old(selectedTech))))
      ensures old(Current()) ==>
        Current() && db.tickets == old(db.tickets)[ticketId := Step(old(ticket.value), viewer, Assign(old(selectedTech)))]
      ensures old(Current()) && AllConsistent(old(db.tickets)) ==> AllConsistent(db.tickets)
    {
      ghost var before := db.tickets;
      var a := Assign(selectedTech);
      if selectedTech.None? {
        return;
      }
      var req := Sent(ticket.value, viewer, a).value;
      if Current() {
        SentRequestsAccepted(db.tickets, ticketId, viewer, a);
      }
      var ok := Submit(req);
      if old(Current()) && AllConsistent(before) {
        StepKeepsAllConsistent(before, ticketId, viewer, a);
      }
    }

    /** `handleCancelRepair`, reachable from the cancel panel only: a
        blank reason is refused locally; on success the panel closes and
        the reason is cleared. */
    method HandleCancelRepair()
      requires Valid() && ticket.Some? && CanCancel(ticket.value, viewer)
      modifies this, db
      ensures Valid() && db.users == old(db.users)
      ensures Blank(old(cancelReason)) ==> db.tickets == old(db.tickets) && error == LocalCheck
      ensures db.tickets == AfterRequest(old(db.tickets), ticketId, Sent(old(ticket.value), viewer, Cancel(old(cancelReason))))
      ensures old(Current()) ==>
        Current() && db.tickets == old(db.tickets)[ticketId := Step(old(ticket.value), viewer, Cancel(old(cancelReason)))]
      ensures old(Current()) && !Blank(old(cancelReason)) ==> !showCancelPanel && cancelReason == ""
      ensures old(Current()) && AllConsistent(old(db.tickets)) ==> AllConsistent(db.tickets)
    {
      ghost var before := db.tickets;
      var a := Cancel(cancelReason);
      if Trim(cancelReason) == "" {
        error := LocalCheck;
        return;
      }
      var req := Sent(ticket.value, viewer, a).value;
      if Current() {
        SentRequestsAccepted(db.tickets, ticketId, viewer, a);
      }
      var ok := Submit(req);
      if ok {
        showCancelPanel := false;
        cancelReason := "";
      }
      if old(Current()) && AllConsistent(before) {
        StepKeepsAllConsistent(before, ticketId, viewer, a);
      }
    }

    /** `handleResolve`, reachable from the resolve panel only: without an
        after-photo it is refused locally; on success the photo is
        cleared. */
    method HandleResolve()
      requires Valid() && ticket.Some? && CanResolve(ticket.value, viewer)
      modifies this, db
      ensures Valid() && db.users == old(db.users)
      ensures old(afterFile).None? ==> db.tickets == old(db.tickets) && error == LocalCheck
      ensures db.tickets == AfterRequest(old(db.tickets), ticketId, Sent(old(ticket.value), viewer, Resolve(old(afterFile))))
      ensures old(Current()) ==>
        Current() && db.tickets == old(db.tickets)[ticketId := Step(old(ticket.value), viewer, Resolve(old(afterFile)))]
      ensures old(Current()) && old(afterFile).Some? ==> afterFile.None?
      ensures old(Current()) && AllConsistent(old(db.tickets)) ==> AllConsistent(db.tickets)
    {
      ghost var before := db.tickets;
      var a := Resolve(afterFile);
      if afterFile.None? {
        error := LocalCheck;
        return;
      }
      var req := Sent(ticket.value, viewer, a).value;
      if Current() {
        SentRequestsAccepted(db.tickets, ticketId, viewer, a);
      }
      var ok := Submit(req);
      if ok {
        afterFile := None;
      }
      if old(Current()) && AllConsistent(before) {
        StepKeepsAllConsistent(before, ticketId, viewer, a);
      }
    }

    /** `handleRate`, reachable from the rating panel only: zero stars are
        refused locally. */
    method HandleRate()
      requires Valid() && ticket.Some? && CanRate(ticket.value, viewer)
      modifies this, db
      ensures Valid() && db.users == old(db.users)
      ensures old(rating) == 0 ==> db.tickets == old(db.tickets) && error == LocalCheck
      ensures db.tickets == AfterRequest(old(db.tickets), ticketId, Sent(old(ticket.value), viewer, Rate(old(rating), old(review))))
      ensures old(Current()) ==>
        Current() && db.tickets == old(db.tickets)[ticketId := Step(old(ticket.value), viewer, Rate(old(rating), old(review)))]
      ensures old(Current()) && AllConsistent(old(db.tickets)) ==> AllConsistent(db.tickets)
    {
      ghost var before := db.tickets;
      var a := Rate(rating, review);
      if rating == 0 {
        error := LocalCheck;
        return;
      }
      var req := Sent(ticket.value, viewer, a).value;
      if Current() {
        SentRequestsAccepted(db.tickets, ticketId, viewer, a);
      }
      var ok := Submit(req);
      if old(Current()) && AllConsistent(before) {
        StepKeepsAllConsistent(before, ticketId, viewer, a);
      }
    }

    /** `handleDelete`, reachable from the delete button only: nothing
        happens unless the viewer confirms; the server's refusal is shown,
        a success leaves the page. With a current copy the server always
        agrees and the row is gone; with a stale one the server's delete
        rule decides. */
    method HandleDelete(confirmed: bool)
      requires Valid() && ticket.Some? && CanDelete(ticket.value, viewer)
      modifies this, db
      ensures Valid() && db.users == old(db.users)
      ensures !confirmed ==> db.tickets == old(db.tickets) && leftPage == old(leftPage)
      ensures confirmed ==>
        var allowed := ticketId in old(db.tickets) && MayDelete(old(db.tickets)[ticketId], viewer.role, viewer.id);
        && (allowed ==> db.tickets == old(db.tickets) - {ticketId} && leftPage)
        && (!allowed ==> db.tickets == old(db.tickets) && leftPage == old(leftPage))
      ensures confirmed && old(Current()) ==> db.tickets == old(db.tickets) - {ticketId} && leftPage
      ensures AllConsistent(old(db.tickets)) ==> AllConsistent(db.tickets)
    {
      if !confirmed {
        return;
      }
      actionLoading := true;
      if Current() {
        CanDeleteMatchesServer(ticket.value, viewer);
      }
      var e := db.DeleteTicket(ticketId, viewer.role, viewer.id);
      if e.None? {
        leftPage := true;
      } else {
        error := Refused(e.value);
      }
      actionLoading := false;
    }
  }
}
