/** The ticket lifecycle that emerges when every update comes from the
    ticket page's guarded action handlers and is applied with the
    server's partial-update semantics: Pending, then In-Progress once a
    technician accepts or is assigned, then Resolved, or back to Pending
    when the technician cancels. The server checks none of this itself;
    the last lemmas show requests it accepts that break each rule. */
module Lifecycle {
  import opened Common
  import opened ServerTickets
  import opened TicketDetail

  /** The rules the guarded page keeps: the status is one of the three,
      a technician is present exactly when the ticket has left Pending,
      and a rating (1 to 5) is present only on a Resolved ticket. */
  predicate Consistent(t: Ticket)
  {
    && (t.status == PENDING || t.status == IN_PROGRESS || t.status == RESOLVED)
    && (t.technicianId.Some? <==> t.status != PENDING)
    && (t.rating.Some? ==> t.status == RESOLVED && 1 <= t.rating.value <= 5)
  }

  /** The star counts the rating widget can produce: 0 before a click,
      else the clicked star, 1 to 5. */
  predicate WellFormed(a: Action)
  {
    a.Rate? ==> 0 <= a.stars <= 5
  }

  /** One action on the page: the row after the server applies the
      request the handler sends, or the same row when none is sent. */
  function Step(t: Ticket, v: Viewer, a: Action): (r: Ticket)
    ensures Sent(t, v, a).None? ==> r == t
  {
    match Sent(t, v, a)
    case None => t
    case Some(req) => Patched(t, req.patch, req.upload)
  }

  /** One page action by one viewer. */
  datatype Event = Event(viewer: Viewer, action: Action)

  /** The row after a sequence of page actions, oldest first. */
  function Run(t: Ticket, trace: seq<Event>): Ticket
    decreases |trace|
  {
    if trace == [] then t
    else Run(Step(t, trace[0].viewer, trace[0].action), trace[1..])
  }

  /** How many of those actions send a rating. */
  function RatingsSent(t: Ticket, trace: seq<Event>): nat
    decreases |trace|
  {
    if trace == [] then 0
    else
      var e := trace[0];
      (if e.action.Rate? && Sent(t, e.viewer, e.action).Some? then 1 else 0)
        + RatingsSent(Step(t, e.viewer, e.action), trace[1..])
  }

  /** A new ticket starts out consistent. */
  lemma NewTicketConsistent(id: int, title: string, description: string, roomNumber: string,
                            createdBy: int, imageBefore: Option<string>, now: int)
    ensures Consistent(NewTicket(id, title, description, roomNumber, createdBy, imageBefore, now))
  {
  }

  /** Every page action keeps a consistent row consistent. */
  lemma StepPreserves(t: Ticket, v: Viewer, a: Action)
    requires Consistent(t) && WellFormed(a)
    ensures Consistent(Step(t, v, a))
  {
    match a
    case Accept =>
    case Assign(_) =>
    case Cancel(_) =>
    case Resolve(_) =>
    case Rate(_, _) =>
  }

  /** Every action other than a sent rating leaves the rating as it was,
      and once a ticket is rated no action changes its rating. */
  lemma StepKeepsRating(t: Ticket, v: Viewer, a: Action)
    requires Consistent(t)
    ensures !(a.Rate? && Sent(t, v, a).Some?) ==> Step(t, v, a).rating == t.rating
    ensures t.rating.Some? ==> Step(t, v, a).rating == t.rating
  {
  }

  /** A sequence of well-formed page actions keeps a consistent row
      consistent. */
  lemma {:induction false} RunPreserves(t: Ticket, trace: seq<Event>)
    requires Consistent(t)
    requires forall i :: 0 <= i < |trace| ==> WellFormed(trace[i].action)
    ensures Consistent(Run(t, trace))
    decreases |trace|
  {
    if trace != [] {
      StepPreserves(t, trace[0].viewer, trace[0].action);
      RunPreserves(Step(t, trace[0].viewer, trace[0].action), trace[1..]);
    }
  }

  /** A rated ticket keeps its rating through any sequence of actions. */
  lemma {:induction false} RunKeepsRating(t: Ticket, trace: seq<Event>)
    requires Consistent(t) && t.rating.Some?
    requires forall i :: 0 <= i < |trace| ==> WellFormed(trace[i].action)
    ensures Run(t, trace).rating == t.rating
    ensures RatingsSent(t, trace) == 0
    decreases |trace|
  {
    if trace != [] {
      var e := trace[0];
      RatedNotRateable(t, e.viewer);
      StepKeepsRating(t, e.viewer, e.action);
      StepPreserves(t, e.viewer, e.action);
      RunKeepsRating(Step(t, e.viewer, e.action), trace[1..]);
    }
  }

  /** A ticket is rated at most once: along any sequence of well-formed
      page actions at most one rating is sent, and none when the ticket
      already carries one. */
  lemma {:induction false} RatedAtMostOnce(t: Ticket, trace: seq<Event>)
    requires Consistent(t)
    requires forall i :: 0 <= i < |trace| ==> WellFormed(trace[i].action)
    ensures RatingsSent(t, trace) <= (if t.rating.Some? then 0 else 1)
    decreases |trace|
  {
    if t.rating.Some? {
      RunKeepsRating(t, trace);
    } else if trace != [] {
      var e := trace[0];
      var t' := Step(t, e.viewer, e.action);
      StepPreserves(t, e.viewer, e.action);
      if e.action.Rate? && Sent(t, e.viewer, e.action).Some? {
        assert t'.rating == Some(e.action.stars);
        RunKeepsRating(t', trace[1..]);
      } else {
        StepKeepsRating(t, e.viewer, e.action);
        RatedAtMostOnce(t', trace[1..]);
      }
    }
  }

  /** After one technician accepts, no viewer is offered accept again,
      so the page never sends a second accept. */
  lemma SecondAcceptRefused(t: Ticket, first: Viewer, second: Viewer)
    requires Consistent(t) && CanAccept(t, first)
    ensures Sent(Step(t, first, Accept), second, Accept).None?
    ensures Step(t, first, Accept).technicianId == Some(first.id)
  {
  }

  // ---------------------------------------------------------------------
  // What the server alone lets through

  /** The server stores a rating on a ticket that is not Resolved. */
  lemma ServerRatesUnresolved(tickets: map<int, Ticket>, id: int, stars: int)
    requires id in tickets && tickets[id].status == PENDING
    ensures var r := UpdateOutcome(tickets, id, TicketPatch(None, Absent, Some(stars), None, None), None);
            r.Ok? && r.value.rating == Some(stars) && !Consistent(r.value)
  {
  }

  /** The server overwrites an existing rating. */
  lemma ServerRerates(tickets: map<int, Ticket>, id: int, stars: int)
    requires id in tickets && tickets[id].rating.Some? && stars != tickets[id].rating.value
    ensures var r := UpdateOutcome(tickets, id, TicketPatch(None, Absent, Some(stars), None, None), None);
            r.Ok? && r.value.rating == Some(stars) && r.value.rating != tickets[id].rating
  {
  }

  /** The server sets a technician on a ticket that stays Pending. */
  lemma ServerAssignsPending(tickets: map<int, Ticket>, id: int, tech: int)
    requires id in tickets && tickets[id].status == PENDING
    ensures var r := UpdateOutcome(tickets, id, TicketPatch(None, Technician(tech), None, None, None), None);
            r.Ok? && r.value.technicianId == Some(tech) && r.value.status == PENDING && !Consistent(r.value)
  {
  }

  /** The server accepts a second accept and replaces the first
      technician, where the page offers no second accept. */
  lemma ServerAcceptsSecondAccept(tickets: map<int, Ticket>, id: int, first: Viewer, second: Viewer)
    requires id in tickets && Consistent(tickets[id]) && CanAccept(tickets[id], first)
    requires second.id != first.id
    ensures var t1 := Step(tickets[id], first, Accept);
            var r := UpdateOutcome(tickets[id := t1], id, TicketPatch(Some(IN_PROGRESS), Technician(second.id), None, None, None), None);
            r.Ok? && r.value.technicianId == Some(second.id) && Sent(t1, second, Accept).None?
  {
  }
}
