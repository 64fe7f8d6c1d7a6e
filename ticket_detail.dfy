/** The pure logic of the ticket page (client/src/pages/TicketDetail.jsx):
    which action panels a viewer is offered, the request each action
    handler sends, and the status timeline. */
module TicketDetail {
  import opened Common
  import opened ServerTickets

  /** The logged-in user as the page sees them. */
  datatype Viewer = Viewer(id: int, role: string)

  // ---------------------------------------------------------------------
  // The action panels

  /** The delete button: an admin, or the resident who created a ticket
      that is still Pending. */
  predicate CanDelete(t: Ticket, v: Viewer)
  {
    v.role == ROLE_ADMIN || (v.role == ROLE_USER && t.createdBy == v.id && t.status == PENDING)
  }

  /** `!ticket.rating`: no rating, or the falsy rating 0. */
  predicate Unrated(t: Ticket)
  {
    t.rating.None? || t.rating == Some(0)
  }

  /** The rating panel: the creating resident, on a Resolved ticket that
      has no rating yet. */
  predicate CanRate(t: Ticket, v: Viewer)
  {
    v.role == ROLE_USER && t.createdBy == v.id && t.status == RESOLVED && Unrated(t)
  }

  /** The accept panel: any technician, on a Pending ticket. */
  predicate CanAccept(t: Ticket, v: Viewer)
  {
    v.role == ROLE_TECHNICIAN && t.status == PENDING
  }

  /** The resolve panel: the technician assigned to an In-Progress ticket. */
  predicate CanResolve(t: Ticket, v: Viewer)
  {
    v.role == ROLE_TECHNICIAN && t.technicianId == Some(v.id) && t.status == IN_PROGRESS
  }

  /** The cancel panel, written out separately in the page with the same
      three conditions as the resolve panel. */
  predicate CanCancel(t: Ticket, v: Viewer)
  {
    v.role == ROLE_TECHNICIAN && t.technicianId == Some(v.id) && t.status == IN_PROGRESS
  }

  /** The assignment panel: an admin, on a Pending ticket. */
  predicate CanAssign(t: Ticket, v: Viewer)
  {
    v.role == ROLE_ADMIN && t.status == PENDING
  }

  /** The delete button is shown exactly when the server's delete rule
      lets the same caller delete the ticket. */
  lemma CanDeleteMatchesServer(t: Ticket, v: Viewer)
    ensures CanDelete(t, v) <==> MayDelete(t, v.role, v.id)
  {
  }

  /** A ticket with a (non-zero) rating never offers rating again. */
  lemma RatedNotRateable(t: Ticket, v: Viewer)
    requires t.rating.Some? && t.rating.value != 0
    ensures !CanRate(t, v)
  {
  }

  /** The resolve and cancel panels are offered together or not at all. */
  lemma ResolveAndCancelTogether(t: Ticket, v: Viewer)
    ensures CanResolve(t, v) <==> CanCancel(t, v)
  {
  }

  /** No viewer is offered both accept and assign. */
  lemma AcceptAndAssignExclusive(t: Ticket, v: Viewer)
    ensures !(CanAccept(t, v) && CanAssign(t, v))
  {
  }

  // ---------------------------------------------------------------------
  // The requests the action handlers send

  /** A user action on the page, with the page state its handler reads:
      the selected technician (none for the empty option), the typed
      cancel reason, the stored path of the chosen after-photo (none when
      no file was chosen), and the star count and review text. */
  datatype Action =
    | Accept
    | Assign(selected: Option<int>)
    | Cancel(reason: string)
    | Resolve(afterFile: Option<string>)
    | Rate(stars: int, review: string)

  /** One PUT /api/tickets/:id request: its body and its uploaded file. */
  datatype Request = Request(patch: TicketPatch, upload: Option<string>)

  /** The request an action sends when its panel is shown, or `None`:
      the panel is not offered to this viewer on this ticket, or the
      handler's own check stops it (no technician selected, a blank cancel
      reason, no after-photo, zero stars). */
  function Sent(t: Ticket, v: Viewer, a: Action): (r: Option<Request>)
    ensures a.Accept? ==>
      (r.Some? <==> CanAccept(t, v)) &&
      (r.Some? ==> r.value == Request(TicketPatch(Some(IN_PROGRESS), Technician(v.id), None, None, None), None))
    ensures a.Assign? ==>
      (r.Some? <==> CanAssign(t, v) && a.selected.Some?) &&
      (r.Some? ==> r.value == Request(TicketPatch(Some(IN_PROGRESS), Technician(a.selected.value), None, None, None), None))
    ensures a.Cancel? ==>
      (r.Some? <==> CanCancel(t, v) && !Blank(a.reason)) &&
      (r.Some? ==> r.value == Request(TicketPatch(Some(PENDING), NullValue, None, None, Some(a.reason)), None))
    ensures a.Resolve? ==>
      (r.Some? <==> CanResolve(t, v) && a.afterFile.Some?) &&
      (r.Some? ==> r.value == Request(TicketPatch(Some(RESOLVED), Absent, None, None, None), a.afterFile))
    ensures a.Rate? ==>
      (r.Some? <==> CanRate(t, v) && a.stars != 0) &&
      (r.Some? ==> r.value == Request(TicketPatch(None, Absent, Some(a.stars), Some(a.review), None), None))
  {
    match a
    case Accept =>
      if CanAccept(t, v) then Some(Request(TicketPatch(Some(IN_PROGRESS), Technician(v.id), None, None, None), None))
      else None
    case Assign(selected) =>
      if CanAssign(t, v) && selected.Some? then
        Some(Request(TicketPatch(Some(IN_PROGRESS), Technician(selected.value), None, None, None), None))
      else None
    case Cancel(reason) =>
      if CanCancel(t, v) && Trim(reason) != "" then
        Some(Request(TicketPatch(Some(PENDING), NullValue, None, None, Some(reason)), None))
      else None
    case Resolve(afterFile) =>
      if CanResolve(t, v) && afterFile.Some? then
        Some(Request(TicketPatch(Some(RESOLVED), Absent, None, None, None), afterFile))
      else None
    case Rate(stars, review) =>
      if CanRate(t, v) && stars != 0 then
        Some(Request(TicketPatch(None, Absent, Some(stars), Some(review), None), None))
      else None
  }

  /** Every request the page sends carries a status or a rating, so the
      server never answers it with 400; on an existing row it answers
      with the patched row. */
  lemma SentRequestsAccepted(tickets: map<int, Ticket>, id: int, v: Viewer, a: Action)
    requires id in tickets && Sent(tickets[id], v, a).Some?
    ensures var req := Sent(tickets[id], v, a).value;
            UpdateOutcome(tickets, id, req.patch, req.upload) == Ok(Patched(tickets[id], req.patch, req.upload))
  {
  }

  // ---------------------------------------------------------------------
  // The status timeline

  /** The three steps of the timeline, in order. */
  const STEPS: seq<string> := [PENDING, IN_PROGRESS, RESOLVED]

  /** `isPast` of one timeline step for the ticket's status. */
  predicate IsPast(step: string, status: string)
  {
    || step == PENDING
    || (step == IN_PROGRESS && (status == IN_PROGRESS || status == RESOLVED))
    || (step == RESOLVED && status == RESOLVED)
  }

  /** The steps of `steps` drawn as past, in order. */
  function PastSteps(steps: seq<string>, status: string): (r: seq<string>)
    ensures |r| <= |steps|
    ensures forall i :: 0 <= i < |r| ==> r[i] in steps && IsPast(r[i], status)
  {
    if steps == [] then []
    else (if IsPast(steps[0], status) then [steps[0]] else []) + PastSteps(steps[1..], status)
  }

  /** The past steps are a non-empty prefix of the timeline that starts
      with Pending and, for one of the three statuses, ends at it; any
      other status has only Pending past. That last case is never drawn:
      the page header looks up the status's icon in `statusConfig`
      (client/src/pages/TicketDetail.jsx:255-256), which fails first for
      such a status. */
  lemma TimelinePastPrefix(status: string)
    ensures var past := PastSteps(STEPS, status);
      && 1 <= |past| <= 3 && past == STEPS[..|past|]
      && past[0] == PENDING
      && (status in STEPS ==> past[|past| - 1] == status)
      && (status !in STEPS ==> past == [PENDING])
  {
    var s1, s2, s3 := STEPS[1..], STEPS[2..], STEPS[3..];
    assert s1 == [IN_PROGRESS, RESOLVED] && s1[1..] == s2;
    assert s2 == [RESOLVED] && s2[1..] == s3 && s3 == [];
    assert IsPast(PENDING, status);
    var p3 := PastSteps(s3, status);
    var p2 := PastSteps(s2, status);
    var p1 := PastSteps(s1, status);
    assert p3 == [];
    assert p2 == if status == RESOLVED then [RESOLVED] else [];
    assert p1 == (if status == IN_PROGRESS || status == RESOLVED then [IN_PROGRESS] else []) + p2;
    assert PastSteps(STEPS, status) == [PENDING] + p1;
  }
}
