/** GET /api/technician-ratings of server.js: for every technician, the
    number of rated tickets assigned to them, the mean of those ratings and
    the number of tickets assigned to them. The mean is kept as the exact
    fraction sum / count instead of the one-decimal float SQL rounds to. */
module ServerRatings {
  import opened Common
  import opened ServerTickets
  import opened ServerUsers

  /** `AVG(t.rating)` before rounding: the sum of the ratings over their number. */
  datatype Mean = Mean(sum: int, count: nat)

  /** One row of the response. */
  datatype TechnicianRating = TechnicianRating(
    id: int,
    name: string,
    totalRatings: nat,
    avgRating: Option<Mean>,
    totalTickets: nat)

  /** The tickets `LEFT JOIN tickets t ON t.technician_id = u.id` pairs with the technician. */
  function AssignedTo(tickets: map<int, Ticket>, techId: int): set<int>
  {
    set k | k in tickets && tickets[k].technicianId == Some(techId)
  }

  /** Those of them `COUNT(t.rating)` counts: the ones with a non-null rating. */
  function RatedFor(tickets: map<int, Ticket>, techId: int): (s: set<int>)
    ensures s <= AssignedTo(tickets, techId)
  {
    set k | k in AssignedTo(tickets, techId) && tickets[k].rating.Some?
  }

  /** The rating of a ticket, 0 for an unrated one. */
  function RatingOf(tickets: map<int, Ticket>, k: int): int
  {
    if k in tickets && tickets[k].rating.Some? then tickets[k].rating.value else 0
  }

  /** `SUM` of the ratings of the tickets with the given ids. */
  ghost function RatingSum(tickets: map<int, Ticket>, ids: set<int>): int
    decreases |ids|
  {
    if ids == {} then 0
    else
      NonEmptyHasMember(ids);
      var k :| k in ids;
      RatingOf(tickets, k) + RatingSum(tickets, ids - {k})
  }

  /** The sum does not depend on which id the definition takes first. */
  lemma {:induction false} RatingSumRemove(tickets: map<int, Ticket>, ids: set<int>, x: int)
    requires x in ids
    ensures RatingSum(tickets, ids) == RatingOf(tickets, x) + RatingSum(tickets, ids - {x})
    decreases |ids|
  {
    NonEmptyHasMember(ids);
    var y :| y in ids && RatingSum(tickets, ids) == RatingOf(tickets, y) + RatingSum(tickets, ids - {y});
    if y != x {
      RatingSumRemove(tickets, ids - {y}, x);
      RatingSumRemove(tickets, ids - {x}, y);
      assert ids - {y} - {x} == ids - {x} - {y};
    }
  }

  /** A set is no larger than a superset of it. */
  lemma {:induction false} SubsetNoLarger(a: set<int>, b: set<int>)
    requires a <= b
    ensures |a| <= |b|
    decreases |a|
  {
    if a != {} {
      NonEmptyHasMember(a);
      var x :| x in a;
      SubsetNoLarger(a - {x}, b - {x});
    }
  }

  /** The response row of one technician. */
  ghost function RatingRow(tickets: map<int, Ticket>, u: User): (r: TechnicianRating)
    ensures r.id == u.id && r.name == u.name
    ensures r.totalTickets == |AssignedTo(tickets, u.id)| && r.totalRatings == |RatedFor(tickets, u.id)|
    ensures r.totalRatings <= r.totalTickets
    ensures r.avgRating.None? <==> r.totalRatings == 0
    ensures r.avgRating.Some? ==> r.avgRating.value == Mean(RatingSum(tickets, RatedFor(tickets, u.id)), r.totalRatings)
  {
    var rated := RatedFor(tickets, u.id);
    SubsetNoLarger(rated, AssignedTo(tickets, u.id));
    TechnicianRating(u.id, u.name, |rated|,
                     if |rated| == 0 then None else Some(Mean(RatingSum(tickets, rated), |rated|)),
                     |AssignedTo(tickets, u.id)|)
  }

  /** The whole response keyed by technician id: one row for every user
      whose role is 'technician', including one with no tickets. */
  ghost function TechnicianRatings(users: map<int, User>, tickets: map<int, Ticket>): (r: map<int, TechnicianRating>)
    ensures r.Keys == set k | k in users && users[k].role == ROLE_TECHNICIAN
    ensures forall k :: k in r ==> r[k] == RatingRow(tickets, users[k])
  {
    map k | k in users && users[k].role == ROLE_TECHNICIAN :: RatingRow(tickets, users[k])
  }

  /** A technician with no assigned tickets gets zero counts and no mean. */
  lemma IdleTechnician(users: map<int, User>, tickets: map<int, Ticket>, k: int)
    requires ServerUsers.Keyed(users) && k in users && users[k].role == ROLE_TECHNICIAN
    requires forall j :: j in tickets ==> tickets[j].technicianId != Some(k)
    ensures var row := TechnicianRatings(users, tickets)[k];
            row.totalTickets == 0 && row.totalRatings == 0 && row.avgRating.None?
  {
    var theirs := AssignedTo(tickets, k);
    if theirs != {} {
      NonEmptyHasMember(theirs);
      assert false;
    }
    assert theirs == {};
    var rated := RatedFor(tickets, k);
    if rated != {} {
      NonEmptyHasMember(rated);
      assert false;
    }
    assert TechnicianRatings(users, tickets)[k] == RatingRow(tickets, users[k]);
  }

  /** Rating a ticket assigned to a technician who had no rated tickets
      gives that technician one rating whose mean is the new rating. */
  lemma FirstRating(tickets: map<int, Ticket>, techId: int, id: int, stars: int)
    requires id in tickets && tickets[id].technicianId == Some(techId) && tickets[id].rating.None?
    requires RatedFor(tickets, techId) == {}
    ensures var tickets' := tickets[id := tickets[id].(rating := Some(stars))];
            RatedFor(tickets', techId) == {id} &&
            RatingSum(tickets', {id}) == stars &&
            |AssignedTo(tickets', techId)| == |AssignedTo(tickets, techId)|
  {
    var tickets' := tickets[id := tickets[id].(rating := Some(stars))];
    assert AssignedTo(tickets', techId) == AssignedTo(tickets, techId);
    RatingSumRemove(tickets', {id}, id);
    assert {id} - {id} == {};
  }
}
