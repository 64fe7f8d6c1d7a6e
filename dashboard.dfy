/** The numbers of client/src/pages/Dashboard.jsx: the status counts over
    the ticket list the server returns to the viewer, and the rule that
    only an admin also loads the technician ratings. */
module Dashboard {
  import opened Common
  import opened ServerTickets
  import opened ServerUsers
  import opened ServerRatings

  /** The `stats` object. */
  datatype Stats = Stats(total: nat, pending: nat, inProgress: nat, resolved: nat)

  /** `tickets.filter((t) => t.status === status).length`. */
  function CountStatus(tickets: seq<Ticket>, status: string): (n: nat)
    ensures n <= |tickets|
    ensures n == 0 <==> forall i :: 0 <= i < |tickets| ==> tickets[i].status != status
    ensures n == |tickets| <==> forall i :: 0 <= i < |tickets| ==> tickets[i].status == status
  {
    if tickets == [] then 0
    else (if tickets[0].status == status then 1 else 0) + CountStatus(tickets[1..], status)
  }

  /** The four counts of the list. */
  function ComputeStats(tickets: seq<Ticket>): (s: Stats)
    ensures s.total == |tickets|
    ensures s.pending == CountStatus(tickets, PENDING) && s.inProgress == CountStatus(tickets, IN_PROGRESS)
    ensures s.resolved == CountStatus(tickets, RESOLVED)
    ensures s.pending <= s.total && s.inProgress <= s.total && s.resolved <= s.total
  {
    Stats(|tickets|, CountStatus(tickets, PENDING), CountStatus(tickets, IN_PROGRESS), CountStatus(tickets, RESOLVED))
  }

  /** Every status in the list is one of the three. */
  predicate KnownStatuses(tickets: seq<Ticket>)
  {
    forall i :: 0 <= i < |tickets| ==> tickets[i].status in {PENDING, IN_PROGRESS, RESOLVED}
  }

  /** The three counts add up to at most the total, and to exactly the
      total when every status is one of the three. */
  lemma {:induction false} StatsSum(tickets: seq<Ticket>)
    ensures var s := ComputeStats(tickets);
            s.pending + s.inProgress + s.resolved <= s.total &&
            (KnownStatuses(tickets) ==> s.pending + s.inProgress + s.resolved == s.total)
  {
    if tickets != [] {
      StatsSum(tickets[1..]);
      assert KnownStatuses(tickets) ==> KnownStatuses(tickets[1..]);
    }
  }

  /** Counting distributes over concatenation. */
  lemma {:induction false} CountConcat(a: seq<Ticket>, b: seq<Ticket>, status: string)
    ensures CountStatus(a + b, status) == CountStatus(a, status) + CountStatus(b, status)
  {
    if a != [] {
      assert (a + b)[1..] == a[1..] + b;
      CountConcat(a[1..], b, status);
    } else {
      assert a + b == b;
    }
  }

  /** The counts do not depend on the order of the list. */
  lemma {:induction false} CountPermutation(a: seq<Ticket>, b: seq<Ticket>, status: string)
    requires multiset(a) == multiset(b)
    ensures CountStatus(a, status) == CountStatus(b, status)
    decreases |a|
  {
    if a == [] {
      assert |b| == |multiset(b)| == 0;
    } else {
      var x := a[0];
      assert x in multiset(b);
      var j :| 0 <= j < |b| && b[j] == x;
      var rest := b[..j] + b[j + 1..];
      assert b == b[..j] + [x] + b[j + 1..];
      assert a == [x] + a[1..];
      assert multiset(b) == multiset(b[..j]) + multiset([x]) + multiset(b[j + 1..]);
      assert multiset(a) == multiset([x]) + multiset(a[1..]);
      assert multiset(rest) == multiset(b[..j]) + multiset(b[j + 1..]);
      assert multiset(a[1..]) == multiset(a) - multiset{x};
      assert multiset(rest) == multiset(b) - multiset{x};
      CountPermutation(a[1..], rest, status);
      CountConcat(b[..j] + [x], b[j + 1..], status);
      CountConcat(b[..j], [x], status);
      CountConcat(b[..j], b[j + 1..], status);
    }
  }

  /** The stats do not depend on the order of the list. */
  lemma StatsPermutation(a: seq<Ticket>, b: seq<Ticket>)
    requires multiset(a) == multiset(b)
    ensures ComputeStats(a) == ComputeStats(b)
  {
    assert |a| == |multiset(a)| == |multiset(b)| == |b|;
    CountPermutation(a, b, PENDING);
    CountPermutation(a, b, IN_PROGRESS);
    CountPermutation(a, b, RESOLVED);
  }

  /** What `fetchData` loads: the viewer's ticket list, and the ratings
      table for an admin only. */
  datatype DashboardData = DashboardData(tickets: seq<Ticket>, ratings: Option<map<int, TechnicianRating>>)

  ghost function FetchData(tickets: map<int, Ticket>, users: map<int, User>, role: string, userId: int): (d: DashboardData)
    requires ServerTickets.Keyed(tickets)
    ensures d.tickets == Listing(tickets, role, userId)
    ensures d.ratings.Some? <==> role == ROLE_ADMIN
    ensures d.ratings.Some? ==> d.ratings.value == TechnicianRatings(users, tickets)
  {
    DashboardData(Listing(tickets, role, userId),
                  if role == ROLE_ADMIN then Some(TechnicianRatings(users, tickets)) else None)
  }
}
