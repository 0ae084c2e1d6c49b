/** One pass of the sweeper: what it counts, which holds it takes, and how many
    passes empty the backlog. */
module SweepPass {
  import opened Domain
  import opened Store
  import opened Steps
  import Histories
  import Invariant
  import Seats
  import Sums

  ghost function ActiveClaims(s: State): set<ClaimKey> {
    set k | k in s.claims && s.claims[k].active
  }

  /** The rows the final UPDATE touches. */
  function Released(s: State, ids: set<BookingId>): set<ClaimKey> {
    set k | k in s.claims && s.claims[k].active && k.booking in ids
  }

  /** Neither limit nor backlog left behind: the pass takes as many due holds as
      it may, the earliest ones. */
  ghost predicate IsPass(s: State, limit: nat, locked: set<BookingId>, ids: set<BookingId>) {
    && ids <= Due(s) - locked
    && |ids| == (if |Due(s) - locked| < limit then |Due(s) - locked| else limit)
    && forall a, b | a in ids && b in Due(s) - locked - ids ::
         s.bookings[a].expiry.value <= s.bookings[b].expiry.value
  }

  /** The pass reports exactly the drop in active claims: seats, not bookings. */
  lemma SweepReturnsFreedSeats(s: State, ids: set<BookingId>)
    requires ids <= Due(s)
    ensures |Released(s, ids)| == |ActiveClaims(s)| - |ActiveClaims(Sweep(s, ids))|
    ensures ActiveClaims(Sweep(s, ids)) == ActiveClaims(s) - Released(s, ids)
  {
    assert ActiveClaims(Sweep(s, ids)) == ActiveClaims(s) - Released(s, ids);
    assert Released(s, ids) <= ActiveClaims(s);
  }

  lemma SweepShrinksBacklog(s: State, ids: set<BookingId>)
    requires ids <= Due(s)
    ensures Due(Sweep(s, ids)) == Due(s) - ids
    ensures |Due(Sweep(s, ids))| == |Due(s)| - |ids|
  {
    assert Due(Sweep(s, ids)) == Due(s) - ids;
  }

  ghost predicate ArePasses(s: State, limit: nat, passes: seq<set<BookingId>>)
    decreases |passes|
  {
    passes == [] || (IsPass(s, limit, {}, passes[0]) && ArePasses(Sweep(s, passes[0]), limit, passes[1..]))
  }

  ghost function Sweeps(passes: seq<set<BookingId>>): seq<Step> {
    seq(|passes|, i requires 0 <= i < |passes| => StepSweep(passes[i]))
  }

  lemma PassShrinksBacklog(s: State, limit: nat, ids: set<BookingId>)
    requires IsPass(s, limit, {}, ids)
    ensures |Due(Sweep(s, ids))| == if |Due(s)| < limit then 0 else |Due(s)| - limit
  {
    assert Due(s) - {} == Due(s);
    SweepShrinksBacklog(s, ids);
  }

  function LeftAfter(due: nat, passes: nat, limit: nat): nat {
    if due < passes * limit then 0 else due - passes * limit
  }

  lemma LeftAfterOneMore(due: nat, passes: nat, limit: nat)
    ensures LeftAfter(due, passes + 1, limit) == LeftAfter(if due < limit then 0 else due - limit, passes, limit)
  {
    assert (passes + 1) * limit == passes * limit + limit;
    assert passes * limit >= 0;
  }

  /** With the clock still and nobody holding locks, n passes leave exactly the
      holds the n limits could not reach. */
  lemma {:induction false} PassesDrain(s: State, limit: nat, passes: seq<set<BookingId>>)
    requires ArePasses(s, limit, passes)
    ensures |Due(Run(s, Sweeps(passes)))| == LeftAfter(|Due(s)|, |passes|, limit)
    decreases |passes|
  {
    if passes != [] {
      PassShrinksBacklog(s, limit, passes[0]);
      assert Sweeps(passes)[1..] == Sweeps(passes[1..]);
      PassesDrain(Sweep(s, passes[0]), limit, passes[1..]);
      LeftAfterOneMore(|Due(s)|, |passes[1..]|, limit);
    }
  }

  lemma EnoughPassesLeaveNoneDue(s: State, limit: nat, passes: seq<set<BookingId>>)
    requires ArePasses(s, limit, passes)
    ensures Due(Run(s, Sweeps(passes))) == {} <==> |Due(s)| <= |passes| * limit
  {
    PassesDrain(s, limit, passes);
  }

  // ----------------------------------------------------------- seats or bookings

  /** The seats of each released booking beyond its first; minus one for a
      booking without any. */
  ghost function Surplus(s: State, ids: set<BookingId>): map<BookingId, int> {
    map b | b in ids :: |Released(s, {b})| - 1
  }

  /** What the count differs by from the promised number of bookings, whatever
      the bookings hold. */
  lemma {:induction false} CountExceedsBookingsBySurplus(s: State, ids: set<BookingId>)
    ensures |Released(s, ids)| == |ids| + Sums.Total(Surplus(s, ids))
    decreases ids
  {
    if b :| b in ids {
      var rest := ids - {b};
      CountExceedsBookingsBySurplus(s, rest);
      assert Released(s, ids) == Released(s, rest) + Released(s, {b});
      assert |Released(s, ids)| == |Released(s, rest)| + |Released(s, {b})|;
      Sums.TotalRemove(Surplus(s, ids), b);
      assert Surplus(s, ids) - {b} == Surplus(s, rest);
    } else {
      assert Released(s, ids) == {} && Surplus(s, ids) == map[];
    }
  }

  lemma {:induction false} NoSurplusIffAllZero(m: map<BookingId, int>)
    requires forall b | b in m :: m[b] >= 0
    ensures Sums.Total(m) == 0 <==> forall b | b in m :: m[b] == 0
    decreases m.Keys
  {
    if m != map[] {
      assert m.Keys != {};
      var b := Sums.Pick(m.Keys);
      Sums.TotalRemove(m, b);
      Sums.TotalNonNegative(m - {b});
      NoSurplusIffAllZero(m - {b});
      assert forall c | c in m :: c == b || (c in m - {b} && (m - {b})[c] == m[c]);
      assert forall c | c in m - {b} :: c in m && m[c] == (m - {b})[c];
    }
  }

  /** Every booking has a claim. */
  ghost predicate Seated(s: State) {
    forall b | b in s.bookings :: HasClaim(s, b)
  }

  ghost predicate HasClaim(s: State, b: BookingId) {
    exists k :: k in s.claims && k.booking == b
  }

  /** The use case never asks for an empty hold. */
  predicate AsksForSeats(step: Step) {
    step.StepHold? ==> step.req.seats != []
  }

  lemma StepKeepsSeated(s: State, step: Step)
    requires Valid(s) && Seated(s) && AsksForSeats(step)
    ensures Seated(Apply(s, step))
  {
    var t := Apply(s, step);
    Histories.StepEvolves(s, step);
    forall b | b in t.bookings ensures HasClaim(t, b) {
      if b in s.bookings {
        var k :| k in s.claims && k.booking == b;
        assert k in t.claims;
      } else {
        NewBookingHasClaim(s, step, b);
      }
    }
  }

  lemma NewBookingHasClaim(s: State, step: Step, b: BookingId)
    requires forall p | p in s.payments :: s.payments[p].booking in s.bookings
    requires AsksForSeats(step) && b in Apply(s, step).bookings && b !in s.bookings
    ensures HasClaim(Apply(s, step), b)
  {
    if step.StepWebhook? {
      var p := ByRef(s.payments, step.event.key.provider, step.event.ref);
      if p.Some? {
        Invariant.ActIsUpdateThenBooking(Recorded(s, step.event.key, p), step.event, p.value);
      }
    } else {
      assert step.StepHold?;
      var x := step.req.seats[0];
      assert x.id in Seats.Ids(step.req.seats);
      assert ClaimKey(b, x.id) in Apply(s, step).claims;
    }
  }

  lemma {:induction false} RunKeepsSeated(s: State, steps: seq<Step>)
    requires Valid(s) && Seated(s) && forall step | step in steps :: AsksForSeats(step)
    ensures Valid(Run(s, steps)) && Seated(Run(s, steps))
    decreases |steps|
  {
    if steps != [] {
      StepKeepsSeated(s, steps[0]);
      Invariant.StepKeepsValid(s, steps[0]);
      RunKeepsSeated(Apply(s, steps[0]), steps[1..]);
    }
  }

  lemma DueHoldsSeats(s: State, b: BookingId)
    requires ClaimsFollowBookings(s) && Seated(s) && b in Due(s)
    ensures |Released(s, {b})| >= 1
  {
    var k :| k in s.claims && k.booking == b;
    assert {k} <= Released(s, {b});
    assert |{k}| == 1;
  }

  lemma SingleSeatsIffCounted(s: State, ids: set<BookingId>)
    requires ClaimsFollowBookings(s) && Seated(s) && ids <= Due(s)
    ensures |Released(s, ids)| == |ids| <==> forall b | b in ids :: |Released(s, {b})| == 1
  {
    var surplus := Surplus(s, ids);
    CountExceedsBookingsBySurplus(s, ids);
    forall b | b in surplus ensures surplus[b] >= 0 {
      DueHoldsSeats(s, b);
    }
    NoSurplusIffAllZero(surplus);
    assert forall b | b in ids :: b in surplus && surplus[b] == |Released(s, {b})| - 1;
    assert surplus.Keys == ids;
  }

  /** The repository interface promises a number of bookings. In every state a run
      of nonempty holds can reach, the count is that number exactly when every
      released booking had a single seat. */
  lemma CountsBookingsOnlyIfSingleSeats(steps: seq<Step>, ids: set<BookingId>)
    requires forall step | step in steps :: AsksForSeats(step)
    requires ids <= Due(Run(EmptyState, steps))
    ensures var s := Run(EmptyState, steps);
            |Released(s, ids)| == |ids| <==> forall b | b in ids :: |Released(s, {b})| == 1
  {
    SingleSeatsIffCounted(Run(EmptyState, steps), ids) by {
      RunKeepsSeated(EmptyState, steps);
    }
  }

  /** Two lapsed seats of one booking count as two. */
  lemma TwoSeatsCountTwice()
    ensures exists s, ids :: Valid(s) && ids <= Due(s) && |ids| == 1 && |Released(s, ids)| == 2
  {
    var x, y := ClaimKey(0, 1), ClaimKey(0, 2);
    var s := EmptyState.(
      bookings := map[0 := Booking(0, "u", BookingHeld, 0, Some(0), "")],
      claims := map[x := Claim(0, 0, true), y := Claim(0, 0, true)]);
    assert x in s.claims && y in s.claims;
    assert Released(s, {0}) == {x, y};
    TotalOfZeros(PricesOf(s, 0));
    assert Valid(s);
    assert 0 in Due(s);
  }

  lemma {:induction false} TotalOfZeros(m: map<ClaimKey, int>)
    requires forall k | k in m :: m[k] == 0
    ensures Sums.Total(m) == 0
    decreases m.Keys
  {
    if m != map[] {
      assert m.Keys != {};
      TotalOfZeros(m - {Sums.Pick(m.Keys)});
    }
  }
}
