/** What depends on the sweeper and what does not: when a run with sweep passes can
    be told from the same run without them, by the statuses, the seat map and the
    holds, and by everything a client can read. */
module Sweeper {
  import opened Domain
  import opened Store
  import opened Steps
  import opened SeatMap
  import opened Readings
  import HoldRaces
  import Invariant

  /** `s` is `t` with some of its lapsed holds already expired. */
  ghost predicate Ahead(s: State, t: State, swept: set<BookingId>) {
    swept <= Due(t) && s == Close(t, swept, BookingExpired)
  }

  // ----------------------------------------------------------- what can be seen

  /** Whose booking it is, under which key, and its reported status. */
  ghost predicate ReadsTheSame(s: State, t: State, b: BookingId)
    requires b in s.bookings && b in t.bookings
  {
    && s.bookings[b].user == t.bookings[b].user
    && s.bookings[b].key == t.bookings[b].key
    && ReportedStatus(s.bookings[b], s.now) == ReportedStatus(t.bookings[b], t.now)
  }

  /** The owner, the key and the reported status of every booking, the seat map, and
      the answer of every hold that could be asked for now: its outcome, and the
      id an earlier booking under its key would give. Not the expiry of a booking,
      its seats, or the words in which a checkout is refused. */
  ghost predicate SameView(s: State, t: State) {
    && s.now == t.now
    && s.bookings.Keys == t.bookings.Keys
    && (forall b | b in s.bookings :: ReadsTheSame(s, t, b))
    && (forall st, seat :: StatusOf(s, st, seat) == StatusOf(t, st, seat))
    && (forall req, id :: TryHold(s, req, id) == TryHold(t, req, id))
    && (forall user, key :: HoldRaces.ByKey(s.bookings, user, key) == HoldRaces.ByKey(t.bookings, user, key))
  }

  lemma AheadReports(s: State, t: State, swept: set<BookingId>, b: BookingId)
    requires Ahead(s, t, swept) && b in t.bookings
    ensures ReadsTheSame(s, t, b)
  {
    assert b in swept ==> b in Due(t);
  }

  lemma AheadSeats(s: State, t: State, swept: set<BookingId>, st: ShowtimeId, seat: SeatId)
    requires Ahead(s, t, swept) && OneActiveClaim(s) && OneActiveClaim(t)
    ensures StatusOf(s, st, seat) == StatusOf(t, st, seat)
  {
    AtMostOneClaim(s, st, seat);
    AtMostOneClaim(t, st, seat);
    if b :| b in ClaimsOn(t, st, seat) {
      assert ClaimKey(b, seat) in s.claims;
      if b in swept {
        assert b in Due(t);
        assert b !in ClaimsOn(s, st, seat);
      } else {
        assert b in ClaimsOn(s, st, seat);
      }
    } else {
      assert ClaimsOn(s, st, seat) == {};
    }
  }

  lemma CloseTwice(t: State, a: set<BookingId>, b: set<BookingId>, status: BookingStatus)
    ensures Close(Close(t, a, status), b, status) == Close(t, a + b, status)
  {
    var u, v := Close(Close(t, a, status), b, status), Close(t, a + b, status);
    assert u.bookings == v.bookings;
    assert u.claims == v.claims;
  }

  /** Releasing in `s` what is left of the lapsed holds of a showtime. */
  lemma AheadReleases(s: State, t: State, swept: set<BookingId>, st: ShowtimeId)
    requires Ahead(s, t, swept)
    ensures ReleaseLapsed(s, st) == Close(ReleaseLapsed(t, st), swept - LapsedIn(t, st), BookingExpired)
  {
    var lapsed := LapsedIn(t, st);
    assert LapsedIn(s, st) == lapsed - swept;
    CloseTwice(t, swept, lapsed - swept, BookingExpired);
    CloseTwice(t, lapsed, swept - lapsed, BookingExpired);
    assert swept + (lapsed - swept) == lapsed + (swept - lapsed);
  }

  lemma AheadFree(s: State, t: State, swept: set<BookingId>, st: ShowtimeId, seat: SeatId)
    requires Ahead(s, t, swept) && ClaimsFollowBookings(t)
    ensures Free(ReleaseLapsed(s, st), st, seat) == Free(ReleaseLapsed(t, st), st, seat)
  {
    AheadReleases(s, t, swept, st);
    var u, v := ReleaseLapsed(s, st), ReleaseLapsed(t, st);
    forall k | k in t.claims && k.seat == seat && t.claims[k].showtime == st
      ensures u.claims[k].active == v.claims[k].active
    {
      assert k.booking in swept ==> k.booking in LapsedIn(t, st) by {
        assert k.booking in swept ==> k.booking in Due(t);
      }
    }
  }

  lemma AheadHolds(s: State, t: State, swept: set<BookingId>, req: NewBooking, id: BookingId)
    requires Ahead(s, t, swept) && ClaimsFollowBookings(t)
    ensures TryHold(s, req, id) == TryHold(t, req, id)
  {
    forall b | b in t.bookings ensures s.bookings[b].user == t.bookings[b].user && s.bookings[b].key == t.bookings[b].key {
      AheadReports(s, t, swept, b);
    }
    assert s.bookings.Keys == t.bookings.Keys;
    forall x | x in req.seats
      ensures Free(ReleaseLapsed(s, req.showtime), req.showtime, x.id) == Free(ReleaseLapsed(t, req.showtime), req.showtime, x.id)
    {
      AheadFree(s, t, swept, req.showtime, x.id);
    }
  }

  lemma AheadKeys(s: State, t: State, swept: set<BookingId>, user: UserId, key: string)
    requires Ahead(s, t, swept) && OneBookingPerKey(s) && OneBookingPerKey(t)
    ensures HoldRaces.ByKey(s.bookings, user, key) == HoldRaces.ByKey(t.bookings, user, key)
  {
    forall b | b in t.bookings ensures s.bookings[b].user == t.bookings[b].user && s.bookings[b].key == t.bookings[b].key {
      AheadReports(s, t, swept, b);
    }
    assert s.bookings.Keys == t.bookings.Keys;
  }

  lemma AheadLooksTheSame(s: State, t: State, swept: set<BookingId>)
    requires Ahead(s, t, swept) && Valid(s) && Valid(t)
    ensures SameView(s, t)
  {
    forall b | b in s.bookings ensures ReadsTheSame(s, t, b) {
      AheadReports(s, t, swept, b);
    }
    forall user, key ensures HoldRaces.ByKey(s.bookings, user, key) == HoldRaces.ByKey(t.bookings, user, key) {
      AheadKeys(s, t, swept, user, key);
    }
    forall st, seat ensures StatusOf(s, st, seat) == StatusOf(t, st, seat) {
      AheadSeats(s, t, swept, st, seat);
    }
    forall req, id ensures TryHold(s, req, id) == TryHold(t, req, id) {
      AheadHolds(s, t, swept, req, id);
    }
  }

  // ---------------------------------------------------------------- simulation

  lemma CloseInsert(r: State, ids: set<BookingId>, id: BookingId, row: Booking, n: map<ClaimKey, Claim>)
    requires id !in ids && forall k | k in n :: k.booking == id
    ensures var c := Close(r, ids, BookingExpired);
            c.(bookings := c.bookings[id := row], claims := c.claims + n)
            == Close(r.(bookings := r.bookings[id := row], claims := r.claims + n), ids, BookingExpired)
  {
    var c := Close(r, ids, BookingExpired);
    var u := c.(bookings := c.bookings[id := row], claims := c.claims + n);
    var v := Close(r.(bookings := r.bookings[id := row], claims := r.claims + n), ids, BookingExpired);
    assert u.bookings == v.bookings;
    assert u.claims == v.claims;
  }

  lemma CloseClaimed(r: State, ids: set<BookingId>, req: NewBooking, id: BookingId)
    requires id !in ids
    ensures Claimed(Close(r, ids, BookingExpired), req, id) == Close(Claimed(r, req, id), ids, BookingExpired)
  {
    CloseInsert(r, ids, id, NewRow(r, req), NewClaims(id, req.showtime, req.basePrice, req.seats));
  }

  lemma AheadHold(s: State, t: State, swept: set<BookingId>, req: NewBooking, id: BookingId)
    returns (rest: set<BookingId>)
    requires Ahead(s, t, swept) && ClaimsFollowBookings(t)
    ensures Ahead(Hold(s, req, id), Hold(t, req, id), rest)
  {
    AheadHolds(s, t, swept, req, id);
    rest := swept;
    if TryHold(t, req, id).Held? {
      rest := swept - LapsedIn(t, req.showtime);
      AheadReleases(s, t, swept, req.showtime);
      CloseClaimed(ReleaseLapsed(t, req.showtime), rest, req, id);
    }
  }

  lemma AheadConfirm(s: State, t: State, swept: set<BookingId>, b: BookingId)
    requires Ahead(s, t, swept) && b !in swept
    ensures Ahead(Confirm(s, b).state, Confirm(t, b).state, swept)
  {
    assert Confirm(s, b).state.bookings == Close(Confirm(t, b).state, swept, BookingExpired).bookings;
  }

  lemma AheadCancel(s: State, t: State, swept: set<BookingId>, b: BookingId)
    requires Ahead(s, t, swept) && b !in swept
    ensures Ahead(Cancel(s, b, BookingCancelled).state, Cancel(t, b, BookingCancelled).state, swept)
  {
    var u, v := Cancel(s, b, BookingCancelled).state, Close(Cancel(t, b, BookingCancelled).state, swept, BookingExpired);
    assert u.bookings == v.bookings;
    assert u.claims == v.claims;
  }

  lemma AheadExtend(s: State, t: State, swept: set<BookingId>, b: BookingId, until: Time)
    requires Ahead(s, t, swept) && (b in swept ==> until <= t.now)
    ensures Ahead(ExtendHold(s, b, until).state, ExtendHold(t, b, until).state, swept)
  {
    assert ExtendHold(s, b, until).state.bookings == Close(ExtendHold(t, b, until).state, swept, BookingExpired).bookings;
  }

  /** Payments do not look at bookings beyond their ids. */
  lemma AheadCreate(s: State, t: State, swept: set<BookingId>, p: PaymentId, row: Payment)
    requires Ahead(s, t, swept)
    ensures Ahead(CreatePayment(s, p, row).state, CreatePayment(t, p, row).state, swept)
  {
  }

  lemma AheadUpdate(s: State, t: State, swept: set<BookingId>, p: PaymentId, status: PaymentStatus)
    requires Ahead(s, t, swept)
    ensures Ahead(UpdatePayment(s, p, status).state, UpdatePayment(t, p, status).state, swept)
  {
  }

  lemma AheadSettled(s: State, t: State, swept: set<BookingId>, kind: EventType, p: PaymentId)
    requires Ahead(s, t, swept)
    ensures Ahead(Invariant.Settled(s, kind, p), Invariant.Settled(t, kind, p), swept)
  {
  }

  lemma AheadFollowed(s: State, t: State, swept: set<BookingId>, kind: EventType, b: BookingId)
    requires Ahead(s, t, swept)
    requires kind.EventSucceeded? || kind.EventRefunded? ==> b !in swept
    ensures Ahead(Invariant.Followed(s, kind, b), Invariant.Followed(t, kind, b), swept)
  {
    if kind.EventSucceeded? {
      AheadConfirm(s, t, swept, b);
    } else if kind.EventRefunded? {
      AheadCancel(s, t, swept, b);
    }
  }

  lemma AheadAct(s: State, t: State, swept: set<BookingId>, ev: PaymentEvent, p: PaymentId)
    requires Ahead(s, t, swept)
    requires p in t.payments && t.payments[p].booking in t.bookings
    requires t.payments[p].booking in swept ==> !Moves(t.payments[p], ev.kind)
    ensures Act(s, ev, p).result.Err? <==> Act(t, ev, p).result.Err?
    ensures Ahead(Act(s, ev, p).state, Act(t, ev, p).state, swept)
  {
    Invariant.ActIsUpdateThenBooking(s, ev, p);
    Invariant.ActIsUpdateThenBooking(t, ev, p);
    if Act(t, ev, p).result.Ok? {
      AheadSettled(s, t, swept, ev.kind, p);
      AheadFollowed(Invariant.Settled(s, ev.kind, p), Invariant.Settled(t, ev.kind, p), swept, ev.kind, t.payments[p].booking);
    }
  }

  lemma AheadDeliver(s: State, t: State, swept: set<BookingId>, ev: PaymentEvent)
    requires Ahead(s, t, swept) && forall b | b in swept :: !ActsOn(t, StepWebhook(ev), b)
    requires forall p | p in t.payments :: t.payments[p].booking in t.bookings
    ensures Ahead(Deliver(s, ev).state, Deliver(t, ev).state, swept)
  {
    var p := ByRef(t.payments, ev.key.provider, ev.ref);
    if ev.key !in t.events && p.Some? {
      AheadAct(Recorded(s, ev.key, p), Recorded(t, ev.key, p), swept, ev, p.value);
    }
  }

  /** Whether an event of this kind for this payment goes on to its booking. */
  predicate Moves(row: Payment, kind: EventType) {
    kind.EventRefunded? || (kind.EventSucceeded? && (row.IsOpen() || row.status.PaymentSucceeded?))
  }

  /** The step would make something of the hold `b` although it lapsed: the
      guards of the statements, which look at the status and not at the clock. */
  ghost predicate ActsOn(t: State, step: Step, b: BookingId) {
    match step
    case StepConfirm(c) => c == b
    case StepCancel(c) => c == b
    case StepExtend(c, until) => c == b && t.now < until
    case StepWebhook(ev) =>
      var p := ByRef(t.payments, ev.key.provider, ev.ref);
      ev.key !in t.events && p.Some? && t.payments[p.value].booking == b && Moves(t.payments[p.value], ev.kind)
    case _ => false
  }

  ghost predicate ActsOnLapsed(t: State, step: Step) {
    exists b :: b in Due(t) && ActsOn(t, step, b)
  }

  lemma AheadStep(s: State, t: State, swept: set<BookingId>, step: Step)
    returns (rest: set<BookingId>)
    requires Ahead(s, t, swept) && Valid(t) && !step.StepSweep?
    requires forall b | b in swept :: !ActsOn(t, step, b)
    ensures Ahead(Apply(s, step), Apply(t, step), rest)
  {
    rest := swept;
    match step {
      case StepHold(req, id) => rest := AheadHold(s, t, swept, req, id);
      case StepConfirm(b) => AheadConfirm(s, t, swept, b);
      case StepCancel(b) => AheadCancel(s, t, swept, b);
      case StepExtend(b, until) => AheadExtend(s, t, swept, b, until);
      case StepCreate(p, row) => AheadCreate(s, t, swept, p, row);
      case StepUpdate(p, status) => AheadUpdate(s, t, swept, p, status);
      case StepWebhook(ev) => AheadDeliver(s, t, swept, ev);
      case StepTick(to) => assert Due(t) <= Due(Tick(t, to));
    }
  }

  lemma AheadSweep(s: State, t: State, swept: set<BookingId>, ids: set<BookingId>)
    returns (more: set<BookingId>)
    requires Ahead(s, t, swept)
    ensures Ahead(Sweep(s, ids), t, more)
  {
    more := swept;
    if ids <= Due(s) {
      more := swept + ids;
      CloseTwice(t, swept, ids, BookingExpired);
    }
  }

  // --------------------------------------------------------------- whole runs

  function Erase(steps: seq<Step>): seq<Step> {
    if steps == [] then []
    else if steps[0].StepSweep? then Erase(steps[1..])
    else [steps[0]] + Erase(steps[1..])
  }

  ghost predicate NoneActsOnLapsed(t: State, steps: seq<Step>)
    decreases |steps|
  {
    steps == [] || (!ActsOnLapsed(t, steps[0]) && NoneActsOnLapsed(Apply(t, steps[0]), steps[1..]))
  }

  /** `s` runs the steps, `t` runs them without the sweeps: at no moment can the
      two be told apart. */
  ghost predicate Indistinguishable(s: State, t: State, steps: seq<Step>)
    decreases |steps|
  {
    && SameView(s, t)
    && (steps == [] ||
        Indistinguishable(Apply(s, steps[0]), if steps[0].StepSweep? then t else Apply(t, steps[0]), steps[1..]))
  }

  lemma {:induction false} AheadRun(s: State, t: State, swept: set<BookingId>, steps: seq<Step>)
    returns (rest: set<BookingId>)
    requires Ahead(s, t, swept) && Valid(s) && Valid(t)
    requires NoneActsOnLapsed(t, Erase(steps))
    ensures Ahead(Run(s, steps), Run(t, Erase(steps)), rest)
    ensures Indistinguishable(s, t, steps)
    ensures Valid(Run(s, steps)) && Valid(Run(t, Erase(steps)))
    decreases |steps|
  {
    rest := swept;
    AheadLooksTheSame(s, t, swept);
    if steps != [] {
      var step, tail := steps[0], steps[1..];
      Invariant.StepKeepsValid(s, step);
      if step.StepSweep? {
        rest := AheadSweep(s, t, swept, step.ids);
        rest := AheadRun(Apply(s, step), t, rest, tail);
      } else {
        Invariant.StepKeepsValid(t, step);
        assert Erase(steps)[0] == step && Erase(steps)[1..] == Erase(tail);
        rest := AheadStep(s, t, swept, step);
        rest := AheadRun(Apply(s, step), Apply(t, step), rest, tail);
      }
    }
  }

  lemma CloseNothing(s: State)
    ensures Close(s, {}, BookingExpired) == s
  {
    assert Close(s, {}, BookingExpired).bookings == s.bookings && Close(s, {}, BookingExpired).claims == s.claims;
  }

  /** Erasing every sweep pass from a run changes, at no moment of it, any seat
      map, the owner, key or reported status of any booking, the outcome of any
      hold or the id it would return. */
  lemma SweeperIsInvisible(s: State, steps: seq<Step>)
    requires Valid(s) && NoneActsOnLapsed(s, Erase(steps))
    ensures Indistinguishable(s, s, steps)
    ensures SameView(Run(s, steps), Run(s, Erase(steps)))
  {
    CloseNothing(s);
    var rest := AheadRun(s, s, {}, steps);
    AheadLooksTheSame(Run(s, steps), Run(s, Erase(steps)), rest);
  }

  // ----------------------------------------------------------- when it is seen

  lemma SweptAhead(t: State, b: BookingId)
    requires Valid(t) && b in Due(t)
    ensures Ahead(Sweep(t, {b}), t, {b}) && Valid(Sweep(t, {b}))
  {
    Invariant.StepKeepsValid(t, StepSweep({b}));
  }

  /** The step finds the swept hold expired and leaves it so. */
  lemma SweptStaysExpired(t: State, step: Step, b: BookingId)
    requires Valid(t) && b in Due(t) && ActsOn(t, step, b)
    ensures var s := Apply(Sweep(t, {b}), step); b in s.bookings && s.bookings[b].status.BookingExpired?
  {
    var s := Sweep(t, {b});
    assert s.bookings[b].status.BookingExpired?;
    if step.StepWebhook? {
      ExpiredStays(s, step.event, b);
    }
  }

  lemma ExpiredStays(s: State, ev: PaymentEvent, b: BookingId)
    requires PaymentsValid(s) && b in s.bookings && s.bookings[b].status.BookingExpired?
    ensures var t := Deliver(s, ev).state; b in t.bookings && t.bookings[b].status.BookingExpired?
  {
    var p := ByRef(s.payments, ev.key.provider, ev.ref);
    if ev.key !in s.events && p.Some? {
      var r := Recorded(s, ev.key, p);
      Invariant.ActIsUpdateThenBooking(r, ev, p.value);
      assert Invariant.Settled(r, ev.kind, p.value).bookings == s.bookings;
    }
  }

  /** The same step, unswept, reports something else. */
  lemma EventRevives(t: State, ev: PaymentEvent, b: BookingId)
    requires b in Due(t) && ActsOn(t, StepWebhook(ev), b)
    ensures var u := Deliver(t, ev).state; b in u.bookings && !u.bookings[b].status.BookingHeld? && !u.bookings[b].status.BookingExpired?
  {
    var p := ByRef(t.payments, ev.key.provider, ev.ref);
    var r := Recorded(t, ev.key, p);
    Invariant.ActIsUpdateThenBooking(r, ev, p.value);
    assert Invariant.Settled(r, ev.kind, p.value).bookings == t.bookings;
  }

  lemma UnsweptIsRevived(t: State, step: Step, b: BookingId)
    requires b in Due(t) && ActsOn(t, step, b)
    ensures var u := Apply(t, step); b in u.bookings && !ReportedStatus(u.bookings[b], u.now).BookingExpired?
  {
    if step.StepWebhook? {
      EventRevives(t, step.event, b);
    }
  }

  /** Sweeping a lapsed hold just before a step changes a status, the seat map or a
      hold after it if and only if the step acts on that hold: a confirmation, a
      cancellation, an extension past the present, or an event that reaches it. */
  lemma SweepShowsIff(t: State, step: Step, b: BookingId)
    requires Valid(t) && b in Due(t) && !step.StepSweep?
    ensures !SameView(Apply(Sweep(t, {b}), step), Apply(t, step)) <==> ActsOn(t, step, b)
  {
    var s := Sweep(t, {b});
    if ActsOn(t, step, b) {
      SweptStaysExpired(t, step, b);
      UnsweptIsRevived(t, step, b);
      assert ReportedStatus(Apply(s, step).bookings[b], Apply(s, step).now).BookingExpired?;
    } else {
      SweptAhead(t, b);
      var rest := AheadStep(s, t, {b}, step);
      Invariant.StepKeepsValid(s, step);
      Invariant.StepKeepsValid(t, step);
      AheadLooksTheSame(Apply(s, step), Apply(t, step), rest);
    }
  }

  /** No way of adding sweeps to the steps ever changes a status, the seat map or a
      hold. */
  ghost predicate NoSweepShows(s: State, steps: seq<Step>) {
    forall longer | Erase(longer) == steps :: Indistinguishable(s, s, longer)
  }

  lemma {:induction false} EraseNothing(steps: seq<Step>)
    requires forall step | step in steps :: !step.StepSweep?
    ensures Erase(steps) == steps
  {
    if steps != [] {
      EraseNothing(steps[1..]);
      assert steps == [steps[0]] + steps[1..];
    }
  }

  /** A step that acts on a lapsed hold gives a sweep before it away. */
  lemma {:induction false} SomeSweepShows(s: State, steps: seq<Step>) returns (longer: seq<Step>)
    requires Valid(s) && !NoneActsOnLapsed(s, steps)
    requires forall step | step in steps :: !step.StepSweep?
    ensures Erase(longer) == steps && !Indistinguishable(s, s, longer)
    decreases |steps|
  {
    var step, tail := steps[0], steps[1..];
    if ActsOnLapsed(s, step) {
      var b :| b in Due(s) && ActsOn(s, step, b);
      longer := [StepSweep({b})] + steps;
      assert longer[1..] == steps;
      EraseNothing(steps);
      SweepShowsIff(s, step, b);
      assert !Indistinguishable(Apply(Sweep(s, {b}), step), Apply(s, step), tail);
      assert !Indistinguishable(Sweep(s, {b}), s, steps);
    } else {
      Invariant.StepKeepsValid(s, step);
      var rest := SomeSweepShows(Apply(s, step), tail);
      longer := [step] + rest;
      assert longer[1..] == rest;
      assert steps == [step] + tail;
    }
  }

  /** Some schedule of sweeps changes a status, the seat map or a hold if and only if
      some step acts on a lapsed hold. */
  lemma SweeperIsInvisibleIff(s: State, steps: seq<Step>)
    requires Valid(s) && forall step | step in steps :: !step.StepSweep?
    ensures NoSweepShows(s, steps) <==> NoneActsOnLapsed(s, steps)
  {
    if NoneActsOnLapsed(s, steps) {
      forall longer | Erase(longer) == steps ensures Indistinguishable(s, s, longer) {
        SweeperIsInvisible(s, longer);
      }
    } else {
      var longer := SomeSweepShows(s, steps);
    }
  }

  /** Such a schedule: a payment that arrives after the hold lapsed confirms the
      booking unless a sweep came first. */
  lemma LateConfirmSeesTheSweeper() returns (s: State, steps: seq<Step>)
    ensures Valid(s) && steps == [StepSweep({0}), StepConfirm(0)]
    ensures 0 in Run(s, steps).bookings && Run(s, steps).bookings[0].status.BookingExpired?
    ensures 0 in Run(s, Erase(steps)).bookings && Run(s, Erase(steps)).bookings[0].status.BookingConfirmed?
  {
    s := EmptyState.(bookings := map[0 := Booking(0, "u", BookingHeld, 0, Some(0), "")]);
    steps := [StepSweep({0}), StepConfirm(0)];
    assert PricesOf(s, 0) == map[];
    assert Due(s) == {0};
    var t := Apply(s, steps[0]);
    assert t.bookings[0].status.BookingExpired?;
    assert steps[1..] == [StepConfirm(0)] && steps[1..][1..] == [];
    assert Erase(steps[1..]) == [StepConfirm(0)];
    assert Erase(steps) == [StepConfirm(0)];
    assert Run(s, steps) == Confirm(t, 0).state;
    assert Run(s, [StepConfirm(0)]) == Confirm(s, 0).state;
  }

  // -------------------------------------------------- everything a client reads

  /** The whole answer of Get for every booking and caller, with its expiry and its
      seats, and the refusal of a checkout, besides all that SameView compares. */
  ghost predicate SameAnswers(s: State, t: State) {
    && SameView(s, t)
    && (forall b, user :: GetAnswer(s, b, user) == GetAnswer(t, b, user))
    && (forall b, user :: CheckoutRefusal(s, b, user) == CheckoutRefusal(t, b, user))
  }

  /** No story is the same before and after the sweep of a lapsed hold: its expiry
      goes, each of its seats turns inactive, and a checkout of it is refused in
      other words. */
  lemma SweepChangesTheStory(t: State, b: BookingId)
    requires Valid(t) && b in Due(t)
    ensures var s, user := Sweep(t, {b}), t.bookings[b].user;
            && b in s.bookings && ReadsTheSame(s, t, b)
            && ViewOf(t, b).row.expiry.Some? && ViewOf(s, b).row.expiry.None?
            && ViewOf(s, b).seats.Keys == ViewOf(t, b).seats.Keys
            && (forall x | x in ViewOf(t, b).seats :: ViewOf(t, b).seats[x].active && !ViewOf(s, b).seats[x].active)
            && CheckoutRefusal(t, b, user) == Some(ErrBookingExpired)
            && CheckoutRefusal(s, b, user) == Some(ErrBookingState)
            && !SameAnswers(s, t)
  {
    var s, user := Sweep(t, {b}), t.bookings[b].user;
    SweptSeats(t, b);
    assert GetAnswer(s, b, user) != GetAnswer(t, b, user);
  }

  lemma SweptSeats(t: State, b: BookingId)
    requires ClaimsFollowBookings(t) && b in Due(t)
    ensures var before, after := BookedSeats(t.claims, b), BookedSeats(Sweep(t, {b}).claims, b);
            before.Keys == after.Keys && forall x | x in before :: before[x].active && !after[x].active
  {
    var s := Sweep(t, {b});
    var before, after := BookedSeats(t.claims, b), BookedSeats(s.claims, b);
    forall x | x in before ensures x in after && before[x].active && !after[x].active {
      assert ClaimKey(b, x) in t.claims && ClaimKey(b, x) in s.claims;
    }
    forall x | x in after ensures x in before {
      assert ClaimKey(b, x) in s.claims && ClaimKey(b, x) in t.claims;
    }
  }

  ghost predicate SameAnswersThroughout(s: State, t: State, steps: seq<Step>)
    decreases |steps|
  {
    && SameAnswers(s, t)
    && (steps == [] ||
        SameAnswersThroughout(Apply(s, steps[0]), if steps[0].StepSweep? then t else Apply(t, steps[0]), steps[1..]))
  }

  /** No way of adding sweeps to the steps is ever seen in any answer. */
  ghost predicate NoSweepIsSeen(s: State, steps: seq<Step>) {
    forall longer | Erase(longer) == steps :: SameAnswersThroughout(s, s, longer)
  }

  ghost predicate NeverDue(s: State, steps: seq<Step>)
    decreases |steps|
  {
    Due(s) == {} && (steps == [] || NeverDue(Apply(s, steps[0]), steps[1..]))
  }

  lemma TellsItself(s: State)
    ensures SameAnswers(s, s)
  {
  }

  lemma SweepFindsNothing(s: State, ids: set<BookingId>)
    requires Due(s) == {}
    ensures Sweep(s, ids) == s
  {
    CloseNothing(s);
  }

  lemma {:induction false} NothingToSweep(s: State, longer: seq<Step>)
    requires NeverDue(s, Erase(longer))
    ensures SameAnswersThroughout(s, s, longer)
    decreases |longer|
  {
    TellsItself(s);
    if longer != [] {
      var step, tail := longer[0], longer[1..];
      if step.StepSweep? {
        SweepFindsNothing(s, step.ids);
        NothingToSweep(s, tail);
      } else {
        assert Erase(longer)[0] == step && Erase(longer)[1..] == Erase(tail);
        NothingToSweep(Apply(s, step), tail);
      }
    }
  }

  lemma FirstSweepIsSeen(s: State, steps: seq<Step>, b: BookingId)
    requires Valid(s) && b in Due(s)
    ensures !SameAnswersThroughout(s, s, [StepSweep({b})] + steps)
  {
    assert ([StepSweep({b})] + steps)[1..] == steps;
    assert !SameAnswersThroughout(Sweep(s, {b}), s, steps) by {
      SweepChangesTheStory(s, b);
    }
  }

  lemma {:induction false} SomeSweepIsSeen(s: State, steps: seq<Step>) returns (longer: seq<Step>)
    requires Valid(s) && !NeverDue(s, steps)
    requires forall step | step in steps :: !step.StepSweep?
    ensures Erase(longer) == steps && !SameAnswersThroughout(s, s, longer)
    decreases |steps|
  {
    if b :| b in Due(s) {
      longer := [StepSweep({b})] + steps;
      assert longer[1..] == steps;
      EraseNothing(steps);
      FirstSweepIsSeen(s, steps, b);
    } else {
      var step, tail := steps[0], steps[1..];
      Invariant.StepKeepsValid(s, step);
      var rest := SomeSweepIsSeen(Apply(s, step), tail);
      longer := [step] + rest;
      assert longer[1..] == rest;
      assert steps == [step] + tail;
    }
  }

  /** Clients see one consistent story whatever the sweeper does if and only if no
      hold is ever due. */
  lemma OneStoryIff(s: State, steps: seq<Step>)
    requires Valid(s) && forall step | step in steps :: !step.StepSweep?
    ensures NoSweepIsSeen(s, steps) <==> NeverDue(s, steps)
  {
    if NeverDue(s, steps) {
      forall longer | Erase(longer) == steps ensures SameAnswersThroughout(s, s, longer) {
        NothingToSweep(s, longer);
      }
    } else {
      var longer := SomeSweepIsSeen(s, steps);
    }
  }
}
