/** The table invariant survives every step, hence every interleaving. */
module Invariant {
  import opened Domain
  import opened Store
  import opened Steps
  import Seats
  import Sums

  lemma CloseKeepsClaims(s: State, ids: set<BookingId>, status: BookingStatus)
    requires OneActiveClaim(s) && ClaimsFollowBookings(s) && ExpiryIffHeld(s)
    requires status.BookingCancelled? || status.BookingExpired?
    ensures var t := Close(s, ids, status);
            OneActiveClaim(t) && ClaimsFollowBookings(t) && ExpiryIffHeld(t)
  {
  }

  lemma SameKeys(s: State, t: State)
    requires OneBookingPerKey(s) && t.bookings.Keys == s.bookings.Keys
    requires forall b | b in s.bookings ::
               t.bookings[b].key == s.bookings[b].key && t.bookings[b].user == s.bookings[b].user
    ensures OneBookingPerKey(t)
  {
  }

  lemma SamePricesOf(s: State, t: State, b: BookingId)
    requires t.claims.Keys == s.claims.Keys
    requires forall k | k in s.claims :: t.claims[k].price == s.claims[k].price
    ensures PricesOf(t, b) == PricesOf(s, b)
  {
  }

  lemma SamePrices(s: State, t: State)
    requires TotalsAddUp(s)
    requires t.bookings.Keys == s.bookings.Keys && t.claims.Keys == s.claims.Keys
    requires forall b | b in s.bookings :: t.bookings[b].total == s.bookings[b].total
    requires forall k | k in s.claims :: t.claims[k].price == s.claims[k].price
    ensures TotalsAddUp(t)
  {
    forall b | b in t.bookings ensures t.bookings[b].total == Sums.Total(PricesOf(t, b)) {
      SamePricesOf(s, t, b);
    }
  }

  lemma CloseKeepsValid(s: State, ids: set<BookingId>, status: BookingStatus)
    requires Valid(s)
    requires status.BookingCancelled? || status.BookingExpired?
    ensures Valid(Close(s, ids, status))
  {
    CloseKeepsClaims(s, ids, status);
    SameKeys(s, Close(s, ids, status));
    SamePrices(s, Close(s, ids, status));
  }

  /** Rewriting the lifecycle columns of one booking. */
  lemma RewriteKeepsValid(s: State, b: BookingId, row: Booking)
    requires Valid(s) && b in s.bookings
    requires row.IsActive() == s.bookings[b].IsActive()
    requires row.status.BookingHeld? <==> row.expiry.Some?
    requires row == s.bookings[b].(status := row.status, expiry := row.expiry)
    ensures Valid(s.(bookings := s.bookings[b := row]))
  {
    var t := s.(bookings := s.bookings[b := row]);
    SamePrices(s, t);
    SameKeys(s, t);
    RewriteKeepsClaims(s, b, row);
  }

  lemma RewriteKeepsClaims(s: State, b: BookingId, row: Booking)
    requires ClaimsFollowBookings(s) && ExpiryIffHeld(s) && b in s.bookings
    requires row.IsActive() == s.bookings[b].IsActive() && row.showtime == s.bookings[b].showtime
    requires row.status.BookingHeld? <==> row.expiry.Some?
    ensures var t := s.(bookings := s.bookings[b := row]); ClaimsFollowBookings(t) && ExpiryIffHeld(t)
  {
  }

  ghost function PriceMap(n: map<ClaimKey, Claim>): map<ClaimKey, int> {
    map k | k in n :: n[k].price
  }

  lemma PriceMapInsert(n: map<ClaimKey, Claim>, k: ClaimKey, c: Claim)
    ensures PriceMap(n[k := c]) == PriceMap(n)[k := c.price]
  {
  }

  lemma NewClaimsGrow(id: BookingId, st: ShowtimeId, base: nat, seats: seq<Seat>)
    requires seats != [] && Seats.Distinct(seats)
    ensures var init, last := seats[..|seats| - 1], seats[|seats| - 1];
            var k := ClaimKey(id, last.id);
            && k !in NewClaims(id, st, base, init)
            && NewClaims(id, st, base, seats) == NewClaims(id, st, base, init)[k := Claim(st, last.PriceCents(base), true)]
  {
    var init, last := seats[..|seats| - 1], seats[|seats| - 1];
    Seats.LastIsNew(seats);
    var n := NewClaims(id, st, base, init)[ClaimKey(id, last.id) := Claim(st, last.PriceCents(base), true)];
    forall k | k in n ensures NewClaims(id, st, base, seats)[k] == n[k] {
      assert Seats.PriceAt(seats, k.seat, base) ==
             if k.seat == last.id then last.PriceCents(base) else Seats.PriceAt(init, k.seat, base);
    }
  }

  lemma {:induction false} NewClaimsPrice(id: BookingId, st: ShowtimeId, base: nat, seats: seq<Seat>)
    requires Seats.Distinct(seats)
    ensures Sums.Total(PriceMap(NewClaims(id, st, base, seats))) == Seats.TotalPrice(seats, base)
  {
    if seats == [] {
      assert PriceMap(NewClaims(id, st, base, seats)) == map[];
    } else {
      var init, last := seats[..|seats| - 1], seats[|seats| - 1];
      NewClaimsPrice(id, st, base, init);
      NewClaimsGrow(id, st, base, seats);
      var n, k := NewClaims(id, st, base, init), ClaimKey(id, last.id);
      PriceMapInsert(n, k, Claim(st, last.PriceCents(base), true));
      Sums.TotalInsert(PriceMap(n), k, last.PriceCents(base));
    }
  }

  lemma ClaimedOnlyFreeSeats(s: State, req: NewBooking, id: BookingId, k: ClaimKey)
    requires forall x | x in req.seats :: Free(s, req.showtime, x.id)
    requires k in NewClaims(id, req.showtime, req.basePrice, req.seats)
    ensures Free(s, req.showtime, k.seat)
  {
    var x :| x in req.seats && x.id == k.seat;
  }

  lemma ClaimedKeepsOneActiveClaim(s: State, req: NewBooking, id: BookingId)
    requires OneActiveClaim(s) && ClaimsFollowBookings(s) && id !in s.bookings
    requires forall x | x in req.seats :: Free(s, req.showtime, x.id)
    ensures OneActiveClaim(Claimed(s, req, id))
  {
    var t := Claimed(s, req, id);
    var n := NewClaims(id, req.showtime, req.basePrice, req.seats);
    forall j, k | j in t.claims && k in t.claims && t.claims[j].active && t.claims[k].active
                  && j.seat == k.seat && t.claims[j].showtime == t.claims[k].showtime
      ensures j == k
    {
      if j in n && k !in n {
        ClaimedOnlyFreeSeats(s, req, id, j);
        assert false;
      } else if k in n && j !in n {
        ClaimedOnlyFreeSeats(s, req, id, k);
        assert false;
      }
    }
  }

  lemma ClaimedKeepsOwners(s: State, req: NewBooking, id: BookingId)
    requires ClaimsFollowBookings(s) && ExpiryIffHeld(s) && id !in s.bookings
    ensures ClaimsFollowBookings(Claimed(s, req, id)) && ExpiryIffHeld(Claimed(s, req, id))
  {
  }

  lemma ClaimedPrices(s: State, req: NewBooking, id: BookingId, b: BookingId)
    requires ClaimsFollowBookings(s) && id !in s.bookings
    ensures PricesOf(Claimed(s, req, id), b) ==
            if b == id then PriceMap(NewClaims(id, req.showtime, req.basePrice, req.seats))
            else PricesOf(s, b)
  {
  }

  lemma ClaimedKeepsTotals(s: State, req: NewBooking, id: BookingId)
    requires TotalsAddUp(s) && ClaimsFollowBookings(s) && id !in s.bookings && Seats.Distinct(req.seats)
    ensures TotalsAddUp(Claimed(s, req, id))
  {
    var t := Claimed(s, req, id);
    NewClaimsPrice(id, req.showtime, req.basePrice, req.seats);
    forall b | b in t.bookings ensures t.bookings[b].total == Sums.Total(PricesOf(t, b)) {
      ClaimedPrices(s, req, id, b);
    }
  }

  lemma ClaimedKeepsKeys(s: State, req: NewBooking, id: BookingId)
    requires OneBookingPerKey(s) && !HasKey(s, req.user, req.key)
    ensures OneBookingPerKey(Claimed(s, req, id))
  {
  }

  lemma ClaimedKeepsValid(s: State, req: NewBooking, id: BookingId)
    requires Valid(s) && id !in s.bookings && Seats.Distinct(req.seats)
    requires !HasKey(s, req.user, req.key)
    requires forall x | x in req.seats :: Free(s, req.showtime, x.id)
    ensures Valid(Claimed(s, req, id))
  {
    ClaimedKeepsOneActiveClaim(s, req, id);
    ClaimedKeepsOwners(s, req, id);
    ClaimedKeepsTotals(s, req, id);
    ClaimedKeepsKeys(s, req, id);
  }

  lemma HoldKeepsValid(s: State, req: NewBooking, id: BookingId)
    requires Valid(s)
    ensures Valid(Hold(s, req, id))
  {
    if TryHold(s, req, id).Held? {
      CloseKeepsValid(s, LapsedIn(s, req.showtime), BookingExpired);
      ClaimedKeepsValid(ReleaseLapsed(s, req.showtime), req, id);
    }
  }

  /** Transactions on payments and events leave the bookings side alone. */
  lemma PaymentSideOnly(s: State, t: State)
    requires Valid(s) && PaymentsValid(t)
    requires t.bookings == s.bookings && t.claims == s.claims
    ensures Valid(t)
  {
    SamePrices(s, t);
  }

  lemma InsertKeepsPayments(s: State, p: PaymentId, row: Payment)
    requires PaymentsValid(s)
    requires p !in s.payments && row.booking in s.bookings
    requires !HasPaymentKey(s.payments, row.key) && !RefTaken(s.payments, row.provider, row.ref)
    requires row.IsOpen() ==> !HasOpenPayment(s.payments, row.booking)
    ensures PaymentsValid(s.(payments := s.payments[p := row]))
  {
  }

  lemma CreateKeepsValid(s: State, p: PaymentId, row: Payment)
    requires Valid(s)
    ensures Valid(CreatePayment(s, p, row).state)
  {
    var t := CreatePayment(s, p, row).state;
    if t != s {
      InsertKeepsPayments(s, p, row);
    }
    PaymentSideOnly(s, t);
  }

  lemma UpdateKeepsPayments(s: State, p: PaymentId, status: PaymentStatus)
    requires PaymentsValid(s)
    ensures PaymentsValid(UpdatePayment(s, p, status).state)
  {
    var t := UpdatePayment(s, p, status).state;
    forall q | q in t.payments && t.payments[q].IsOpen() ensures s.payments[q].IsOpen() {}
  }

  lemma UpdateKeepsValid(s: State, p: PaymentId, status: PaymentStatus)
    requires Valid(s)
    ensures Valid(UpdatePayment(s, p, status).state)
  {
    UpdateKeepsPayments(s, p, status);
    PaymentSideOnly(s, UpdatePayment(s, p, status).state);
  }

  lemma ConfirmKeepsValid(s: State, b: BookingId)
    requires Valid(s)
    ensures Valid(Confirm(s, b).state)
  {
    if Confirm(s, b).result.Ok? {
      RewriteKeepsValid(s, b, s.bookings[b].(status := BookingConfirmed, expiry := None));
    }
  }

  lemma CancelKeepsValid(s: State, b: BookingId, status: BookingStatus)
    requires Valid(s)
    ensures Valid(Cancel(s, b, status).state)
  {
    if Cancel(s, b, status).result.Ok? {
      CloseKeepsValid(s, {b}, status);
    }
  }

  lemma ExtendKeepsValid(s: State, b: BookingId, until: Time)
    requires Valid(s)
    ensures Valid(ExtendHold(s, b, until).state)
  {
    var t := ExtendHold(s, b, until).state;
    if ExtendHold(s, b, until).result.Ok? {
      RewriteKeepsValid(s, b, t.bookings[b]);
    }
  }

  /** What an event does to its payment... */
  ghost function Settled(s: State, kind: EventType, p: PaymentId): State {
    match kind
    case EventSucceeded => UpdatePayment(s, p, PaymentSucceeded).state
    case EventFailed => UpdatePayment(s, p, PaymentFailed).state
    case EventCancelled => UpdatePayment(s, p, PaymentCancelled).state
    case EventRefunded => UpdatePayment(s, p, PaymentRefunded).state
    case EventOther => s
  }

  /** ... and then to the booking. */
  ghost function Followed(s: State, kind: EventType, b: BookingId): State {
    match kind
    case EventSucceeded => Confirm(s, b).state
    case EventRefunded => Cancel(s, b, BookingCancelled).state
    case _ => s
  }

  /** An event either fails before it wrote anything or is one guarded payment
      update followed by one guarded booking transition. It fails exactly when a
      success arrives for a payment that already ended without success: the
      state errors of the nested Cancel and Update are swallowed, and they come
      before any write. */
  lemma ActIsUpdateThenBooking(s: State, ev: PaymentEvent, p: PaymentId)
    requires p in s.payments && s.payments[p].booking in s.bookings
    ensures var o := Act(s, ev, p);
            && (o.result.Err? ==> o.state == s)
            && (o.result.Ok? ==> o.state == Followed(Settled(s, ev.kind, p), ev.kind, s.payments[p].booking))
    ensures Act(s, ev, p).result.Err? <==>
            ev.kind.EventSucceeded? && s.payments[p].status in {PaymentFailed, PaymentCancelled, PaymentRefunded}
    ensures Act(s, ev, p).result.Err? ==> Act(s, ev, p).result.error == ErrPaymentState
    ensures Act(s, ev, p).result.Ok? ==>
              (Act(s, ev, p).result.value == Some(p) <==>
               ev.kind.EventSucceeded? && !s.bookings[s.payments[p].booking].IsActive())
    ensures Act(s, ev, p).result.Ok? && Act(s, ev, p).result.value.Some? ==> Act(s, ev, p).result.value.value == p
  {
  }

  lemma SettledKeepsValid(s: State, kind: EventType, p: PaymentId)
    requires Valid(s)
    ensures Valid(Settled(s, kind, p))
  {
    match kind
    case EventSucceeded => UpdateKeepsValid(s, p, PaymentSucceeded);
    case EventFailed => UpdateKeepsValid(s, p, PaymentFailed);
    case EventCancelled => UpdateKeepsValid(s, p, PaymentCancelled);
    case EventRefunded => UpdateKeepsValid(s, p, PaymentRefunded);
    case EventOther =>
  }

  lemma ActKeepsValid(s: State, ev: PaymentEvent, p: PaymentId)
    requires Valid(s) && p in s.payments
    ensures Valid(Act(s, ev, p).state)
  {
    ActIsUpdateThenBooking(s, ev, p);
    SettledKeepsValid(s, ev.kind, p);
    ConfirmKeepsValid(Settled(s, ev.kind, p), s.payments[p].booking);
    CancelKeepsValid(Settled(s, ev.kind, p), s.payments[p].booking, BookingCancelled);
  }

  lemma RecordedKeepsValid(s: State, key: EventKey, p: Option<PaymentId>)
    requires Valid(s) && (p.Some? ==> p.value in s.payments)
    ensures Valid(Recorded(s, key, p))
  {
    PaymentSideOnly(s, Recorded(s, key, p));
  }

  lemma DeliverKeepsValid(s: State, ev: PaymentEvent)
    requires Valid(s)
    ensures Valid(Deliver(s, ev).state)
  {
    var p := ByRef(s.payments, ev.key.provider, ev.ref);
    var t := Recorded(s, ev.key, p);
    RecordedKeepsValid(s, ev.key, p);
    if p.Some? {
      ActKeepsValid(t, ev, p.value);
    }
  }

  lemma BookingStepKeepsValid(s: State, step: Step)
    requires Valid(s) && step.IsBookingStep()
    ensures Valid(Apply(s, step))
  {
    match step
    case StepHold(req, id) => HoldKeepsValid(s, req, id);
    case StepSweep(ids) => CloseKeepsValid(s, ids, BookingExpired);
    case StepConfirm(b) => ConfirmKeepsValid(s, b);
    case StepCancel(b) => CancelKeepsValid(s, b, BookingCancelled);
    case StepExtend(b, until) => ExtendKeepsValid(s, b, until);
  }

  lemma StepKeepsValid(s: State, step: Step)
    requires Valid(s)
    ensures Valid(Apply(s, step))
  {
    match step
    case StepHold(_, _) => BookingStepKeepsValid(s, step);
    case StepSweep(_) => BookingStepKeepsValid(s, step);
    case StepConfirm(_) => BookingStepKeepsValid(s, step);
    case StepCancel(_) => BookingStepKeepsValid(s, step);
    case StepExtend(_, _) => BookingStepKeepsValid(s, step);
    case StepCreate(p, row) => CreateKeepsValid(s, p, row);
    case StepUpdate(p, status) => UpdateKeepsValid(s, p, status);
    case StepWebhook(ev) => DeliverKeepsValid(s, ev);
    case StepTick(to) => PaymentSideOnly(s, Tick(s, to));
  }

  /** At most one active claim per seat and showtime, claims active exactly with
      their booking, an expiry exactly while held, totals equal to the sum of
      the claims' prices: in every state of every interleaving. */
  lemma {:induction false} RunKeepsValid(s: State, steps: seq<Step>)
    requires Valid(s)
    ensures Valid(Run(s, steps))
    decreases |steps|
  {
    if steps != [] {
      StepKeepsValid(s, steps[0]);
      RunKeepsValid(Apply(s, steps[0]), steps[1..]);
    }
  }

  lemma EveryReachableStateIsValid(steps: seq<Step>)
    ensures Valid(Run(EmptyState, steps))
  {
    RunKeepsValid(EmptyState, steps);
  }
}
