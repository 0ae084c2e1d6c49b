/** What never changes, and what only moves forward, over any run of steps. */
module Histories {
  import opened Domain
  import opened Store
  import opened Steps
  import Invariant

  /** held to anything, confirmed only to cancelled, nothing else moves. */
  predicate BookingPath(a: BookingStatus, b: BookingStatus) {
    a == b || a.BookingHeld? || (a.BookingConfirmed? && b.BookingCancelled?)
  }

  /** Open to anything, succeeded only to refunded, nothing else moves. */
  predicate PaymentPath(a: PaymentStatus, b: PaymentStatus) {
    || a == b || a.PaymentPending? || a.PaymentProcessing?
    || (a.PaymentSucceeded? && b.PaymentRefunded?)
  }

  predicate BookingEvolves(a: Booking, b: Booking) {
    && b == a.(status := b.status, expiry := b.expiry)
    && BookingPath(a.status, b.status)
    && (b.status.BookingHeld? && a.expiry.Some? ==> b.expiry.Some? && a.expiry.value <= b.expiry.value)
    && (b.status.BookingHeld? ==> a.status.BookingHeld?)
  }

  predicate ClaimEvolves(a: Claim, b: Claim) {
    b == a || b == a.(active := false)
  }

  predicate PaymentEvolves(a: Payment, b: Payment) {
    b == a.(status := b.status) && PaymentPath(a.status, b.status)
  }

  ghost predicate Evolves(s: State, t: State) {
    && s.now <= t.now
    && (forall b | b in s.bookings :: b in t.bookings && BookingEvolves(s.bookings[b], t.bookings[b]))
    && (forall k | k in s.claims :: k in t.claims && ClaimEvolves(s.claims[k], t.claims[k]))
    && (forall p | p in s.payments :: p in t.payments && PaymentEvolves(s.payments[p], t.payments[p]))
    && (forall e | e in s.events :: e in t.events && t.events[e] == s.events[e])
  }

  lemma EvolvesReflexive(s: State)
    ensures Evolves(s, s)
  {
  }

  lemma EvolvesTransitive(s: State, t: State, u: State)
    requires Evolves(s, t) && Evolves(t, u)
    ensures Evolves(s, u)
  {
    forall b | b in s.bookings ensures b in u.bookings && BookingEvolves(s.bookings[b], u.bookings[b]) {
      assert b in t.bookings;
    }
    forall k | k in s.claims ensures k in u.claims && ClaimEvolves(s.claims[k], u.claims[k]) {
      assert k in t.claims;
    }
    forall p | p in s.payments ensures p in u.payments && PaymentEvolves(s.payments[p], u.payments[p]) {
      assert p in t.payments;
    }
    forall e | e in s.events ensures e in u.events && u.events[e] == s.events[e] {
      assert e in t.events;
    }
  }

  lemma CloseEvolves(s: State, ids: set<BookingId>, status: BookingStatus)
    requires forall b | b in ids && b in s.bookings :: BookingPath(s.bookings[b].status, status)
    requires !status.BookingHeld?
    ensures Evolves(s, Close(s, ids, status))
  {
  }

  lemma ClaimedEvolves(s: State, req: NewBooking, id: BookingId)
    requires ClaimsFollowBookings(s) && id !in s.bookings
    ensures Evolves(s, Claimed(s, req, id))
  {
  }

  lemma HoldEvolves(s: State, req: NewBooking, id: BookingId)
    requires ClaimsFollowBookings(s)
    ensures Evolves(s, Hold(s, req, id))
  {
    if TryHold(s, req, id).Held? {
      var r := ReleaseLapsed(s, req.showtime);
      CloseEvolves(s, LapsedIn(s, req.showtime), BookingExpired);
      assert ClaimsFollowBookings(r);
      ClaimedEvolves(r, req, id);
      EvolvesTransitive(s, r, Claimed(r, req, id));
    }
  }

  lemma UpdateEvolves(s: State, p: PaymentId, status: PaymentStatus)
    ensures Evolves(s, UpdatePayment(s, p, status).state)
  {
  }

  lemma ConfirmEvolves(s: State, b: BookingId)
    ensures Evolves(s, Confirm(s, b).state)
  {
  }

  lemma CancelEvolves(s: State, b: BookingId)
    ensures Evolves(s, Cancel(s, b, BookingCancelled).state)
  {
    if Cancel(s, b, BookingCancelled).result.Ok? {
      CloseEvolves(s, {b}, BookingCancelled);
    }
  }

  lemma ActEvolves(s: State, ev: PaymentEvent, p: PaymentId)
    requires p in s.payments && s.payments[p].booking in s.bookings
    ensures Evolves(s, Act(s, ev, p).state)
  {
    Invariant.ActIsUpdateThenBooking(s, ev, p);
    var u, b := Invariant.Settled(s, ev.kind, p), s.payments[p].booking;
    SettledEvolves(s, ev.kind, p);
    FollowedEvolves(u, ev.kind, b);
    EvolvesTransitive(s, u, Invariant.Followed(u, ev.kind, b));
  }

  lemma SettledEvolves(s: State, kind: EventType, p: PaymentId)
    ensures Evolves(s, Invariant.Settled(s, kind, p))
  {
    match kind
    case EventSucceeded => UpdateEvolves(s, p, PaymentSucceeded);
    case EventFailed => UpdateEvolves(s, p, PaymentFailed);
    case EventCancelled => UpdateEvolves(s, p, PaymentCancelled);
    case EventRefunded => UpdateEvolves(s, p, PaymentRefunded);
    case EventOther =>
  }

  lemma FollowedEvolves(s: State, kind: EventType, b: BookingId)
    ensures Evolves(s, Invariant.Followed(s, kind, b))
  {
    if kind.EventSucceeded? {
      ConfirmEvolves(s, b);
    } else if kind.EventRefunded? {
      CancelEvolves(s, b);
    }
  }

  lemma RecordedEvolves(s: State, key: EventKey, p: Option<PaymentId>)
    requires key !in s.events
    ensures Evolves(s, Recorded(s, key, p))
  {
  }

  lemma DeliverEvolves(s: State, ev: PaymentEvent)
    requires forall p | p in s.payments :: s.payments[p].booking in s.bookings
    ensures Evolves(s, Deliver(s, ev).state)
  {
    var p := ByRef(s.payments, ev.key.provider, ev.ref);
    if ev.key !in s.events {
      var t := Recorded(s, ev.key, p);
      RecordedEvolves(s, ev.key, p);
      if p.Some? {
        ActEvolves(t, ev, p.value);
        EvolvesTransitive(s, t, Act(t, ev, p.value).state);
      }
    }
  }

  lemma CreateEvolves(s: State, p: PaymentId, row: Payment)
    ensures Evolves(s, CreatePayment(s, p, row).state)
  {
  }

  lemma ExtendEvolves(s: State, b: BookingId, until: Time)
    ensures Evolves(s, ExtendHold(s, b, until).state)
  {
  }

  lemma BookingStepEvolves(s: State, step: Step)
    requires ClaimsFollowBookings(s) && step.IsBookingStep()
    ensures Evolves(s, Apply(s, step))
  {
    match step
    case StepHold(req, id) => HoldEvolves(s, req, id);
    case StepSweep(ids) => if ids <= Due(s) { CloseEvolves(s, ids, BookingExpired); }
    case StepConfirm(b) => ConfirmEvolves(s, b);
    case StepCancel(b) => CancelEvolves(s, b);
    case StepExtend(b, until) => ExtendEvolves(s, b, until);
  }

  lemma StepEvolves(s: State, step: Step)
    requires ClaimsFollowBookings(s) && forall p | p in s.payments :: s.payments[p].booking in s.bookings
    ensures Evolves(s, Apply(s, step))
  {
    match step
    case StepHold(_, _) => BookingStepEvolves(s, step);
    case StepSweep(_) => BookingStepEvolves(s, step);
    case StepConfirm(_) => BookingStepEvolves(s, step);
    case StepCancel(_) => BookingStepEvolves(s, step);
    case StepExtend(_, _) => BookingStepEvolves(s, step);
    case StepCreate(p, row) => CreateEvolves(s, p, row);
    case StepUpdate(p, status) => UpdateEvolves(s, p, status);
    case StepWebhook(ev) => DeliverEvolves(s, ev);
    case StepTick(to) =>
  }

  /** Between any two moments of any run: bookings and payments only move along
      their lifecycles, owners, amounts and references stay, the expiry of a
      held booking never decreases, a freed claim stays free and a recorded
      event stays recorded. */
  lemma {:induction false} RunEvolves(s: State, steps: seq<Step>)
    requires Valid(s)
    ensures Evolves(s, Run(s, steps))
    decreases |steps|
  {
    if steps != [] {
      var t := Apply(s, steps[0]);
      StepEvolves(s, steps[0]);
      Invariant.StepKeepsValid(s, steps[0]);
      RunEvolves(t, steps[1..]);
      EvolvesTransitive(s, t, Run(t, steps[1..]));
    }
  }

  /** The repository's Cancel takes its target status from the caller. It keeps
      to the lifecycle exactly when nobody expires a confirmed booking. */
  lemma CancelFollowsLifecycle(s: State, b: BookingId, status: BookingStatus)
    requires Valid(s) && b in s.bookings
    ensures var t := Cancel(s, b, status).state;
            BookingPath(s.bookings[b].status, t.bookings[b].status)
            <==> !(s.bookings[b].status.BookingConfirmed? && status.BookingExpired?)
  {
  }

  // ------------------------------------------------------- checkout protection

  /** The steps by which the owner or the provider gives the seats back. */
  ghost predicate GivesUp(s: State, step: Step, b: BookingId) {
    match step
    case StepCancel(c) => c == b
    case StepWebhook(ev) =>
      && ev.kind.EventRefunded?
      && var p := ByRef(s.payments, ev.key.provider, ev.ref);
      && p.Some? && s.payments[p.value].booking == b
    case _ => false
  }

  ghost predicate NobodyGivesUp(s: State, steps: seq<Step>, b: BookingId)
    decreases |steps|
  {
    steps == [] || (!GivesUp(s, steps[0], b) && NobodyGivesUp(Apply(s, steps[0]), steps[1..], b))
  }

  ghost predicate ProtectedUntil(s: State, b: BookingId, deadline: Time) {
    && b in s.bookings && s.bookings[b].IsActive()
    && (s.bookings[b].status.BookingHeld? ==> s.bookings[b].expiry.Some? && deadline <= s.bookings[b].expiry.value)
  }

  lemma CloseProtects(s: State, ids: set<BookingId>, b: BookingId, deadline: Time)
    requires ProtectedUntil(s, b, deadline) && b !in ids
    ensures ProtectedUntil(Close(s, ids, BookingExpired), b, deadline)
  {
  }

  lemma StepProtects(s: State, step: Step, b: BookingId, deadline: Time)
    requires forall p | p in s.payments :: s.payments[p].booking in s.bookings
    requires ProtectedUntil(s, b, deadline)
    requires s.now < deadline && !GivesUp(s, step, b)
    ensures ProtectedUntil(Apply(s, step), b, deadline)
  {
    match step
    case StepHold(req, id) => CloseProtects(s, LapsedIn(s, req.showtime), b, deadline);
    case StepSweep(ids) => if ids <= Due(s) { CloseProtects(s, ids, b, deadline); }
    case StepWebhook(ev) => WebhookProtects(s, ev, b, deadline);
    case _ =>
  }

  lemma FollowedProtects(s: State, kind: EventType, c: BookingId, b: BookingId, deadline: Time)
    requires ProtectedUntil(s, b, deadline) && (kind.EventRefunded? ==> c != b)
    ensures ProtectedUntil(Invariant.Followed(s, kind, c), b, deadline)
  {
  }

  lemma WebhookProtects(s: State, ev: PaymentEvent, b: BookingId, deadline: Time)
    requires forall p | p in s.payments :: s.payments[p].booking in s.bookings
    requires ProtectedUntil(s, b, deadline) && !GivesUp(s, StepWebhook(ev), b)
    ensures ProtectedUntil(Deliver(s, ev).state, b, deadline)
  {
    var p := ByRef(s.payments, ev.key.provider, ev.ref);
    if ev.key !in s.events && p.Some? {
      var t := Recorded(s, ev.key, p);
      var u := Invariant.Settled(t, ev.kind, p.value);
      assert u.bookings == s.bookings;
      Invariant.ActIsUpdateThenBooking(t, ev, p.value);
      FollowedProtects(u, ev.kind, s.payments[p.value].booking, b, deadline);
    }
  }

  /** Once a checkout extended the hold to `deadline`, every seat of the booking
      stays claimed until then, whatever the sweeper and other users do, unless
      the owner cancels or a refund arrives. */
  lemma {:induction false} CheckoutProtectsSeats(s: State, steps: seq<Step>, b: BookingId, deadline: Time)
    requires Valid(s) && ProtectedUntil(s, b, deadline)
    requires NobodyGivesUp(s, steps, b)
    requires Run(s, steps).now < deadline
    ensures var t := Run(s, steps);
            && ProtectedUntil(t, b, deadline)
            && forall k | k in s.claims && k.booking == b :: k in t.claims && t.claims[k].active
    decreases |steps|
  {
    Invariant.RunKeepsValid(s, steps);
    RunEvolves(s, steps);
    if steps != [] {
      var t := Apply(s, steps[0]);
      Invariant.StepKeepsValid(s, steps[0]);
      RunEvolves(t, steps[1..]);
      StepProtects(s, steps[0], b, deadline);
      CheckoutProtectsSeats(t, steps[1..], b, deadline);
    }
  }

  lemma ExtendHoldProtects(s: State, b: BookingId, deadline: Time)
    ensures ExtendHold(s, b, deadline).result.Ok? <==> b in s.bookings && s.bookings[b].status.BookingHeld?
    ensures ExtendHold(s, b, deadline).result.Ok? ==> ProtectedUntil(ExtendHold(s, b, deadline).state, b, deadline)
  {
  }

  /** From the extension on: what a checkout claims of the time it asked for. */
  lemma ExtendedCheckoutKeepsSeats(s: State, b: BookingId, deadline: Time, steps: seq<Step>)
    requires Valid(s) && ExtendHold(s, b, deadline).result.Ok?
    requires NobodyGivesUp(ExtendHold(s, b, deadline).state, steps, b)
    requires Run(ExtendHold(s, b, deadline).state, steps).now < deadline
    ensures var t := Run(ExtendHold(s, b, deadline).state, steps);
            && b in t.bookings && t.bookings[b].IsActive()
            && forall k | k in s.claims && k.booking == b :: k in t.claims && t.claims[k].active
  {
    ExtendHoldProtects(s, b, deadline);
    Invariant.ExtendKeepsValid(s, b, deadline);
    CheckoutProtectsSeats(ExtendHold(s, b, deadline).state, steps, b, deadline);
  }
}
