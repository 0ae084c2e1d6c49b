/** The payment use case: checkout, provider callbacks and cancellation, statement
    by statement, with the gateway's answers as inputs. A call that is not
    overlapped by another on its booking is a run of the money protocol. */
module Payments {
  import opened Domain
  import opened Calls
  import Invariant
  import Money
  import MoneyLaws
  import Postgres
  import Readings
  import Store

  // Times are in seconds.
  const DEFAULT_PAYMENT_WINDOW := 10 * 60

  /** What CreateIntent returns; the empty status is left to the service. */
  datatype Intent = Intent(ref: string, status: Option<PaymentStatus>)

  /** A payment another checkout of the booking inserts at the same time. */
  datatype Rival = Rival(id: PaymentId, row: Payment)

  /** What another call on the booking does in the middle of a checkout. */
  datatype Meanwhile =
    | Undisturbed
      // cancelled before the hold is extended
    | Closed
      // a payment is inserted before the checkout inserts its own; it may settle
      // before the checkout reads it
    | Beaten(rival: Rival, settled: Option<PaymentStatus>)

  datatype Refund = Refund(payment: PaymentId, amount: nat)

  function Propagate<T, U>(r: Result<T>): Result<U> {
    match r
    case Ok(_) => Err(ErrDatabase)
    case Err(e) => Err(e)
  }

  /** An error other than the tolerated one. */
  predicate Fails<T>(r: Result<T>, tolerated: Error) {
    match r
    case Ok(_) => false
    case Err(e) => e != tolerated
  }

  /** The service's answer is the transaction's, with the amount filled in. */
  ghost predicate Answers(r: Result<Option<Refund>>, o: Result<Option<PaymentId>>, rows: map<PaymentId, Payment>) {
    match o
    case Err(e) => r == Err(e)
    case Ok(None) => r == Ok(None)
    case Ok(Some(p)) => p in rows && r == Ok(Some(Refund(p, rows[p].amount)))
  }

  predicate Ends(status: PaymentStatus) { !status.PaymentPending? && !status.PaymentProcessing? }

  /** The open payment of the booking, with the status it ended in. */
  ghost function WithClosed(rows: map<PaymentId, Payment>, b: BookingId, status: PaymentStatus): map<PaymentId, Payment> {
    match Money.OpenPayment(rows, b)
    case Some(q) => rows[q := rows[q].(status := status)]
    case None => rows
  }

  /** Everything but the payments is as it was. */
  ghost predicate OnlyPayments(s: Store.State, t: Store.State) {
    t == s.(payments := t.payments)
  }

  /** The hold lasts for `window` from now, or longer if it did before; nothing
      else about bookings and claims changed. */
  ghost predicate GivenTime(s: Store.State, t: Store.State, b: BookingId, window: int) {
    && b in s.bookings
    && var expiry := s.bookings[b].expiry;
    var later := if expiry.Some? && s.now + window < expiry.value then expiry.value else s.now + window;
    && t.bookings == s.bookings[b := s.bookings[b].(expiry := Some(later))]
    && t.claims == s.claims && t.now == s.now
  }

  /** The gateway was asked to cancel the booking's open charge, and nothing else. */
  ghost predicate Drops(rows: map<PaymentId, Payment>, b: BookingId, before: seq<string>, after: seq<string>) {
    && (forall p | p in rows && rows[p].booking == b && rows[p].IsOpen() :: after == before + [rows[p].ref])
    && ((forall p | p in rows && rows[p].booking == b :: !rows[p].IsOpen()) ==> after == before)
  }

  /** The gateway was asked for the whole of one captured charge of the booking, if
      it has any, and for nothing else. */
  ghost predicate AsksBack(rows: map<PaymentId, Payment>, b: BookingId, accepted: bool, before: seq<Money.RefundCall>,
                           after: seq<Money.RefundCall>)
  {
    if Money.HasSucceeded(rows, b) then
      exists p :: && p in rows && rows[p].booking == b && rows[p].status == PaymentSucceeded
                  && after == before + [Money.RefundCall(p, rows[p].ref, rows[p].amount, false, accepted)]
    else after == before
  }

  /** The booking is cancelled and its seats are free; no other booking changed. */
  ghost predicate Freed(s: Store.State, t: Store.State, b: BookingId) {
    && b in s.bookings
    && t.bookings == s.bookings[b := s.bookings[b].(status := BookingCancelled, expiry := None)]
    && t.claims.Keys == s.claims.Keys
    && forall k | k in s.claims :: t.claims[k] == if k.booking == b then s.claims[k].(active := false) else s.claims[k]
  }

  class PaymentService {
    const db: Postgres.Database
    const setup: Money.Setup
    /** What the gateway was asked to refund and to cancel. */
    var refunds: seq<Money.RefundCall>
    var dropped: seq<string>
    /** The gateway's verdicts on its charges. */
    ghost var verdicts: map<Money.Charge, Money.Verdict>

    constructor (db: Postgres.Database, provider: string, window: int, cutoff: int, startsAt: map<ShowtimeId, Time>)
      ensures this.db == db && refunds == [] && dropped == [] && verdicts == map[]
      ensures setup == Money.Setup(provider, if window <= 0 then DEFAULT_PAYMENT_WINDOW else window, cutoff, startsAt)
    {
      this.db, refunds, dropped, verdicts := db, [], [], map[];
      setup := Money.Setup(provider, if window <= 0 then DEFAULT_PAYMENT_WINDOW else window, cutoff, startsAt);
    }

    /** Everything the money depends on, with no call in progress. */
    ghost function World(): Money.World
      reads this, db
    {
      Money.World(setup, db.Snapshot(), map[], refunds, verdicts)
    }

    ghost predicate Valid()
      reads this, db
    {
      db.Valid() && db.begun.None?
    }

    // ---------------------------------------------------------------- checkout

    /** The checks of StartCheckout; an open payment is resumed. */
    method MayStart(b: BookingId, user: UserId) returns (r: Result<Option<PaymentId>>)
      requires Valid()
      ensures r.Ok? && r.value.None? <==> MayCheckOut(World(), b, user)
      ensures if b !in db.bookings || db.bookings[b].user != user then r == Err(ErrBookingNotFound)
              else if db.bookings[b].status != BookingHeld then r == Err(ErrBookingState)
              else if db.bookings[b].expiry.Some? && db.bookings[b].expiry.value <= db.now then r == Err(ErrBookingExpired)
              else r == Ok(Money.OpenPayment(db.payments, b))
      ensures r.Err? <==> Readings.CheckoutRefusal(db.Snapshot(), b, user).Some?
      ensures r.Err? ==> Some(r.error) == Readings.CheckoutRefusal(db.Snapshot(), b, user)
    {
      var row := db.GetById(b);
      if row.Err? {
        return Err(row.error);
      }
      if row.value.user != user {
        return Err(ErrBookingNotFound);
      }
      if !row.value.status.BookingHeld? {
        return Err(ErrBookingState);
      }
      if row.value.HoldLapsed(db.now) {
        return Err(ErrBookingExpired);
      }
      var existing := db.GetOpenByBooking(b);
      if existing.Ok? {
        assert Store.OneOpenPayment(db.Snapshot());
        return Ok(Some(existing.value));
      }
      r := Ok(None);
    }

    /** Inserts the payment for an intent. When a concurrent checkout opened one
        first, the intent is dropped at the gateway and the other is resumed; if
        that one settles before it is read, the caller is told that a payment was
        in progress. */
    method Record(b: BookingId, intent: Intent, p: PaymentId, key: string, settled: Option<PaymentStatus>)
      returns (r: Result<PaymentId>)
      requires Valid() && b in db.bookings
      modifies this`dropped, db
      ensures Valid() && verdicts == old(verdicts) && OnlyPayments(old(db.Snapshot()), db.Snapshot())
      ensures var row := Payment(b, setup.provider, intent.ref, if intent.status.Some? then intent.status.value else PaymentPending,
                                 old(db.bookings[b].total), key);
              var o := Store.CreatePayment(old(db.Snapshot()), p, row);
              && (o.result != Err(ErrPaymentInProgress) ==>
                    r == o.result && dropped == old(dropped) && db.Snapshot() == o.state)
              && (o.result == Err(ErrPaymentInProgress) ==> dropped == old(dropped) + [intent.ref])
              && (o.result == Err(ErrPaymentInProgress) && settled.None? ==>
                    && db.Snapshot() == o.state
                    && r.Ok? && Money.OpenPayment(db.payments, b) == Some(r.value))
              && (o.result == Err(ErrPaymentInProgress) && settled.Some? && Ends(settled.value) ==>
                    && r == Err(ErrPaymentInProgress)
                    && db.payments == WithClosed(old(db.payments), b, settled.value))
    {
      var status := if intent.status.Some? then intent.status.value else PaymentPending;
      r := db.Create(p, Payment(b, setup.provider, intent.ref, status, db.bookings[b].total, key));
      if r == Err(ErrPaymentInProgress) {
        dropped := dropped + [intent.ref];
        if settled.Some? {
          SettleRival(b, settled.value);
        }
        var existing := db.GetOpenByBooking(b);
        assert Store.OneOpenPayment(db.Snapshot());
        r := if existing.Ok? then existing else r;
      }
    }

    /** Another delivery settles the open payment of the booking. */
    method SettleRival(b: BookingId, status: PaymentStatus)
      requires Valid() && Store.HasOpenPayment(db.payments, b)
      modifies db
      ensures Valid() && OnlyPayments(old(db.Snapshot()), db.Snapshot())
      ensures Ends(status) ==>
                !Store.HasOpenPayment(db.payments, b) && db.payments == WithClosed(old(db.payments), b, status)
    {
      var open := db.GetOpenByBooking(b);
      assert Store.OneOpenPayment(db.Snapshot());
      var _ := db.Update(open.value, status);
    }

    /** What the gateway promises of a new intent, and the attempt key of itself:
        both are new, and the charge is pending. */
    ghost predicate FreshIntent(w: Money.World, intent: Intent, key: string) {
      && intent.ref != "" && (intent.status.None? || intent.status.value.PaymentPending?)
      && !Store.RefTaken(w.store.payments, w.setup.provider, intent.ref)
      && !Store.HasPaymentKey(w.store.payments, key)
    }

    /** The payment another checkout of the booking gets in first. */
    ghost predicate Beats(w: Money.World, rival: Rival, b: BookingId, intent: Intent, p: PaymentId, key: string) {
      && rival.row.booking == b && rival.row.IsOpen()
      && Store.CreatePayment(w.store, rival.id, rival.row) ==
         Store.Outcome(w.store.(payments := w.store.payments[rival.id := rival.row]), Ok(rival.id))
      && rival.id !in w.store.payments && p !in w.store.payments && rival.id != p
      && rival.row.ref != intent.ref && rival.row.key != key
    }

    function GatewayError(e: Error): Error {
      if e.ErrValidation? then ErrValidation else ErrProviderUnavailable
    }

    /** Recording a fresh intent when nothing else happens. */
    method RecordFresh(b: BookingId, intent: Intent, p: PaymentId, key: string) returns (r: Result<PaymentId>)
      requires Valid() && b in db.bookings && !Store.HasOpenPayment(db.payments, b)
      modifies this`dropped, db
      ensures Valid() && verdicts == old(verdicts) && OnlyPayments(old(db.Snapshot()), db.Snapshot())
      ensures FreshIntent(old(World()), intent, key) ==>
                && db.Snapshot() == Store.CreatePayment(old(db.Snapshot()), p, ChargeRow(old(World()), b, intent.ref, key)).state
                && dropped == old(dropped)
                && (p !in old(db.payments) ==>
                      r == Ok(p) && db.payments == old(db.payments)[p := ChargeRow(old(World()), b, intent.ref, key)])
    {
      r := Record(b, intent, p, key, None);
    }

    /** Recording it after a concurrent checkout inserted its own payment. */
    method RecordBeaten(b: BookingId, intent: Intent, p: PaymentId, key: string, rival: Rival, settled: Option<PaymentStatus>)
      returns (r: Result<PaymentId>)
      requires Valid() && b in db.bookings
      modifies this`dropped, db
      ensures Valid() && verdicts == old(verdicts) && OnlyPayments(old(db.Snapshot()), db.Snapshot())
      ensures FreshIntent(old(World()), intent, key) && Beats(old(World()), rival, b, intent, p, key) ==>
                && dropped == old(dropped) + [intent.ref]
                && (settled.None? ==> r == Ok(rival.id) && db.payments == old(db.payments)[rival.id := rival.row])
                && (settled.Some? && Ends(settled.value) ==>
                      && r == Err(ErrPaymentInProgress)
                      && db.payments == old(db.payments)[rival.id := rival.row.(status := settled.value)])
    {
      ghost var w := World();
      var _ := db.Create(rival.id, rival.row);
      if FreshIntent(w, intent, key) && Beats(w, rival, b, intent, p, key) {
        RivalBlocks(db.Snapshot(), w.store.payments, rival, p, ChargeRow(w, b, intent.ref, key));
        RivalCloses(w.store.payments, rival, b);
      }
      r := Record(b, intent, p, key, settled);
    }

    /** Gives the checkout room to finish, unless the booking was closed. */
    method Extend(b: BookingId, meanwhile: Meanwhile) returns (r: Result<BookingId>)
      requires Valid() && b in db.bookings && db.bookings[b].status.BookingHeld?
      modifies db
      ensures Valid() && verdicts == old(verdicts)
      ensures if meanwhile.Closed? then r == Err(ErrBookingState) && db.payments == old(db.payments)
              else r.Ok? && World() == Extended(old(World()), b) && GivenTime(old(db.Snapshot()), db.Snapshot(), b, setup.window)
    {
      if meanwhile.Closed? {
        var _ := db.Cancel(b, BookingCancelled);
      }
      r := db.ExtendHold(b, db.now + setup.window);
    }

    /** From the extension of the hold on. */
    method Proceed(b: BookingId, intent: Result<Intent>, p: PaymentId, key: string, meanwhile: Meanwhile)
      returns (r: Result<PaymentId>)
      requires Valid() && b in db.bookings && db.bookings[b].status.BookingHeld?
      requires !Store.HasOpenPayment(db.payments, b)
      modifies this`dropped, db
      ensures Valid() && verdicts == old(verdicts)
      ensures meanwhile.Closed? ==> r == Err(ErrBookingState) && db.payments == old(db.payments) && dropped == old(dropped)
      ensures !meanwhile.Closed? ==> GivenTime(old(db.Snapshot()), db.Snapshot(), b, setup.window)
      ensures !meanwhile.Closed? && intent.Err? ==>
                && r == Err(if intent.error == ErrValidation then ErrValidation else ErrProviderUnavailable)
                && World() == CheckedOut(old(World()), b, None, p, key) && dropped == old(dropped)
      ensures meanwhile.Undisturbed? && intent.Ok? && FreshIntent(old(World()), intent.value, key) ==>
                && World() == CheckedOut(old(World()), b, Some(intent.value.ref), p, key)
                && dropped == old(dropped)
                && (p !in old(db.payments) ==>
                      r == Ok(p) && db.payments == old(db.payments)[p := ChargeRow(old(World()), b, intent.value.ref, key)])
      ensures meanwhile.Beaten? && intent.Ok? && FreshIntent(old(World()), intent.value, key)
              && Beats(Extended(old(World()), b), meanwhile.rival, b, intent.value, p, key) ==>
                && dropped == old(dropped) + [intent.value.ref]
                && (meanwhile.settled.None? ==>
                      r == Ok(meanwhile.rival.id) && db.payments == old(db.payments)[meanwhile.rival.id := meanwhile.rival.row])
                && (meanwhile.settled.Some? && Ends(meanwhile.settled.value) ==>
                      && r == Err(ErrPaymentInProgress)
                      && db.payments == old(db.payments)[meanwhile.rival.id :=
                           meanwhile.rival.row.(status := meanwhile.settled.value)])
    {
      var extended := Extend(b, meanwhile);
      if extended.Err? {
        return Err(extended.error);
      }
      if intent.Err? {
        return Err(GatewayError(intent.error));
      }
      if meanwhile.Beaten? {
        r := RecordBeaten(b, intent.value, p, key, meanwhile.rival, meanwhile.settled);
      } else {
        r := RecordFresh(b, intent.value, p, key);
      }
    }

    /** StartCheckout, undisturbed, is the checkout of the protocol: it resumes an
        open payment, and otherwise extends the hold and records one new charge
        for exactly the booking's total. Beaten by another checkout, it drops its
        own intent and returns the other payment; when the booking was cancelled
        meanwhile, it charges nothing. */
    method StartCheckout(b: BookingId, user: UserId, intent: Result<Intent>, p: PaymentId, key: string, meanwhile: Meanwhile)
      returns (r: Result<PaymentId>)
      requires Valid()
      modifies this`dropped, db
      ensures Valid() && verdicts == old(verdicts)
      ensures meanwhile.Undisturbed? && (intent.Ok? ==> FreshIntent(old(World()), intent.value, key)) ==>
                && World() == Money.Play(old(World()), CheckoutActions(
                     b, user, if intent.Ok? then Some(intent.value.ref) else None, p, key))
                && (Money.Sound(old(World())) ==> Money.Sound(World()) && MoneyLaws.Balanced(World()))
      ensures var s := old(db.Snapshot());
              if b !in s.bookings || s.bookings[b].user != user then r == Err(ErrBookingNotFound)
              else if s.bookings[b].status != BookingHeld then r == Err(ErrBookingState)
              else if s.bookings[b].expiry.Some? && s.bookings[b].expiry.value <= s.now then r == Err(ErrBookingExpired)
              else forall q | q in s.payments && s.payments[q].booking == b && s.payments[q].IsOpen() :: r == Ok(q)
      ensures !MayCheckOut(old(World()), b, user) ==> World() == old(World()) && dropped == old(dropped)
      ensures MayCheckOut(old(World()), b, user) && meanwhile.Closed? ==>
                r == Err(ErrBookingState) && db.payments == old(db.payments) && dropped == old(dropped)
      ensures MayCheckOut(old(World()), b, user) && !meanwhile.Closed? ==> GivenTime(old(db.Snapshot()), db.Snapshot(), b, setup.window)
      ensures MayCheckOut(old(World()), b, user) && !meanwhile.Closed? && intent.Err? ==>
                && r == Err(if intent.error == ErrValidation then ErrValidation else ErrProviderUnavailable)
                && db.payments == old(db.payments) && dropped == old(dropped)
      ensures MayCheckOut(old(World()), b, user) && meanwhile.Undisturbed? && intent.Ok?
              && FreshIntent(old(World()), intent.value, key) && p !in old(db.payments) ==>
                && r == Ok(p) && dropped == old(dropped)
                && db.payments == old(db.payments)[p := Payment(b, setup.provider, intent.value.ref, PaymentPending,
                                                                old(db.bookings[b].total), key)]
      ensures MayCheckOut(old(World()), b, user) && meanwhile.Beaten? && intent.Ok?
              && FreshIntent(old(World()), intent.value, key)
              && Beats(Extended(old(World()), b), meanwhile.rival, b, intent.value, p, key) ==>
                && dropped == old(dropped) + [intent.value.ref]
                && (meanwhile.settled.None? ==>
                      r == Ok(meanwhile.rival.id) && db.payments == old(db.payments)[meanwhile.rival.id := meanwhile.rival.row])
                && (meanwhile.settled.Some? && Ends(meanwhile.settled.value) ==>
                      && r == Err(ErrPaymentInProgress)
                      && db.payments == old(db.payments)[meanwhile.rival.id :=
                           meanwhile.rival.row.(status := meanwhile.settled.value)])
    {
      ghost var w := World();
      ghost var ref := if intent.Ok? then Some(intent.value.ref) else None;
      var checks := MayStart(b, user);
      if checks.Err? {
        CheckoutRuns(w, b, user, ref, p, key, w);
        return Err(checks.error);
      }
      if checks.value.Some? {
        CheckoutRuns(w, b, user, ref, p, key, w);
        return Ok(checks.value.value);
      }
      r := Proceed(b, intent, p, key, meanwhile);
      if meanwhile.Undisturbed? && (intent.Ok? ==> FreshIntent(w, intent.value, key)) {
        CheckoutRuns(w, b, user, ref, p, key, World());
      }
    }

    // ----------------------------------------------------------------- webhook

    /** The money arrived: a held booking becomes confirmed, and for one that is
        gone the whole amount is to go back. */
    method ApplySuccess(p: PaymentId) returns (r: Result<Option<Refund>>)
      requires db.Valid() && p in db.payments
      modifies db
      ensures db.Valid() && db.begun == old(db.begun)
      ensures Answers(r, Store.ApplySuccess(old(db.Snapshot()), p).result, db.payments)
      ensures r.Ok? ==> db.Snapshot() == Store.ApplySuccess(old(db.Snapshot()), p).state
    {
      var payment := db.payments[p];
      if !payment.status.PaymentSucceeded? {
        var paid := db.Update(p, PaymentSucceeded);
        if paid.Err? {
          return Err(paid.error);
        }
      }
      var booking := db.GetById(payment.booking);
      if booking.Err? {
        return Propagate(booking);
      }
      match booking.value.status {
        case BookingConfirmed =>
          r := Ok(None);
        case BookingHeld =>
          var confirmed := db.Confirm(payment.booking);
          r := if confirmed.Err? then Propagate(confirmed) else Ok(None);
        case _ =>
          r := Ok(Some(Refund(p, payment.amount)));
      }
    }

    /** The money went back: so do the seats. A payment or a booking that is past
        that already is tolerated. */
    method ApplyRefund(p: PaymentId) returns (r: Result<Option<Refund>>)
      requires db.Valid() && p in db.payments
      modifies db
      ensures db.Valid() && db.begun == old(db.begun)
      ensures Answers(r, Store.ApplyRefund(old(db.Snapshot()), p).result, db.payments)
      ensures r.Ok? ==> db.Snapshot() == Store.ApplyRefund(old(db.Snapshot()), p).state
    {
      var payment := db.payments[p];
      if !payment.status.PaymentRefunded? {
        var refunded := db.Update(p, PaymentRefunded);
        if Fails(refunded, ErrPaymentState) {
          return Propagate(refunded);
        }
      }
      var booking := db.GetById(payment.booking);
      if booking.Err? {
        return Propagate(booking);
      }
      if !booking.value.IsActive() {
        return Ok(None);
      }
      var cancelled := db.Cancel(payment.booking, BookingCancelled);
      if Fails(cancelled, ErrBookingState) {
        return Propagate(cancelled);
      }
      r := Ok(None);
    }

    /** The charge ended without success, unless the row has an end already. */
    method Settle(p: PaymentId, status: PaymentStatus) returns (r: Result<Option<Refund>>)
      requires db.Valid()
      modifies db
      ensures db.Valid() && db.begun == old(db.begun)
      ensures r == Ok(None) && db.Snapshot() == Store.UpdatePayment(old(db.Snapshot()), p, status).state
    {
      var settled := db.Update(p, status);
      r := if Fails(settled, ErrPaymentState) then Propagate(settled) else Ok(None);
    }

    method Act(ev: PaymentEvent, p: PaymentId) returns (r: Result<Option<Refund>>)
      requires db.Valid() && p in db.payments
      modifies db
      ensures db.Valid() && db.begun == old(db.begun)
      ensures Answers(r, Store.Act(old(db.Snapshot()), ev, p).result, db.payments)
      ensures r.Ok? ==> db.Snapshot() == Store.Act(old(db.Snapshot()), ev, p).state
    {
      match ev.kind {
        case EventSucceeded => r := ApplySuccess(p);
        case EventFailed => r := Settle(p, PaymentFailed);
        case EventCancelled => r := Settle(p, PaymentCancelled);
        case EventRefunded => r := ApplyRefund(p);
        case EventOther => r := Ok(None);
      }
    }

    /** The body of the webhook transaction: the event row comes first. The
        environment may abort it right after. */
    method Process(ev: PaymentEvent, aborted: bool) returns (r: Result<Option<Refund>>)
      requires db.Valid()
      modifies db
      ensures db.Valid() && db.begun == old(db.begun)
      ensures aborted ==> r == Err(ErrDatabase)
      ensures !aborted ==>
                && Answers(r, Store.Deliver(old(db.Snapshot()), ev).result, db.payments)
                && (r.Ok? ==> db.Snapshot() == Store.Deliver(old(db.Snapshot()), ev).state)
    {
      var isNew := db.RecordEvent(ev);
      if aborted {
        return Err(ErrDatabase);
      }
      if !isNew {
        return Ok(None);
      }
      var charge := db.GetByProviderRef(ev.key.provider, ev.ref);
      if charge.Err? {
        return if Fails(charge, ErrPaymentNotFound) then Propagate(charge) else Ok(None);
      }
      r := Act(ev, charge.value);
    }

    /** The webhook transaction, aborted after the event row, at the commit or not
        at all: a delivery that returns an error leaves the whole store as it was,
        event row included, and only one that is on record returns none. */
    method Transact(ev: PaymentEvent, abortAt: Option<nat>) returns (r: Result<Option<Refund>>)
      requires Valid()
      modifies db
      ensures Valid()
      ensures r.Err? ==> db.Snapshot() == old(db.Snapshot())
      ensures r.Err? <==> abortAt.Some? || SuccessRefused(old(db.Snapshot()), ev)
      ensures r.Err? ==> r.error == if SuccessRefused(old(db.Snapshot()), ev) && abortAt != Some(0) then ErrPaymentState
                                    else ErrDatabase
      ensures r.Ok? ==>
                && ev.key in db.events
                && Answers(r, Store.Deliver(old(db.Snapshot()), ev).result, db.payments)
                && db.Snapshot() == Store.Deliver(old(db.Snapshot()), ev).state
    {
      ghost var start := db.Snapshot();
      RefusedDelivery(start, ev);
      var outermost := db.Begin();
      r := Process(ev, abortAt == Some(0));
      if r.Ok? && abortAt.Some? {
        r := Err(ErrDatabase);
      }
      db.End(outermost, r.Err?);
    }

    /** The refund a delivery asked for, after its commit. Neither a refusal nor a
        payment row that changed meanwhile is reported to the caller. */
    method RefundOrphanedCharge(refund: Refund, ref: string, accepted: bool)
      requires Valid()
      modifies this`refunds, db
      ensures Valid() && verdicts == old(verdicts)
      ensures refunds == old(refunds) + [Money.RefundCall(refund.payment, ref, refund.amount, true, accepted)]
      ensures db.Snapshot() == if accepted
                               then Store.UpdatePayment(old(db.Snapshot()), refund.payment, PaymentRefunded).state
                               else old(db.Snapshot())
    {
      refunds := refunds + [Money.RefundCall(refund.payment, ref, refund.amount, true, accepted)];
      if accepted {
        var _ := db.Update(refund.payment, PaymentRefunded);
      }
    }

    /** An authentic event: the transaction, and after its commit the refund. */
    method Deliver(ev: PaymentEvent, accepted: bool, abortAt: Option<nat>) returns (error: Option<Error>)
      requires Valid()
      modifies this`refunds, db
      ensures Valid() && verdicts == old(verdicts)
      ensures error.Some? ==> World() == old(World())
      ensures error.None? ==> ev.key in db.events && World() == Handled(old(World()), ev, accepted)
      ensures error == if abortAt == Some(0) then Some(ErrDatabase)
                       else if SuccessRefused(old(db.Snapshot()), ev) then Some(ErrPaymentState)
                       else if abortAt.Some? then Some(ErrDatabase)
                       else None
    {
      ghost var s := db.Snapshot();
      var r := Transact(ev, abortAt);
      if r.Err? {
        return Some(r.error);
      }
      if r.value.Some? {
        DeliveredCharge(s, ev);
        RefundOrphanedCharge(r.value.value, ev.ref, accepted);
      }
      error := None;
    }

    /** HandleWebhook is one delivery of the protocol, followed after the commit by
        the refund it asks for: of exactly the charge's amount, on its reference. */
    method HandleWebhook(event: Result<PaymentEvent>, accepted: bool, abortAt: Option<nat>) returns (error: Option<Error>)
      requires Valid()
      modifies this`refunds, db
      ensures Valid() && verdicts == old(verdicts)
      ensures event.Err? ==> error == Some(event.error)
      ensures error.Some? ==> World() == old(World())
      ensures event.Ok? && error.None? ==>
                event.value.key in db.events && World() == Handled(old(World()), event.value, accepted)
      ensures event.Ok? ==>
                error == if abortAt == Some(0) then Some(ErrDatabase)
                         else if SuccessRefused(old(db.Snapshot()), event.value) then Some(ErrPaymentState)
                         else if abortAt.Some? then Some(ErrDatabase)
                         else None
      ensures event.Ok? && abortAt.None? && Money.Agrees(old(World()), event.value) ==>
                && World() == Money.Play(old(World()), WebhookActions(old(World()), event.value, accepted))
                && (Money.Sound(old(World())) ==> Money.Sound(World()) && MoneyLaws.Balanced(World()))
    {
      if event.Err? {
        return Some(event.error);
      }
      ghost var w := World();
      error := Deliver(event.value, accepted, abortAt);
      if abortAt.None? && Money.Agrees(w, event.value) {
        WebhookRuns(w, event.value, accepted, World());
      }
    }

    // ------------------------------------------------------------ cancellation

    /** Cancels a charge still in flight, at the gateway and in the store. */
    method CancelOpenCharge(b: BookingId) returns (r: Result<bool>)
      requires Valid()
      modifies this`dropped, db
      ensures Valid() && verdicts == old(verdicts)
      ensures r.Ok? && World() == ChargeCancelled(old(World()), b) && OnlyPayments(old(db.Snapshot()), db.Snapshot())
      ensures Drops(old(db.payments), b, old(dropped), dropped)
    {
      var open := db.GetOpenByBooking(b);
      if open.Ok? {
        assert Store.OneOpenPayment(db.Snapshot());
        dropped := dropped + [db.payments[open.value].ref];
        var settled := db.Update(open.value, PaymentCancelled);
        if Fails(settled, ErrPaymentState) {
          return Propagate(settled);
        }
      }
      r := Ok(true);
    }

    /** Refunds a captured charge, if there is one. */
    method RefundCaptured(b: BookingId, accepted: bool) returns (r: Result<bool>)
      requires Valid()
      modifies this`refunds, db
      ensures Valid() && verdicts == old(verdicts)
      ensures r == if accepted || !Money.HasSucceeded(old(db.payments), b) then Ok(true) else Err(ErrProviderUnavailable)
      ensures Money.CapturedAlone(old(db.payments)) ==> World() == ChargeRefunded(old(World()), b, accepted)
      ensures AsksBack(old(db.payments), b, accepted, old(refunds), refunds)
      ensures OnlyPayments(old(db.Snapshot()), db.Snapshot())
    {
      var captured := db.GetSucceededByBooking(b);
      if captured.Err? {
        return if Fails(captured, ErrPaymentNotFound) then Propagate(captured) else Ok(true);
      }
      var row := db.payments[captured.value];
      refunds := refunds + [Money.RefundCall(captured.value, row.ref, row.amount, false, accepted)];
      if !accepted {
        return Err(ErrProviderUnavailable);
      }
      var refunded := db.Update(captured.value, PaymentRefunded);
      r := if Fails(refunded, ErrPaymentState) then Propagate(refunded) else Ok(true);
    }

    /** The checks of CancelBooking, in order. */
    method CheckCancel(b: BookingId, user: UserId) returns (error: Option<Error>)
      ensures error.None? <==> MayCancel(World(), b, user)
      ensures error.Some? ==> error.value == if b !in db.bookings || db.bookings[b].user != user then ErrBookingNotFound
                                             else ErrBookingState
      ensures error.None? <==>
                && b in db.bookings && db.bookings[b].user == user
                && (|| db.bookings[b].status == BookingHeld
                    || (db.bookings[b].status == BookingConfirmed
                        && (db.bookings[b].showtime in setup.startsAt ==>
                              db.now + setup.cutoff <= setup.startsAt[db.bookings[b].showtime])))
    {
      var row := db.GetById(b);
      if row.Err? {
        return Some(row.error);
      }
      if row.value.user != user {
        return Some(ErrBookingNotFound);
      }
      if !row.value.IsActive() {
        return Some(ErrBookingState);
      }
      if row.value.status.BookingConfirmed? && row.value.showtime in setup.startsAt {
        if setup.startsAt[row.value.showtime] < db.now + setup.cutoff {
          return Some(ErrBookingState);
        }
      }
      error := None;
    }

    method FreeSeats(b: BookingId) returns (r: Result<BookingId>)
      requires Valid() && b in db.bookings && db.bookings[b].IsActive()
      modifies db
      ensures Valid()
      ensures r == Ok(b) && db.Snapshot() == Store.Cancel(old(db.Snapshot()), b, BookingCancelled).state
      ensures Freed(old(db.Snapshot()), db.Snapshot(), b)
    {
      CancelFrees(db.Snapshot(), b);
      r := db.Cancel(b, BookingCancelled);
    }

    /** The charge in flight first, then the money. */
    method GiveBack(b: BookingId, accepted: bool) returns (r: Result<bool>)
      requires Valid()
      modifies this`refunds, this`dropped, db
      ensures Valid() && verdicts == old(verdicts)
      ensures Money.CapturedAlone(old(db.payments)) ==>
                World() == ChargeRefunded(ChargeCancelled(old(World()), b), b, accepted)
      ensures r == if Money.HasSucceeded(old(db.payments), b) && !accepted then Err(ErrProviderUnavailable) else Ok(true)
      ensures Drops(old(db.payments), b, old(dropped), dropped)
      ensures AsksBack(old(db.payments), b, accepted, old(refunds), refunds)
      ensures OnlyPayments(old(db.Snapshot()), db.Snapshot())
    {
      ghost var w := World();
      var cancelled := CancelOpenCharge(b);
      if cancelled.Err? {
        return cancelled;
      }
      CancellingKeepsCaptured(w, b);
      CancellingKeepsRows(w, b);
      r := RefundCaptured(b, accepted);
    }

    /** Then the seats. */
    method Unwind(b: BookingId, accepted: bool) returns (r: Result<BookingId>)
      requires Valid() && b in db.bookings && db.bookings[b].IsActive()
      modifies this`refunds, this`dropped, db
      ensures Valid() && verdicts == old(verdicts)
      ensures Money.CapturedAlone(old(db.payments)) ==> World() == Cancelled(old(World()), b, accepted)
      ensures r == if Money.HasSucceeded(old(db.payments), b) && !accepted then Err(ErrProviderUnavailable) else Ok(b)
      ensures Drops(old(db.payments), b, old(dropped), dropped)
      ensures AsksBack(old(db.payments), b, accepted, old(refunds), refunds)
      ensures if r.Ok? then Freed(old(db.Snapshot()), db.Snapshot(), b)
              else OnlyPayments(old(db.Snapshot()), db.Snapshot())
    {
      CancellingKeepsCaptured(World(), b);
      var refunded := GiveBack(b, accepted);
      if refunded.Err? {
        return Propagate(refunded);
      }
      r := FreeSeats(b);
    }

    /** CancelBooking is the cancellation of the protocol; the seats stay when the
        refund is refused. */
    method CancelBooking(b: BookingId, user: UserId, accepted: bool) returns (r: Result<BookingId>)
      requires Valid()
      modifies this`refunds, this`dropped, db
      ensures Valid() && verdicts == old(verdicts)
      ensures Money.CapturedAlone(old(db.payments)) ==>
                World() == Money.Play(old(World()), CancelActions(b, user, accepted))
      ensures Money.Sound(old(World())) ==> Money.Sound(World()) && MoneyLaws.Balanced(World())
      ensures var s := old(db.Snapshot());
              if b !in s.bookings || s.bookings[b].user != user then r == Err(ErrBookingNotFound)
              else if s.bookings[b].status != BookingHeld && s.bookings[b].status != BookingConfirmed
              then r == Err(ErrBookingState)
              else if s.bookings[b].status == BookingConfirmed && s.bookings[b].showtime in setup.startsAt
                      && setup.startsAt[s.bookings[b].showtime] < s.now + setup.cutoff
              then r == Err(ErrBookingState)
              else && r == (if Money.HasSucceeded(s.payments, b) && !accepted then Err(ErrProviderUnavailable) else Ok(b))
                   && Drops(s.payments, b, old(dropped), dropped)
                   && AsksBack(s.payments, b, accepted, old(refunds), refunds)
      ensures !MayCancel(old(World()), b, user) ==> World() == old(World()) && dropped == old(dropped)
      ensures r.Ok? ==> Freed(old(db.Snapshot()), db.Snapshot(), b)
      ensures r.Err? ==> OnlyPayments(old(db.Snapshot()), db.Snapshot())
    {
      ghost var w := World();
      var refusal := CheckCancel(b, user);
      if refusal.Some? {
        CancelRefused(w, b, user, accepted);
        Settles(w, CancelActions(b, user, accepted), w);
        return Err(refusal.value);
      }
      CancelPlays(World(), b, user, accepted);
      r := Unwind(b, accepted);
      Settles(w, CancelActions(b, user, accepted), World());
    }
  }

  lemma WebhookRuns(w: Money.World, ev: PaymentEvent, accepted: bool, after: Money.World)
    requires w.calls == map[] && after.calls == map[] && Money.Agrees(w, ev) && Store.PaymentsValid(w.store)
    requires after == if SuccessRefused(w.store, ev) then w else Handled(w, ev, accepted)
    ensures after == Money.Play(w, WebhookActions(w, ev, accepted))
    ensures Money.Sound(w) ==> Money.Sound(after) && MoneyLaws.Balanced(after)
  {
    RefusedDelivery(w.store, ev);
    WebhookPlays(w, ev, accepted);
    Settles(w, WebhookActions(w, ev, accepted), after);
  }

  /** What a first delivery of a success does to an open charge: the seats are the
      customer's, or, when they are gone, the whole amount is asked back. */
  lemma SuccessDelivered(w: Money.World, ev: PaymentEvent, accepted: bool, p: PaymentId)
    requires Store.PaymentsValid(w.store) && ev.key !in w.store.events && ev.kind.EventSucceeded? && ev.ref != ""
    requires p in w.store.payments && w.store.payments[p].IsOpen()
    requires w.store.payments[p].provider == ev.key.provider && w.store.payments[p].ref == ev.ref
    ensures var after, row := Handled(w, ev, accepted), w.store.payments[p];
            var booking := w.store.bookings[row.booking];
            && after.store.claims == w.store.claims
            && match booking.status {
                 case BookingHeld =>
                   && after.store.bookings ==
                      w.store.bookings[row.booking := booking.(status := BookingConfirmed, expiry := None)]
                   && after.store.payments == w.store.payments[p := row.(status := PaymentSucceeded)]
                   && after.refunds == w.refunds
                 case BookingConfirmed =>
                   && after.store.bookings == w.store.bookings
                   && after.store.payments == w.store.payments[p := row.(status := PaymentSucceeded)]
                   && after.refunds == w.refunds
                 case _ =>
                   && after.store.bookings == w.store.bookings
                   && after.store.payments ==
                      w.store.payments[p := row.(status := if accepted then PaymentRefunded else PaymentSucceeded)]
                   && after.refunds == w.refunds + [Money.RefundCall(p, ev.ref, row.amount, true, accepted)]
               }
  {
    var s := Store.Recorded(w.store, ev.key, Some(p));
    assert Store.ByRef(w.store.payments, ev.key.provider, ev.ref) == Some(p);
    Invariant.ActIsUpdateThenBooking(s, ev, p);
  }

  /** A new success event for a payment that ended without success. */
  ghost predicate SuccessRefused(s: Store.State, ev: PaymentEvent) {
    && ev.key !in s.events && ev.kind.EventSucceeded? && ev.ref != ""
    && exists p :: && p in s.payments && s.payments[p].provider == ev.key.provider && s.payments[p].ref == ev.ref
                   && s.payments[p].status in {PaymentFailed, PaymentCancelled, PaymentRefunded}
  }

  /** Nothing else about a delivery fails, and this does not read as a database
      error. */
  lemma RefusedDelivery(s: Store.State, ev: PaymentEvent)
    requires Store.PaymentsValid(s)
    ensures Store.Deliver(s, ev).result.Err? <==> SuccessRefused(s, ev)
    ensures SuccessRefused(s, ev) ==> Store.Deliver(s, ev).result == Err(ErrPaymentState) && Store.Deliver(s, ev).state == s
    ensures !SuccessRefused(s, ev) ==> ev.key in Store.Deliver(s, ev).state.events
  {
    var p := Store.ByRef(s.payments, ev.key.provider, ev.ref);
    if p.Some? {
      Invariant.ActIsUpdateThenBooking(Store.Recorded(s, ev.key, p), ev, p.value);
    }
  }

  lemma DeliveredCharge(s: Store.State, ev: PaymentEvent)
    ensures var o := Store.Deliver(s, ev);
            o.result.Ok? && o.result.value.Some? ==>
              && o.result.value.value in s.payments && o.result.value.value in o.state.payments
              && o.state.payments[o.result.value.value].ref == ev.ref
  {
  }

  lemma CheckoutRuns(w: Money.World, b: BookingId, user: UserId, intent: Option<string>, p: PaymentId, key: string,
                     after: Money.World)
    requires w.calls == map[] && after.calls == map[]
    requires if MayCheckOut(w, b, user)
             then && (intent.Some? ==> && intent.value != "" && !Store.HasPaymentKey(w.store.payments, key)
                                       && !Store.RefTaken(w.store.payments, w.setup.provider, intent.value))
                  && after == CheckedOut(w, b, intent, p, key)
             else after == w
    ensures after == Money.Play(w, CheckoutActions(b, user, intent, p, key))
    ensures Money.Sound(w) ==> Money.Sound(after) && MoneyLaws.Balanced(after)
  {
    if MayCheckOut(w, b, user) {
      CheckoutPlays(w, b, user, intent, p, key);
    } else {
      CheckoutRefused(w, b, user, intent, p, key);
    }
    Settles(w, CheckoutActions(b, user, intent, p, key), after);
  }

  /** A call that is a run of the protocol leaves the money in order. */
  lemma Settles(w: Money.World, actions: seq<Money.Action>, after: Money.World)
    requires after.calls == map[]
    ensures after == Money.Play(w, actions) && Money.Sound(w) ==> Money.Sound(after) && MoneyLaws.Balanced(after)
  {
    if after == Money.Play(w, actions) && Money.Sound(w) {
      MoneyLaws.BalancedAtRest(w, actions);
    }
  }

  lemma CancelFrees(s: Store.State, b: BookingId)
    requires Store.ClaimsFollowBookings(s) && b in s.bookings && s.bookings[b].IsActive()
    ensures Freed(s, Store.Cancel(s, b, BookingCancelled).state, b)
  {
    Postgres.CloseOne(s, b, BookingCancelled);
  }

  /** Only open payments may change, and they stay uncaptured. */
  ghost predicate OnlyOpenChanges(rows: map<PaymentId, Payment>, after: map<PaymentId, Payment>) {
    && after.Keys == rows.Keys
    && forall p | p in rows :: after[p] == rows[p]
                               || (rows[p].IsOpen() && after[p] == rows[p].(status := PaymentCancelled))
  }

  lemma CapturedStay(rows: map<PaymentId, Payment>, after: map<PaymentId, Payment>, b: BookingId)
    requires OnlyOpenChanges(rows, after)
    ensures Money.HasSucceeded(after, b) <==> Money.HasSucceeded(rows, b)
    ensures Money.CapturedAlone(rows) ==> Money.CapturedAlone(after)
  {
    if p :| p in rows && rows[p].booking == b && rows[p].status.PaymentSucceeded? {
      assert after[p] == rows[p];
    }
  }

  lemma CancellingKeepsCaptured(w: Money.World, b: BookingId)
    ensures Money.HasSucceeded(ChargeCancelled(w, b).store.payments, b) <==> Money.HasSucceeded(w.store.payments, b)
    ensures Money.CapturedAlone(w.store.payments) ==> Money.CapturedAlone(ChargeCancelled(w, b).store.payments)
    ensures ChargeCancelled(w, b).store.bookings == w.store.bookings
  {
    assert OnlyOpenChanges(w.store.payments, ChargeCancelled(w, b).store.payments);
    CapturedStay(w.store.payments, ChargeCancelled(w, b).store.payments, b);
  }

  lemma CancellingKeepsRows(w: Money.World, b: BookingId)
    ensures var rows, after := w.store.payments, ChargeCancelled(w, b).store.payments;
            forall p | p in after && after[p].status.PaymentSucceeded? :: p in rows && after[p] == rows[p]
  {
    assert OnlyOpenChanges(w.store.payments, ChargeCancelled(w, b).store.payments);
  }

  lemma RivalIsOpen(rows: map<PaymentId, Payment>, rival: Rival, ref: string, key: string)
    requires rival.id !in rows && rival.row.IsOpen() && rival.row.ref != ref && rival.row.key != key
    requires !Store.HasPaymentKey(rows, key)
    ensures var after := rows[rival.id := rival.row];
            && Store.HasOpenPayment(after, rival.row.booking) && !Store.HasPaymentKey(after, key)
            && forall provider :: Store.RefTaken(after, provider, ref) <==> Store.RefTaken(rows, provider, ref)
  {
    var after := rows[rival.id := rival.row];
    assert after[rival.id].IsOpen();
    forall provider | Store.RefTaken(rows, provider, ref) ensures Store.RefTaken(after, provider, ref) {
      var q :| q in rows && rows[q].provider == provider && rows[q].ref == ref;
      assert after[q] == rows[q];
    }
  }

  lemma RivalCloses(before: map<PaymentId, Payment>, rival: Rival, b: BookingId)
    requires Money.OpenPayment(before[rival.id := rival.row], b) == Some(rival.id)
    ensures forall status :: WithClosed(before[rival.id := rival.row], b, status) ==
                             before[rival.id := rival.row.(status := status)]
  {
  }

  /** The open-payment index refuses the charge of the checkout that came second. */
  lemma RivalBlocks(s: Store.State, before: map<PaymentId, Payment>, rival: Rival, p: PaymentId, row: Payment)
    requires Store.OneOpenPayment(s)
    requires rival.id !in before && p !in before && rival.id != p && s.payments == before[rival.id := rival.row]
    requires rival.row.booking == row.booking && row.booking in s.bookings && rival.row.IsOpen() && row.IsOpen()
    requires rival.row.ref != row.ref && rival.row.key != row.key
    requires !Store.HasPaymentKey(before, row.key) && !Store.RefTaken(before, row.provider, row.ref)
    ensures Store.CreatePayment(s, p, row) == Store.Outcome(s, Err(ErrPaymentInProgress))
    ensures Money.OpenPayment(s.payments, row.booking) == Some(rival.id)
  {
    RivalIsOpen(before, rival, row.ref, row.key);
    assert s.payments[rival.id] == rival.row;
    var open := Money.OpenPayment(s.payments, row.booking);
    assert open.Some? && s.payments[open.value].booking == s.payments[rival.id].booking;
  }
}
