/** Calls that overlap without restraint, on one booking or on several: each call
    is a program whose moves are one read, one transaction or one request to the
    gateway, guarded by nothing but the checks of the code. */
module Concurrent {
  import opened Domain
  import opened Store
  import opened Steps
  import opened Money
  import Histories
  import Invariant

  /** What a call does next, with the values it read before. */
  datatype Pc =
      // StartCheckout
    | CheckoutReads(booking: BookingId, user: UserId)
    | CheckoutLooksUp(booking: BookingId, amount: nat)
    | CheckoutExtends(booking: BookingId, amount: nat)
    | CheckoutAsks(booking: BookingId, amount: nat)
    | CheckoutInserts(booking: BookingId, amount: nat, ref: string)
    | CheckoutResumes(booking: BookingId)
      // CancelBooking
    | CancelReads(booking: BookingId, user: UserId)
    | CancelLooksUp(booking: BookingId)
    | CancelSettles(booking: BookingId, payment: PaymentId)
    | CancelFinds(booking: BookingId)
    | CancelRefunds(booking: BookingId, payment: PaymentId, ref: string, amount: nat)
    | CancelRecords(booking: BookingId, payment: PaymentId)
    | CancelReleases(booking: BookingId)
      // Release
    | ReleaseReads(booking: BookingId, user: UserId)
    | ReleaseCancels(booking: BookingId)
      // HandleWebhook
    | WebhookRuns(event: PaymentEvent)
    | WebhookRefunds(payment: PaymentId, ref: string, amount: nat)
    | WebhookRecords(payment: PaymentId)
    | Done(error: Option<Error>)

  predicate IsEntry(pc: Pc) {
    pc.CheckoutReads? || pc.CancelReads? || pc.ReleaseReads? || pc.WebhookRuns?
  }

  /** What the gateway answers, and the new id and key an insert would use. */
  datatype Input = Input(ref: Option<string>, accepted: bool, payment: PaymentId, key: string)

  datatype System = System(setup: Setup, store: State, calls: map<nat, Pc>, refunds: seq<RefundCall>)

  /** At most one transaction, at most one refund request, and what comes next. */
  datatype Effect = Effect(step: Option<Step>, ask: Option<RefundCall>, pc: Pc)

  function Then(pc: Pc): Effect { Effect(None, None, pc) }

  function Fails(e: Error): Effect { Then(Done(Some(e))) }

  function ErrorOf<T>(r: Result<T>): Option<Error> {
    match r
    case Ok(_) => None
    case Err(e) => Some(e)
  }

  // ------------------------------------------------------------------- moves

  ghost function CheckoutMove(w: System, pc: Pc, i: Input): Effect {
    var s := w.store;
    match pc
    case CheckoutReads(b, user) =>
      if b !in s.bookings || s.bookings[b].user != user then Fails(ErrBookingNotFound)
      else if !s.bookings[b].status.BookingHeld? then Fails(ErrBookingState)
      else if s.bookings[b].HoldLapsed(s.now) then Fails(ErrBookingExpired)
      else Then(CheckoutLooksUp(b, s.bookings[b].total))
    case CheckoutLooksUp(b, amount) =>
      if HasOpenPayment(s.payments, b) then Then(Done(None)) else Then(CheckoutExtends(b, amount))
    case CheckoutExtends(b, amount) =>
      var until := s.now + w.setup.window;
      var r := ExtendHold(s, b, until).result;
      Effect(Some(StepExtend(b, until)), None, if r.Ok? then CheckoutAsks(b, amount) else Done(ErrorOf(r)))
    case CheckoutAsks(b, amount) =>
      (match i.ref
       case None => Fails(ErrProviderUnavailable)
       case Some(ref) => Then(CheckoutInserts(b, amount, ref)))
    case CheckoutInserts(b, amount, ref) =>
      var row := Payment(b, w.setup.provider, ref, PaymentPending, amount, i.key);
      var r := CreatePayment(s, i.payment, row).result;
      Effect(Some(StepCreate(i.payment, row)), None,
             if r == Err(ErrPaymentInProgress) then CheckoutResumes(b) else Done(ErrorOf(r)))
    case CheckoutResumes(b) =>
      if HasOpenPayment(s.payments, b) then Then(Done(None)) else Fails(ErrPaymentInProgress)
    case _ => Then(pc)
  }

  predicate TooLateFor(w: System, b: Booking) {
    && b.status.BookingConfirmed? && b.showtime in w.setup.startsAt
    && w.setup.startsAt[b.showtime] < w.store.now + w.setup.cutoff
  }

  ghost function CancelMove(w: System, pc: Pc, i: Input): Effect {
    var s := w.store;
    match pc
    case CancelReads(b, user) =>
      if b !in s.bookings || s.bookings[b].user != user then Fails(ErrBookingNotFound)
      else if !s.bookings[b].IsActive() || TooLateFor(w, s.bookings[b]) then Fails(ErrBookingState)
      else Then(CancelLooksUp(b))
    case CancelLooksUp(b) =>
      (match OpenPayment(s.payments, b)
       case Some(p) => Then(CancelSettles(b, p))
       case None => Then(CancelFinds(b)))
    case CancelSettles(b, p) => Effect(Some(StepUpdate(p, PaymentCancelled)), None, CancelFinds(b))
    case CancelFinds(b) =>
      (match SucceededPayment(s.payments, b)
       case Some(p) => Then(CancelRefunds(b, p, s.payments[p].ref, s.payments[p].amount))
       case None => Then(CancelReleases(b)))
    case CancelRefunds(b, p, ref, amount) =>
      Effect(None, Some(RefundCall(p, ref, amount, false, i.accepted)),
             if i.accepted then CancelRecords(b, p) else Done(Some(ErrProviderUnavailable)))
    case CancelRecords(b, p) => Effect(Some(StepUpdate(p, PaymentRefunded)), None, CancelReleases(b))
    case CancelReleases(b) =>
      Effect(Some(StepCancel(b)), None, Done(ErrorOf(Cancel(s, b, BookingCancelled).result)))
    case _ => Then(pc)
  }

  ghost function ReleaseMove(w: System, pc: Pc): Effect {
    var s := w.store;
    match pc
    case ReleaseReads(b, user) =>
      if b !in s.bookings || s.bookings[b].user != user then Fails(ErrBookingNotFound)
      else if !s.bookings[b].status.BookingHeld? then Fails(ErrBookingState)
      else Then(ReleaseCancels(b))
    case ReleaseCancels(b) =>
      Effect(Some(StepCancel(b)), None, Done(ErrorOf(Cancel(s, b, BookingCancelled).result)))
    case _ => Then(pc)
  }

  ghost function WebhookMove(w: System, pc: Pc, i: Input): Effect {
    var s := w.store;
    match pc
    case WebhookRuns(ev) =>
      var r := Deliver(s, ev).result;
      Effect(Some(StepWebhook(ev)), None,
             if r.Ok? && r.value.Some? && r.value.value in s.payments
             then WebhookRefunds(r.value.value, s.payments[r.value.value].ref, s.payments[r.value.value].amount)
             else Done(ErrorOf(r)))
    case WebhookRefunds(p, ref, amount) =>
      Effect(None, Some(RefundCall(p, ref, amount, true, i.accepted)), if i.accepted then WebhookRecords(p) else Done(None))
    case WebhookRecords(p) => Effect(Some(StepUpdate(p, PaymentRefunded)), None, Done(None))
    case _ => Then(pc)
  }

  ghost function Acts(w: System, pc: Pc, i: Input): Effect {
    match pc
    case CheckoutReads(_, _) => CheckoutMove(w, pc, i)
    case CheckoutLooksUp(_, _) => CheckoutMove(w, pc, i)
    case CheckoutExtends(_, _) => CheckoutMove(w, pc, i)
    case CheckoutAsks(_, _) => CheckoutMove(w, pc, i)
    case CheckoutInserts(_, _, _) => CheckoutMove(w, pc, i)
    case CheckoutResumes(_) => CheckoutMove(w, pc, i)
    case ReleaseReads(_, _) => ReleaseMove(w, pc)
    case ReleaseCancels(_) => ReleaseMove(w, pc)
    case WebhookRuns(_) => WebhookMove(w, pc, i)
    case WebhookRefunds(_, _, _) => WebhookMove(w, pc, i)
    case WebhookRecords(_) => WebhookMove(w, pc, i)
    case Done(_) => Then(pc)
    case _ => CancelMove(w, pc, i)
  }

  datatype Move =
      // a hold, a sweep or the clock
    | Background(step: Step)
    | Begin(call: nat, pc: Pc)
    | Go(call: nat, input: Input)

  ghost function Performed(w: System, c: nat, e: Effect): System {
    System(w.setup,
           if e.step.Some? then Apply(w.store, e.step.value) else w.store,
           w.calls[c := e.pc],
           if e.ask.Some? then w.refunds + [e.ask.value] else w.refunds)
  }

  ghost function Next(w: System, m: Move): System {
    match m
    case Background(step) =>
      if step.StepHold? || step.StepSweep? || step.StepTick? then w.(store := Apply(w.store, step)) else w
    case Begin(c, pc) => if c in w.calls || !IsEntry(pc) then w else w.(calls := w.calls[c := pc])
    case Go(c, i) => if c in w.calls then Performed(w, c, Acts(w, w.calls[c], i)) else w
  }

  ghost function Play(w: System, moves: seq<Move>): System
    decreases |moves|
  {
    if moves == [] then w else Play(Next(w, moves[0]), moves[1..])
  }

  lemma {:induction false} PlayConcat(w: System, a: seq<Move>, b: seq<Move>)
    ensures Play(w, a + b) == Play(Play(w, a), b)
    decreases |a|
  {
    if a == [] {
      assert a + b == b;
    } else {
      assert (a + b)[1..] == a[1..] + b;
      PlayConcat(Next(w, a[0]), a[1..], b);
    }
  }

  // ------------------------------------------------------ moves are transactions

  /** The transaction of a move. */
  ghost function StepOf(w: System, m: Move): Option<Step> {
    match m
    case Background(step) => if step.StepHold? || step.StepSweep? || step.StepTick? then Some(step) else None
    case Begin(_, _) => None
    case Go(c, i) => if c in w.calls then Acts(w, w.calls[c], i).step else None
  }

  ghost function StepsOf(w: System, moves: seq<Move>): seq<Step>
    decreases |moves|
  {
    if moves == [] then []
    else
      (match StepOf(w, moves[0]) { case Some(step) => [step] case None => [] })
      + StepsOf(Next(w, moves[0]), moves[1..])
  }

  /** Whatever holds of all interleavings of transactions holds of all
      interleavings of calls. */
  lemma {:induction false} PlayIsRun(w: System, moves: seq<Move>)
    ensures Play(w, moves).store == Run(w.store, StepsOf(w, moves))
    decreases |moves|
  {
    if moves != [] {
      var t := Next(w, moves[0]);
      PlayIsRun(t, moves[1..]);
      match StepOf(w, moves[0]) {
        case Some(step) =>
          assert ([step] + StepsOf(t, moves[1..]))[1..] == StepsOf(t, moves[1..]);
        case None =>
          assert [] + StepsOf(t, moves[1..]) == StepsOf(t, moves[1..]);
      }
    }
  }

  lemma NextEvolves(w: System, m: Move)
    requires Valid(w.store)
    ensures Valid(Next(w, m).store) && Histories.Evolves(w.store, Next(w, m).store)
  {
    Histories.EvolvesReflexive(w.store);
    if step :| StepOf(w, m) == Some(step) {
      assert Next(w, m).store == Apply(w.store, step);
      Invariant.StepKeepsValid(w.store, step);
      Histories.StepEvolves(w.store, step);
    } else {
      assert Next(w, m).store == w.store;
    }
  }
}
