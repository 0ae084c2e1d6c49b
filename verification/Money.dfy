/** Checkout, webhooks and cancellation as the sequences of transactions and
    gateway calls they are. Calls on different bookings interleave freely, and so
    do sweeps, other users' holds and the clock; a booking is in at most one call
    at a time. */
module Money {
  import opened Domain
  import opened Store
  import opened Steps

  datatype Charge = Charge(provider: string, ref: string)

  /** The gateway gives one verdict per charge. */
  datatype Verdict = Captured | Declined | Voided

  /** Where the call in progress on a booking stands. */
  datatype Phase =
      // StartCheckout: the checks passed; the hold is extended next
    | Extending
      // the hold is extended; the intent and the payment row come next
    | Charging
      // CancelBooking: the checks passed; an open payment is cancelled next
    | CancellingCharge
      // a captured payment is refunded next
    | Refunding
      // the seats are released next
    | Releasing
      // HandleWebhook committed a late success; its refund comes next
    | RefundingOrphan(payment: PaymentId)

  /** A refund request to the gateway and its answer. */
  datatype RefundCall = RefundCall(payment: PaymentId, ref: string, amount: nat, orphan: bool, accepted: bool)

  datatype Setup = Setup(provider: string, window: int, cutoff: int, startsAt: map<ShowtimeId, Time>)

  datatype World = World(
    setup: Setup,
    store: State,
    calls: map<BookingId, Phase>,
    refunds: seq<RefundCall>,
    verdicts: map<Charge, Verdict>)

  datatype Action =
      // a hold, a sweep or the clock
    | Background(step: Step)
    | Decide(charge: Charge, verdict: Verdict)
    | Release(booking: BookingId, user: UserId)
    | BeginCheckout(booking: BookingId, user: UserId)
    | ExtendForCheckout(booking: BookingId)
      // None: the gateway refused the intent
    | CreateCharge(booking: BookingId, intent: Option<string>, payment: PaymentId, key: string)
    | Webhook(event: PaymentEvent)
    | RefundOrphan(booking: BookingId, accepted: bool)
    | BeginCancel(booking: BookingId, user: UserId)
    | CancelCharge(booking: BookingId)
    | RefundCharge(booking: BookingId, accepted: bool)
    | ReleaseSeats(booking: BookingId)

  ghost function OpenPayment(rows: map<PaymentId, Payment>, b: BookingId): (p: Option<PaymentId>)
    ensures p.Some? <==> HasOpenPayment(rows, b)
    ensures p.Some? ==> p.value in rows && rows[p.value].booking == b && rows[p.value].IsOpen()
  {
    if HasOpenPayment(rows, b) then
      var p :| p in rows && rows[p].booking == b && rows[p].IsOpen();
      Some(p)
    else None
  }

  predicate HasSucceeded(rows: map<PaymentId, Payment>, b: BookingId) {
    exists p :: p in rows && rows[p].booking == b && rows[p].status.PaymentSucceeded?
  }

  ghost function SucceededPayment(rows: map<PaymentId, Payment>, b: BookingId): (p: Option<PaymentId>)
    ensures p.Some? <==> HasSucceeded(rows, b)
    ensures p.Some? ==> p.value in rows && rows[p.value].booking == b && rows[p.value].status.PaymentSucceeded?
  {
    if HasSucceeded(rows, b) then
      var p :| p in rows && rows[p].booking == b && rows[p].status.PaymentSucceeded?;
      Some(p)
    else None
  }

  predicate TooLate(w: World, b: Booking) {
    && b.status.BookingConfirmed? && b.showtime in w.setup.startsAt
    && w.setup.startsAt[b.showtime] < w.store.now + w.setup.cutoff
  }

  function AsksRefund(w: World, p: PaymentId, orphan: bool, accepted: bool): RefundCall
    requires p in w.store.payments
  {
    RefundCall(p, w.store.payments[p].ref, w.store.payments[p].amount, orphan, accepted)
  }

  predicate Agrees(w: World, ev: PaymentEvent) {
    var charge := Charge(ev.key.provider, ev.ref);
    match ev.kind
    case EventSucceeded => charge in w.verdicts && w.verdicts[charge].Captured?
    case EventRefunded => charge in w.verdicts && w.verdicts[charge].Captured?
    case EventFailed => charge in w.verdicts && w.verdicts[charge].Declined?
    case EventCancelled => charge in w.verdicts && w.verdicts[charge].Voided?
    case EventOther => true
  }

  // ---------------------------------------------------------------- one action

  function Hangs(w: World, b: BookingId, phase: Phase): World { w.(calls := w.calls[b := phase]) }

  function Ends(w: World, b: BookingId): World { w.(calls := w.calls - {b}) }

  predicate InPhase(w: World, b: BookingId, phase: Phase) {
    b in w.calls && w.calls[b] == phase && b in w.store.bookings
  }

  predicate Idle(w: World, b: BookingId, user: UserId) {
    b !in w.calls && b in w.store.bookings && w.store.bookings[b].user == user
  }

  ghost function Perform(w: World, a: Action): World {
    match a
    case Background(step) =>
      if step.StepHold? || step.StepSweep? || step.StepTick? then w.(store := Apply(w.store, step)) else w
    case Decide(charge, verdict) =>
      if charge in w.verdicts then w else w.(verdicts := w.verdicts[charge := verdict])
    case Release(b, user) =>
      if !Idle(w, b, user) || !w.store.bookings[b].status.BookingHeld? then w
      else w.(store := Cancel(w.store, b, BookingCancelled).state)
    case BeginCheckout(b, user) =>
      if !Idle(w, b, user) || !w.store.bookings[b].status.BookingHeld?
         || w.store.bookings[b].HoldLapsed(w.store.now) || HasOpenPayment(w.store.payments, b) then w
      else Hangs(w, b, Extending)
    case ExtendForCheckout(b) =>
      if !InPhase(w, b, Extending) then w
      else
        var o := ExtendHold(w.store, b, w.store.now + w.setup.window);
        if o.result.Ok? then Hangs(w.(store := o.state), b, Charging) else Ends(w, b)
    case CreateCharge(b, intent, p, key) =>
      if !InPhase(w, b, Charging) then w
      else if intent.None? then Ends(w, b)
      else if intent.value == "" || RefTaken(w.store.payments, w.setup.provider, intent.value)
              || HasPaymentKey(w.store.payments, key) then w
      else
        var row := Payment(b, w.setup.provider, intent.value, PaymentPending, w.store.bookings[b].total, key);
        Ends(w.(store := CreatePayment(w.store, p, row).state), b)
    case Webhook(ev) =>
      var p := ByRef(w.store.payments, ev.key.provider, ev.ref);
      if !Agrees(w, ev) || (p.Some? && w.store.payments[p.value].booking in w.calls) then w
      else
        var o := Deliver(w.store, ev);
        if o.result.Ok? && o.result.value.Some? && o.result.value.value in w.store.payments then
          Hangs(w.(store := o.state), w.store.payments[o.result.value.value].booking, RefundingOrphan(o.result.value.value))
        else w.(store := o.state)
    case RefundOrphan(b, accepted) =>
      if b !in w.calls || !w.calls[b].RefundingOrphan? || w.calls[b].payment !in w.store.payments then w
      else
        var p := w.calls[b].payment;
        Ends(w.(refunds := w.refunds + [AsksRefund(w, p, true, accepted)],
                store := if accepted then UpdatePayment(w.store, p, PaymentRefunded).state else w.store), b)
    case BeginCancel(b, user) =>
      if !Idle(w, b, user) || !w.store.bookings[b].IsActive() || TooLate(w, w.store.bookings[b]) then w
      else Hangs(w, b, CancellingCharge)
    case CancelCharge(b) =>
      if !InPhase(w, b, CancellingCharge) then w
      else
        var p := OpenPayment(w.store.payments, b);
        Hangs(if p.Some? then w.(store := UpdatePayment(w.store, p.value, PaymentCancelled).state) else w, b, Refunding)
    case RefundCharge(b, accepted) =>
      if !InPhase(w, b, Refunding) then w
      else
        var p := SucceededPayment(w.store.payments, b);
        if p.None? then Hangs(w, b, Releasing)
        else
          var asked := w.(refunds := w.refunds + [AsksRefund(w, p.value, false, accepted)]);
          if accepted then
            Hangs(asked.(store := UpdatePayment(w.store, p.value, PaymentRefunded).state), b, Releasing)
          else Ends(asked, b)
    case ReleaseSeats(b) =>
      if !InPhase(w, b, Releasing) then w
      else Ends(w.(store := Cancel(w.store, b, BookingCancelled).state), b)
  }

  ghost function Play(w: World, actions: seq<Action>): World
    decreases |actions|
  {
    if actions == [] then w else Play(Perform(w, actions[0]), actions[1..])
  }

  function Opening(setup: Setup): World { World(setup, EmptyState, map[], [], map[]) }

  // ----------------------------------------------------------------- invariant

  function PhaseOf(w: World, b: BookingId): Option<Phase> {
    if b in w.calls then Some(w.calls[b]) else None
  }

  function VerdictOn(w: World, row: Payment): Option<Verdict> {
    var charge := Charge(row.provider, row.ref);
    if charge in w.verdicts then Some(w.verdicts[charge]) else None
  }

  /** The automatic refund of this payment was refused at least once. */
  ghost predicate OrphanRefused(refunds: seq<RefundCall>, p: PaymentId) {
    exists i :: 0 <= i < |refunds| && refunds[i].payment == p && refunds[i].orphan && !refunds[i].accepted
  }

  /** How a payment, its booking, the call in progress and the gateway's verdict
      must fit together. */
  predicate Fits(p: PaymentId, row: Payment, b: Booking, phase: Option<Phase>, verdict: Option<Verdict>, refused: bool) {
    && row.amount == b.total
    && (row.IsCaptured() ==> !b.status.BookingHeld? && phase != Some(Extending) && phase != Some(Charging))
    && (row.IsCaptured() && phase in {Some(CancellingCharge), Some(Refunding)} ==> b.status.BookingConfirmed?)
    && (row.status.PaymentRefunded? ==> !b.IsActive() || phase == Some(Releasing))
    && (row.status.PaymentSucceeded? ==>
          phase != Some(Releasing) && (b.IsActive() || phase == Some(RefundingOrphan(p)) || refused))
    && (row.status.PaymentCancelled? && verdict != Some(Voided) ==>
          !b.IsActive() || (b.status.BookingHeld? && phase in {Some(Refunding), Some(Releasing)}))
    && (row.status.PaymentFailed? ==> verdict == Some(Declined))
  }

  ghost predicate PaymentFits(w: World, p: PaymentId)
    requires p in w.store.payments && w.store.payments[p].booking in w.store.bookings
  {
    var row := w.store.payments[p];
    Fits(p, row, w.store.bookings[row.booking], PhaseOf(w, row.booking), VerdictOn(w, row), OrphanRefused(w.refunds, p))
  }

  ghost predicate AllFit(w: World) {
    forall p | p in w.store.payments ::
      w.store.payments[p].booking in w.store.bookings && PaymentFits(w, p)
  }

  /** A captured payment is alone: no other captured and no open one. */
  ghost predicate CapturedAlone(rows: map<PaymentId, Payment>) {
    forall p, q | p in rows && q in rows && p != q && rows[p].booking == rows[q].booking && rows[p].IsCaptured() ::
      !rows[q].IsCaptured() && !rows[q].IsOpen()
  }

  ghost predicate HasCaptured(rows: map<PaymentId, Payment>, b: BookingId) {
    exists p :: p in rows && rows[p].booking == b && rows[p].IsCaptured()
  }

  ghost predicate BookingFits(w: World, b: BookingId)
    requires b in w.store.bookings
  {
    var row, phase := w.store.bookings[b], PhaseOf(w, b);
    && (row.status.BookingConfirmed? ==>
          HasCaptured(w.store.payments, b) && phase != Some(Extending) && phase != Some(Charging))
    && (phase.Some? && phase.value.RefundingOrphan? ==>
          var p := phase.value.payment;
          p in w.store.payments && w.store.payments[p].booking == b && w.store.payments[p].status.PaymentSucceeded?
          && !row.IsActive())
  }

  /** Refund requests are for the payment's own reference and amount, an accepted
      one marked its payment refunded, and none was accepted twice. */
  ghost predicate RefundsFit(s: State, refunds: seq<RefundCall>) {
    && (forall i | 0 <= i < |refunds| ::
          var c := refunds[i];
          && c.payment in s.payments
          && c.ref == s.payments[c.payment].ref && c.amount == s.payments[c.payment].amount
          && (c.accepted ==> s.payments[c.payment].status.PaymentRefunded?)
          && (c.orphan ==> s.payments[c.payment].booking in s.bookings
                           && !s.bookings[s.payments[c.payment].booking].IsActive()))
    && (forall i, j | 0 <= i < j < |refunds| && refunds[i].accepted && refunds[j].accepted ::
          refunds[i].payment != refunds[j].payment)
  }

  ghost predicate Sound(w: World) {
    && Valid(w.store)
    && w.calls.Keys <= w.store.bookings.Keys
    && AllFit(w)
    && CapturedAlone(w.store.payments)
    && (forall b | b in w.store.bookings :: BookingFits(w, b))
    && RefundsFit(w.store, w.refunds)
  }
}
