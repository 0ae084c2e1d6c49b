/** Every committed transaction as one atomic step, and runs of steps in any
    order. A step whose guard fails leaves the tables alone. */
module Steps {
  import opened Domain
  import opened Store

  datatype Step =
    | StepHold(req: NewBooking, id: BookingId)
      // SKIP LOCKED: any set of due bookings may be swept.
    | StepSweep(ids: set<BookingId>)
    | StepConfirm(booking: BookingId)
      // Every caller passes 'cancelled'.
    | StepCancel(booking: BookingId)
    | StepExtend(booking: BookingId, until: Time)
    | StepCreate(payment: PaymentId, row: Payment)
    | StepUpdate(payment: PaymentId, status: PaymentStatus)
    | StepWebhook(event: PaymentEvent)
    | StepTick(to: Time)
  {
    predicate IsBookingStep() {
      StepHold? || StepSweep? || StepConfirm? || StepCancel? || StepExtend?
    }
  }

  function Sweep(s: State, ids: set<BookingId>): State {
    if ids <= Due(s) then Close(s, ids, BookingExpired) else s
  }

  function Tick(s: State, to: Time): State {
    if s.now <= to then s.(now := to) else s
  }

  ghost function Apply(s: State, step: Step): State {
    match step
    case StepHold(req, id) => Hold(s, req, id)
    case StepSweep(ids) => Sweep(s, ids)
    case StepConfirm(b) => Confirm(s, b).state
    case StepCancel(b) => Cancel(s, b, BookingCancelled).state
    case StepExtend(b, until) => ExtendHold(s, b, until).state
    case StepCreate(p, row) => CreatePayment(s, p, row).state
    case StepUpdate(p, status) => UpdatePayment(s, p, status).state
    case StepWebhook(ev) => Deliver(s, ev).state
    case StepTick(to) => Tick(s, to)
  }

  ghost function Run(s: State, steps: seq<Step>): State
    decreases |steps|
  {
    if steps == [] then s else Run(Apply(s, steps[0]), steps[1..])
  }

  lemma {:induction false} RunConcat(s: State, a: seq<Step>, b: seq<Step>)
    ensures Run(s, a + b) == Run(Run(s, a), b)
    decreases |a|
  {
    if a == [] {
      assert a + b == b;
    } else {
      assert (a + b)[1..] == a[1..] + b;
      RunConcat(Apply(s, a[0]), a[1..], b);
    }
  }
}
