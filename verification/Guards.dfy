/** What a transaction would have to check for the money to be safe under any
    interleaving: the exact steps that let a booking be charged twice, and those
    that give up its seats while the money is kept. */
module Guards {
  import opened Domain
  import opened Store
  import opened Steps
  import opened Money
  import Invariant

  // ----------------------------------------------------------- charged twice

  /** The row would stand beside a captured payment of its booking, or be one
      beside an open payment. */
  ghost predicate Clashes(rows: map<PaymentId, Payment>, row: Payment) {
    || (HasCaptured(rows, row.booking) && (row.IsOpen() || row.IsCaptured()))
    || (row.IsCaptured() && HasOpenPayment(rows, row.booking))
  }

  /** An insert that takes effect and clashes: payments.Create looks for open
      payments of the booking and not for captured ones. */
  ghost predicate InsertsBeside(s: State, step: Step) {
    && step.StepCreate?
    && CreatePayment(s, step.payment, step.row).state != s
    && Clashes(s.payments, step.row)
  }

  lemma InsertAlone(rows: map<PaymentId, Payment>, p: PaymentId, row: Payment)
    requires CapturedAlone(rows) && p !in rows
    ensures CapturedAlone(rows[p := row]) <==> !Clashes(rows, row)
  {
    var after := rows[p := row];
    if Clashes(rows, row) {
      var q :| q in rows && rows[q].booking == row.booking
               && ((rows[q].IsCaptured() && (row.IsOpen() || row.IsCaptured())) || (row.IsCaptured() && rows[q].IsOpen()));
      assert after[q] == rows[q] && after[p] == row && p != q;
    }
  }

  /** A payment that leaves its open status was the only open one. */
  lemma UpdateAlone(s: State, p: PaymentId, status: PaymentStatus)
    requires OneOpenPayment(s) && CapturedAlone(s.payments)
    ensures CapturedAlone(UpdatePayment(s, p, status).state.payments)
  {
  }

  lemma EventAlone(s: State, ev: PaymentEvent)
    requires Valid(s) && CapturedAlone(s.payments)
    ensures CapturedAlone(Deliver(s, ev).state.payments)
  {
    var p := ByRef(s.payments, ev.key.provider, ev.ref);
    if ev.key !in s.events && p.Some? {
      var r := Recorded(s, ev.key, p);
      Invariant.ActIsUpdateThenBooking(r, ev, p.value);
      UpdateAlone(r, p.value, PaymentSucceeded);
      UpdateAlone(r, p.value, PaymentFailed);
      UpdateAlone(r, p.value, PaymentCancelled);
      UpdateAlone(r, p.value, PaymentRefunded);
      FollowedKeepsPayments(Invariant.Settled(r, ev.kind, p.value), ev.kind, s.payments[p.value].booking);
    }
  }

  lemma FollowedKeepsPayments(s: State, kind: EventType, b: BookingId)
    ensures Invariant.Followed(s, kind, b).payments == s.payments
  {
  }

  /** A step leaves every captured payment alone if and only if it does not insert
      one beside it. */
  lemma StaysAloneIff(s: State, step: Step)
    requires Valid(s) && CapturedAlone(s.payments)
    ensures CapturedAlone(Apply(s, step).payments) <==> !InsertsBeside(s, step)
  {
    match step
    case StepCreate(p, row) => if CreatePayment(s, p, row).state != s { InsertAlone(s.payments, p, row); }
    case StepUpdate(p, status) => UpdateAlone(s, p, status);
    case StepWebhook(ev) => EventAlone(s, ev);
    case _ => assert Apply(s, step).payments == s.payments;
  }

  ghost predicate AloneThroughout(s: State, steps: seq<Step>)
    decreases |steps|
  {
    CapturedAlone(s.payments) && (steps == [] || AloneThroughout(Apply(s, steps[0]), steps[1..]))
  }

  ghost predicate NoneInsertsBeside(s: State, steps: seq<Step>)
    decreases |steps|
  {
    steps == [] || (!InsertsBeside(s, steps[0]) && NoneInsertsBeside(Apply(s, steps[0]), steps[1..]))
  }

  /** Over any interleaving of any transactions: captured payments stay alone at
      every moment if and only if no insert is made beside one. */
  lemma {:induction false} AloneThroughoutIff(s: State, steps: seq<Step>)
    requires Valid(s) && CapturedAlone(s.payments)
    ensures AloneThroughout(s, steps) <==> NoneInsertsBeside(s, steps)
    decreases |steps|
  {
    if steps != [] {
      StaysAloneIff(s, steps[0]);
      if !InsertsBeside(s, steps[0]) {
        Invariant.StepKeepsValid(s, steps[0]);
        AloneThroughoutIff(Apply(s, steps[0]), steps[1..]);
      } else {
        assert !AloneThroughout(Apply(s, steps[0]), steps[1..]);
      }
    }
  }

  ghost predicate ChargedTwice(s: State, b: BookingId) {
    exists p, q :: p in s.payments && q in s.payments && p != q
                   && s.payments[p].booking == b && s.payments[q].booking == b
                   && s.payments[p].IsCaptured() && s.payments[q].IsCaptured()
  }

  /** So without such an insert no booking is ever charged twice. */
  lemma {:induction false} NeverChargedTwice(s: State, steps: seq<Step>, b: BookingId)
    requires Valid(s) && CapturedAlone(s.payments) && NoneInsertsBeside(s, steps)
    ensures !ChargedTwice(Run(s, steps), b)
    decreases |steps|
  {
    if steps != [] {
      StaysAloneIff(s, steps[0]);
      Invariant.StepKeepsValid(s, steps[0]);
      NeverChargedTwice(Apply(s, steps[0]), steps[1..], b);
    }
  }

  function Success(key: EventKey, ref: string): PaymentEvent { PaymentEvent(key, EventSucceeded, ref) }

  /** The success of an open payment captures it, whatever became of its booking. */
  lemma SuccessCaptures(t: State, p: PaymentId, key: EventKey)
    requires p in t.payments && t.payments[p].IsOpen() && t.payments[p].ref != ""
    requires OnePaymentPerRef(t) && t.payments[p].booking in t.bookings
    requires key.provider == t.payments[p].provider && key !in t.events
    ensures Deliver(t, Success(key, t.payments[p].ref)).state.payments ==
            t.payments[p := t.payments[p].(status := PaymentSucceeded)]
  {
    var ev := Success(key, t.payments[p].ref);
    assert ByRef(t.payments, key.provider, ev.ref) == Some(p) by {
      assert RefTaken(t.payments, key.provider, ev.ref);
    }
    Invariant.ActIsUpdateThenBooking(Recorded(t, key, Some(p)), ev, p);
  }

  lemma SecondCapture(rows: map<PaymentId, Payment>, p: PaymentId, row: Payment)
    requires CapturedAlone(rows) && p !in rows && row.IsOpen()
    ensures var after := rows[p := row.(status := PaymentSucceeded)];
            (exists a, b :: a in after && b in after && a != b && after[a].booking == row.booking
                            && after[b].booking == row.booking && after[a].IsCaptured() && after[b].IsCaptured())
            <==> HasCaptured(rows, row.booking)
  {
    var after := rows[p := row.(status := PaymentSucceeded)];
    if q :| q in rows && rows[q].booking == row.booking && rows[q].IsCaptured() {
      assert after[q] == rows[q] && after[p].IsCaptured() && p != q;
    }
  }

  lemma Inserted(s: State, p: PaymentId, row: Payment)
    requires CreatePayment(s, p, row).state != s
    ensures p !in s.payments && CreatePayment(s, p, row).state == s.(payments := s.payments[p := row])
  {
  }

  lemma InsertedThenCaptured(s: State, p: PaymentId, row: Payment, key: EventKey)
    requires OnePaymentPerRef(s.(payments := s.payments[p := row])) && row.booking in s.bookings
    requires row.IsOpen() && row.ref != ""
    requires key.provider == row.provider && key !in s.events
    ensures Deliver(s.(payments := s.payments[p := row]), Success(key, row.ref)).state.payments ==
            s.payments[p := row.(status := PaymentSucceeded)]
  {
    var t := s.(payments := s.payments[p := row]);
    SuccessCaptures(t, p, key);
    assert t.payments[p := row.(status := PaymentSucceeded)] == s.payments[p := row.(status := PaymentSucceeded)];
  }

  /** The missing guard is exact: once an open payment was inserted, its success
      charges the booking twice if and only if the booking had a captured payment
      at the insert. */
  lemma SuccessChargesTwiceIff(s: State, p: PaymentId, row: Payment, key: EventKey)
    requires Valid(s) && CapturedAlone(s.payments)
    requires CreatePayment(s, p, row).state != s && row.IsOpen() && row.ref != ""
    requires key.provider == row.provider && key !in s.events
    ensures ChargedTwice(Apply(Apply(s, StepCreate(p, row)), StepWebhook(Success(key, row.ref))), row.booking)
            <==> HasCaptured(s.payments, row.booking)
  {
    Inserted(s, p, row);
    InsertedThenCaptured(s, p, row, key) by {
      Invariant.CreateKeepsValid(s, p, row);
    }
    SecondCapture(s.payments, p, row);
  }

  // ------------------------------------------------- seats given up, money kept

  /** The seats are gone and a captured charge was not returned. */
  ghost predicate KeepsMoneyFor(s: State, b: BookingId) {
    b in s.bookings && !s.bookings[b].IsActive() && HasSucceeded(s.payments, b)
  }

  /** The step ends an active booking by name, and a succeeded payment of it is
      left over: Cancel looks at the booking and not at its payments. */
  ghost predicate FreesPaid(s: State, step: Step, b: BookingId) {
    && b in s.bookings && s.bookings[b].IsActive()
    && match step
       case StepCancel(c) => c == b && HasSucceeded(s.payments, b)
       case StepWebhook(ev) =>
         var q := ByRef(s.payments, ev.key.provider, ev.ref);
         && ev.kind.EventRefunded? && ev.key !in s.events && q.Some? && s.payments[q.value].booking == b
         && HasSucceeded(s.payments - {q.value}, b)
       case _ => false
  }

  /** The transactions the service runs: payments start open, and outside a
      delivery they are only cancelled or refunded. */
  predicate IsServiceStep(step: Step) {
    && (step.StepCreate? ==> step.row.IsOpen())
    && (step.StepUpdate? ==> step.status.PaymentCancelled? || step.status.PaymentRefunded?)
  }

  /** A success confirms the hold in its own transaction. */
  ghost predicate PaidIsNotHeld(s: State) {
    forall p | p in s.payments && s.payments[p].status.PaymentSucceeded? && s.payments[p].booking in s.bookings ::
      !s.bookings[s.payments[p].booking].status.BookingHeld?
  }

  lemma SameSucceeded(rows: map<PaymentId, Payment>, after: map<PaymentId, Payment>, b: BookingId)
    requires rows.Keys <= after.Keys
    requires forall p | p in after && after[p].booking == b && after[p].status.PaymentSucceeded? ::
               p in rows && rows[p].booking == b && rows[p].status.PaymentSucceeded?
    requires forall p | p in rows && rows[p].booking == b && rows[p].status.PaymentSucceeded? ::
               after[p].booking == b && after[p].status.PaymentSucceeded?
    ensures HasSucceeded(after, b) <==> HasSucceeded(rows, b)
  {
    if p :| p in rows && rows[p].booking == b && rows[p].status.PaymentSucceeded? {
      assert after[p].status.PaymentSucceeded?;
    }
  }

  /** Only a cancellation by name or a refund event ends a paid booking. */
  lemma EndsPaid(s: State, step: Step, b: BookingId)
    requires PaidIsNotHeld(s) && IsServiceStep(step) && !step.StepWebhook?
    requires b in s.bookings && s.bookings[b].IsActive()
    ensures var t := Apply(s, step); b in t.bookings
    ensures KeepsMoneyFor(Apply(s, step), b) <==> FreesPaid(s, step, b)
  {
    var t := Apply(s, step);
    if !step.StepUpdate? || t == s {
      if !(step.StepCreate? && t != s) {
        assert t.payments == s.payments;
      } else {
        SameSucceeded(s.payments, t.payments, b);
      }
    }
  }

  lemma RefundLeaves(s: State, q: PaymentId, b: BookingId)
    requires q in s.payments
    ensures HasSucceeded(UpdatePayment(s, q, PaymentRefunded).state.payments, b) <==> HasSucceeded(s.payments - {q}, b)
  {
    var rows, after := s.payments, UpdatePayment(s, q, PaymentRefunded).state.payments;
    if p :| p in rows - {q} && (rows - {q})[p].booking == b && (rows - {q})[p].status.PaymentSucceeded? {
      assert after[p] == rows[p];
    }
    if p :| p in after && after[p].booking == b && after[p].status.PaymentSucceeded? {
      assert p != q && (rows - {q})[p] == after[p];
    }
  }

  lemma EventEndsPaid(s: State, ev: PaymentEvent, b: BookingId)
    requires PaymentsValid(s) && b in s.bookings && s.bookings[b].IsActive()
    ensures b in Deliver(s, ev).state.bookings
    ensures KeepsMoneyFor(Deliver(s, ev).state, b) <==> FreesPaid(s, StepWebhook(ev), b)
  {
    var p := ByRef(s.payments, ev.key.provider, ev.ref);
    if ev.key !in s.events && p.Some? {
      var r := Recorded(s, ev.key, p);
      Invariant.ActIsUpdateThenBooking(r, ev, p.value);
      assert Invariant.Settled(r, ev.kind, p.value).bookings == s.bookings;
      FollowedKeepsPayments(Invariant.Settled(r, ev.kind, p.value), ev.kind, s.payments[p.value].booking);
      RefundLeaves(r, p.value, b);
    }
  }

  /** The release half of the question, exactly: a step turns an active booking
      into one without seats whose money is kept if and only if it ends it by name
      while a succeeded payment of it remains. */
  lemma FreesPaidIff(s: State, step: Step, b: BookingId)
    requires Valid(s) && PaidIsNotHeld(s) && IsServiceStep(step)
    requires b in s.bookings && s.bookings[b].IsActive()
    ensures KeepsMoneyFor(Apply(s, step), b) <==> FreesPaid(s, step, b)
  {
    if step.StepWebhook? {
      EventEndsPaid(s, step.event, b);
    } else {
      EndsPaid(s, step, b);
    }
  }

  lemma EventPaidNotHeld(s: State, ev: PaymentEvent)
    requires PaymentsValid(s) && PaidIsNotHeld(s)
    ensures PaidIsNotHeld(Deliver(s, ev).state)
  {
    var p := ByRef(s.payments, ev.key.provider, ev.ref);
    if ev.key !in s.events && p.Some? {
      var r := Recorded(s, ev.key, p);
      Invariant.ActIsUpdateThenBooking(r, ev, p.value);
      assert Invariant.Settled(r, ev.kind, p.value).bookings == s.bookings;
      FollowedKeepsPayments(Invariant.Settled(r, ev.kind, p.value), ev.kind, s.payments[p.value].booking);
    }
  }

  lemma StepPaidNotHeld(s: State, step: Step)
    requires Valid(s) && PaidIsNotHeld(s) && IsServiceStep(step)
    ensures PaidIsNotHeld(Apply(s, step))
  {
    if step.StepWebhook? {
      EventPaidNotHeld(s, step.event);
    }
  }

  /** Some active booking lost its seats between the two and its money is kept. */
  ghost predicate GivesUpPaidSeats(s: State, t: State) {
    exists b :: b in s.bookings && s.bookings[b].IsActive() && KeepsMoneyFor(t, b)
  }

  ghost predicate NeverGivesUpPaidSeats(s: State, steps: seq<Step>)
    decreases |steps|
  {
    steps == [] || (!GivesUpPaidSeats(s, Apply(s, steps[0])) && NeverGivesUpPaidSeats(Apply(s, steps[0]), steps[1..]))
  }

  ghost predicate NoneFreesPaid(s: State, steps: seq<Step>)
    decreases |steps|
  {
    steps == [] || ((forall b :: !FreesPaid(s, steps[0], b)) && NoneFreesPaid(Apply(s, steps[0]), steps[1..]))
  }

  /** Over any interleaving: no step ever frees seats that are paid for and keeps
      the money if and only if none ends a booking by name while a succeeded
      payment of it remains. */
  lemma {:induction false} NeverGivesUpPaidSeatsIff(s: State, steps: seq<Step>)
    requires Valid(s) && PaidIsNotHeld(s) && forall step | step in steps :: IsServiceStep(step)
    ensures NeverGivesUpPaidSeats(s, steps) <==> NoneFreesPaid(s, steps)
    decreases |steps|
  {
    if steps != [] {
      var t := Apply(s, steps[0]);
      forall b | b in s.bookings && s.bookings[b].IsActive()
        ensures KeepsMoneyFor(t, b) <==> FreesPaid(s, steps[0], b)
      {
        FreesPaidIff(s, steps[0], b);
      }
      Invariant.StepKeepsValid(s, steps[0]);
      StepPaidNotHeld(s, steps[0]);
      NeverGivesUpPaidSeatsIff(t, steps[1..]);
    }
  }
}
