/** A success that overtakes the insert of its payment row: the gateway may report
    it between CreateIntent and payments.Create. The event is then recorded
    without a payment, its redeliveries count as duplicates, and nothing ever
    captures the row. */
module LateRows {
  import opened Domain
  import opened Store
  import opened Steps
  import Guards
  import Histories
  import Invariant

  predicate IsFor(row: Payment, provider: string, ref: string) {
    row.provider == provider && row.ref == ref
  }

  ghost predicate OpenFor(rows: map<PaymentId, Payment>, provider: string, ref: string) {
    exists p :: p in rows && IsFor(rows[p], provider, ref) && rows[p].IsOpen()
  }

  ghost predicate CapturedFor(rows: map<PaymentId, Payment>, provider: string, ref: string) {
    exists p :: p in rows && IsFor(rows[p], provider, ref) && rows[p].IsCaptured()
  }

  /** The row ended without success. */
  ghost predicate ClosedFor(rows: map<PaymentId, Payment>, provider: string, ref: string) {
    exists p :: p in rows && IsFor(rows[p], provider, ref) && !rows[p].IsOpen() && !rows[p].IsCaptured()
  }

  /** What the gateway says about the charge is this one event, as often as it
      likes; nobody else settles the row, and it is not inserted as captured. */
  ghost predicate OnlyRedelivers(s: State, step: Step, ev: PaymentEvent) {
    match step
    case StepWebhook(e) => e.key.provider == ev.key.provider && e.ref == ev.ref ==> e == ev
    case StepUpdate(p, status) =>
      p in s.payments && IsFor(s.payments[p], ev.key.provider, ev.ref) ==>
        !status.PaymentSucceeded? && !status.PaymentRefunded?
    case StepCreate(_, row) => IsFor(row, ev.key.provider, ev.ref) ==> !row.IsCaptured()
    case _ => true
  }

  ghost predicate AllOnlyRedeliver(s: State, steps: seq<Step>, ev: PaymentEvent)
    decreases |steps|
  {
    steps == [] || (OnlyRedelivers(s, steps[0], ev) && AllOnlyRedeliver(Apply(s, steps[0]), steps[1..], ev))
  }

  /** The event can no longer capture anything. */
  ghost predicate Spent(s: State, ev: PaymentEvent) {
    && !CapturedFor(s.payments, ev.key.provider, ev.ref)
    && (ev.key in s.events || ClosedFor(s.payments, ev.key.provider, ev.ref))
  }

  lemma CapturedStays(s: State, t: State, provider: string, ref: string)
    requires Histories.Evolves(s, t) && CapturedFor(s.payments, provider, ref)
    ensures CapturedFor(t.payments, provider, ref)
  {
    var p :| p in s.payments && IsFor(s.payments[p], provider, ref) && s.payments[p].IsCaptured();
    assert t.payments[p].IsCaptured() && IsFor(t.payments[p], provider, ref);
  }

  lemma ClosedStays(s: State, t: State, provider: string, ref: string)
    requires Histories.Evolves(s, t) && ClosedFor(s.payments, provider, ref)
    ensures ClosedFor(t.payments, provider, ref)
  {
    var p :| p in s.payments && IsFor(s.payments[p], provider, ref) && !s.payments[p].IsOpen() && !s.payments[p].IsCaptured();
    assert t.payments[p] == s.payments[p];
  }

  /** An event only changes the row it names. */
  lemma OtherRowsStay(s: State, e: PaymentEvent, p: PaymentId)
    requires PaymentsValid(s) && p in s.payments && !IsFor(s.payments[p], e.key.provider, e.ref)
    ensures var t := Deliver(s, e).state; p in t.payments && t.payments[p] == s.payments[p]
  {
    var q := ByRef(s.payments, e.key.provider, e.ref);
    if e.key !in s.events && q.Some? {
      var r := Recorded(s, e.key, q);
      Invariant.ActIsUpdateThenBooking(r, e, q.value);
      Guards.FollowedKeepsPayments(Invariant.Settled(r, e.kind, q.value), e.kind, s.payments[q.value].booking);
    }
  }

  lemma SameRows(s: State, e: PaymentEvent)
    requires PaymentsValid(s)
    ensures Deliver(s, e).state.payments.Keys == s.payments.Keys
  {
    var q := ByRef(s.payments, e.key.provider, e.ref);
    if e.key !in s.events && q.Some? {
      var r := Recorded(s, e.key, q);
      Invariant.ActIsUpdateThenBooking(r, e, q.value);
      Guards.FollowedKeepsPayments(Invariant.Settled(r, e.kind, q.value), e.kind, s.payments[q.value].booking);
    }
  }

  lemma EventAboutAnother(s: State, e: PaymentEvent, provider: string, ref: string)
    requires PaymentsValid(s) && !CapturedFor(s.payments, provider, ref)
    requires !(e.key.provider == provider && e.ref == ref)
    ensures !CapturedFor(Deliver(s, e).state.payments, provider, ref)
  {
    var t := Deliver(s, e).state;
    SameRows(s, e);
    forall p | p in t.payments && IsFor(t.payments[p], provider, ref) ensures !t.payments[p].IsCaptured() {
      Histories.DeliverEvolves(s, e);
      assert IsFor(s.payments[p], provider, ref);
      OtherRowsStay(s, e, p);
    }
  }

  /** The event delivered where it finds no open row. */
  lemma DeliveredInVain(s: State, ev: PaymentEvent)
    requires PaymentsValid(s) && ev.kind.EventSucceeded? && ev.ref != ""
    requires !CapturedFor(s.payments, ev.key.provider, ev.ref)
    requires ev.key in s.events || !OpenFor(s.payments, ev.key.provider, ev.ref)
    ensures Deliver(s, ev).state.payments == s.payments
    ensures ev.key in Deliver(s, ev).state.events || ClosedFor(s.payments, ev.key.provider, ev.ref)
  {
    var q := ByRef(s.payments, ev.key.provider, ev.ref);
    if ev.key !in s.events && q.Some? {
      assert !s.payments[q.value].IsOpen() && !s.payments[q.value].IsCaptured();
      Invariant.ActIsUpdateThenBooking(Recorded(s, ev.key, q), ev, q.value);
    }
  }

  lemma ClosedIsNotOpen(s: State, provider: string, ref: string)
    requires OnePaymentPerRef(s) && ref != "" && ClosedFor(s.payments, provider, ref)
    ensures !OpenFor(s.payments, provider, ref)
  {
    var p :| p in s.payments && IsFor(s.payments[p], provider, ref) && !s.payments[p].IsOpen() && !s.payments[p].IsCaptured();
    forall q | q in s.payments && IsFor(s.payments[q], provider, ref) ensures q == p {}
  }

  lemma NotCapturedByInsertOrUpdate(s: State, step: Step, ev: PaymentEvent)
    requires !CapturedFor(s.payments, ev.key.provider, ev.ref) && OnlyRedelivers(s, step, ev)
    requires step.StepCreate? || step.StepUpdate?
    ensures !CapturedFor(Apply(s, step).payments, ev.key.provider, ev.ref)
  {
  }

  lemma NotCapturedBy(s: State, step: Step, ev: PaymentEvent)
    requires PaymentsValid(s) && ev.kind.EventSucceeded? && ev.ref != "" && Spent(s, ev) && OnlyRedelivers(s, step, ev)
    ensures !CapturedFor(Apply(s, step).payments, ev.key.provider, ev.ref)
  {
    if step.StepCreate? || step.StepUpdate? {
      NotCapturedByInsertOrUpdate(s, step, ev);
    } else if !step.StepWebhook? {
      assert Apply(s, step).payments == s.payments;
    } else if step.event != ev {
      EventAboutAnother(s, step.event, ev.key.provider, ev.ref);
    } else {
      if ev.key !in s.events {
        ClosedIsNotOpen(s, ev.key.provider, ev.ref);
      }
      DeliveredInVain(s, ev);
    }
  }

  lemma StaysSpent(s: State, step: Step, ev: PaymentEvent)
    requires Valid(s) && ev.kind.EventSucceeded? && ev.ref != "" && Spent(s, ev) && OnlyRedelivers(s, step, ev)
    ensures Spent(Apply(s, step), ev)
  {
    NotCapturedBy(s, step, ev);
    Histories.StepEvolves(s, step);
    if ev.key !in s.events {
      ClosedStays(s, Apply(s, step), ev.key.provider, ev.ref);
    }
  }

  lemma {:induction false} SpentForGood(s: State, steps: seq<Step>, ev: PaymentEvent)
    requires Valid(s) && ev.kind.EventSucceeded? && ev.ref != "" && Spent(s, ev) && AllOnlyRedeliver(s, steps, ev)
    ensures !CapturedFor(Run(s, steps).payments, ev.key.provider, ev.ref)
    decreases |steps|
  {
    if steps != [] {
      StaysSpent(s, steps[0], ev);
      Invariant.StepKeepsValid(s, steps[0]);
      SpentForGood(Apply(s, steps[0]), steps[1..], ev);
    }
  }

  lemma CapturedAtOnce(s: State, ev: PaymentEvent)
    requires Valid(s) && ev.kind.EventSucceeded? && ev.ref != "" && ev.key !in s.events
    requires OpenFor(s.payments, ev.key.provider, ev.ref)
    ensures CapturedFor(Deliver(s, ev).state.payments, ev.key.provider, ev.ref)
  {
    var p :| p in s.payments && IsFor(s.payments[p], ev.key.provider, ev.ref) && s.payments[p].IsOpen();
    Guards.SuccessCaptures(s, p, ev.key);
    assert ev == Guards.Success(ev.key, ev.ref);
    assert Deliver(s, ev).state.payments[p].IsCaptured();
  }

  /** A charge the gateway captured settles its row, in any run that follows with
      any number of redeliveries, if and only if the row was there and open at the
      first delivery: not when the success was recorded while the row was missing. */
  lemma SuccessReachesItsRowIff(s: State, ev: PaymentEvent, steps: seq<Step>)
    requires Valid(s) && ev.kind.EventSucceeded? && ev.ref != "" && ev.key !in s.events
    requires !CapturedFor(s.payments, ev.key.provider, ev.ref)
    requires AllOnlyRedeliver(Deliver(s, ev).state, steps, ev)
    ensures CapturedFor(Run(Deliver(s, ev).state, steps).payments, ev.key.provider, ev.ref)
            <==> OpenFor(s.payments, ev.key.provider, ev.ref)
  {
    var t := Deliver(s, ev).state;
    Invariant.DeliverKeepsValid(s, ev);
    if OpenFor(s.payments, ev.key.provider, ev.ref) {
      CapturedAtOnce(s, ev);
      Histories.RunEvolves(t, steps);
      CapturedStays(t, Run(t, steps), ev.key.provider, ev.ref);
    } else {
      DeliveredInVain(s, ev);
      SpentForGood(t, steps, ev);
    }
  }

  /** The overtaken row: recorded with no payment, then inserted, then told again
      that it succeeded, it stays pending. */
  lemma SuccessBeforeItsRow(s: State, ev: PaymentEvent, p: PaymentId, row: Payment)
    requires ev.kind.EventSucceeded? && ev.key !in s.events && !RefTaken(s.payments, ev.key.provider, ev.ref)
    requires IsFor(row, ev.key.provider, ev.ref) && row.status.PaymentPending?
    requires CreatePayment(s, p, row).state != s
    ensures var t := Apply(Apply(Apply(s, StepWebhook(ev)), StepCreate(p, row)), StepWebhook(ev));
            t.events[ev.key] == None && p in t.payments && t.payments[p] == row
  {
    var u := Recorded(s, ev.key, None);
    assert Deliver(s, ev).state == u;
    Guards.Inserted(s, p, row);
    assert CreatePayment(u, p, row).state == u.(payments := s.payments[p := row]);
  }
}
