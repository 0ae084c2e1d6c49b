/** The ledger under calls that overlap without restraint: it still balances
    whenever they have all finished, as long as nobody inserts a payment beside a
    captured one and nobody ends a booking that is still paid for. */
module OverlapLedger {
  import opened Domain
  import opened Store
  import opened Steps
  import opened Concurrent
  import opened RefundWindows
  import Guards
  import Histories
  import Invariant
  import LateRows
  import Money
  import MoneyLaws
  import Overlaps

  // ----------------------------------------------------------------- invariant

  ghost predicate RowsPriced(s: State) {
    forall p | p in s.payments ::
      s.payments[p].booking in s.bookings && s.payments[p].amount == s.bookings[s.payments[p].booking].total
  }

  /** The amount a checkout carries is the price of its booking. */
  predicate CarriesPrice(s: State, pc: Pc) {
    match pc
    case CheckoutLooksUp(b, amount) => b in s.bookings && s.bookings[b].total == amount
    case CheckoutExtends(b, amount) => b in s.bookings && s.bookings[b].total == amount
    case CheckoutAsks(b, amount) => b in s.bookings && s.bookings[b].total == amount
    case CheckoutInserts(b, amount, _) => b in s.bookings && s.bookings[b].total == amount
    case _ => true
  }

  predicate IsGone(s: State, p: PaymentId) {
    && p in s.payments && s.payments[p].booking in s.bookings
    && !s.bookings[s.payments[p].booking].IsActive()
  }

  /** A call that refunds knows whose payment it is, and an automatic refund is for
      a booking that is gone. */
  predicate KnowsPayment(s: State, pc: Pc) {
    match pc
    case CancelRefunds(b, p, _, _) => p in s.payments && s.payments[p].booking == b
    case CancelRecords(b, p) => p in s.payments && s.payments[p].booking == b
    case WebhookRefunds(p, _, _) => IsGone(s, p)
    case WebhookRecords(p) => IsGone(s, p)
    case _ => true
  }

  predicate CallFits(s: State, pc: Pc) { CarriesPrice(s, pc) && KnowsPayment(s, pc) }

  ghost predicate CallsFit(w: System) {
    forall c | c in w.calls :: CallFits(w.store, w.calls[c])
  }

  predicate HasCall(w: System, pc: Pc) {
    exists c :: c in w.calls && w.calls[c] == pc
  }

  ghost predicate PaidFor(s: State, b: BookingId) {
    exists p :: p in s.payments && s.payments[p].booking == b && s.payments[p].status.PaymentSucceeded?
  }

  /** A confirmed booking is paid for, or a cancellation returned the money and is
      about to release the seats. */
  ghost predicate ConfirmedPaid(w: System) {
    forall b | b in w.store.bookings && w.store.bookings[b].status.BookingConfirmed? ::
      PaidFor(w.store, b) || HasCall(w, CancelReleases(b))
  }

  predicate Refunding(pc: Pc, p: PaymentId) {
    (pc.WebhookRefunds? && pc.payment == p) || (pc.WebhookRecords? && pc.payment == p)
  }

  ghost predicate BeingRefunded(w: System, p: PaymentId) {
    exists c :: c in w.calls && Refunding(w.calls[c], p)
  }

  /** Money kept for a booking that is gone is about to go back, or the gateway
      refused to return it. */
  ghost predicate LateAsked(w: System) {
    forall p | IsGone(w.store, p) && w.store.payments[p].status.PaymentSucceeded? ::
      Money.OrphanRefused(w.refunds, p) || BeingRefunded(w, p)
  }

  ghost predicate OrphansGone(w: System) {
    forall p | Money.OrphanRefused(w.refunds, p) :: IsGone(w.store, p)
  }

  ghost predicate LedgerOk(w: System) {
    && Valid(w.store)
    && Money.CapturedAlone(w.store.payments) && Guards.PaidIsNotHeld(w.store)
    && RowsPriced(w.store) && CallsFit(w)
    && ConfirmedPaid(w) && LateAsked(w) && OrphansGone(w)
  }

  /** The move is harmless: it neither inserts beside a captured payment nor ends a
      booking that stays paid for. */
  ghost predicate Careful(w: System, m: Move) {
    match StepOf(w, m)
    case None => true
    case Some(step) => !Guards.InsertsBeside(w.store, step) && forall b :: !Guards.FreesPaid(w.store, step, b)
  }

  // --------------------------------------------------------------- the tables

  lemma TablesStayOk(w: System, m: Move)
    requires Valid(w.store) && Money.CapturedAlone(w.store.payments) && Guards.PaidIsNotHeld(w.store) && Careful(w, m)
    ensures var t := Next(w, m).store; Valid(t) && Money.CapturedAlone(t.payments) && Guards.PaidIsNotHeld(t)
  {
    NextEvolves(w, m);
    Overlaps.MoveIsServiceStep(w, m);
    match StepOf(w, m) {
      case None => assert Next(w, m).store == w.store;
      case Some(step) =>
        assert Next(w, m).store == Apply(w.store, step);
        Guards.StaysAloneIff(w.store, step);
        Guards.StepPaidNotHeld(w.store, step);
    }
  }

  lemma GoneStays(s: State, t: State, p: PaymentId)
    requires Histories.Evolves(s, t) && IsGone(s, p)
    ensures IsGone(t, p)
  {
  }

  lemma FitsStays(s: State, t: State, pc: Pc)
    requires Histories.Evolves(s, t) && CallFits(s, pc)
    ensures CallFits(t, pc)
  {
    match pc
    case WebhookRefunds(p, _, _) => GoneStays(s, t, p);
    case WebhookRecords(p) => GoneStays(s, t, p);
    case _ =>
  }

  /** Rows are only ever inserted by checkouts. */
  lemma NewRow(s: State, step: Step, p: PaymentId)
    requires PaymentsValid(s) && p in Apply(s, step).payments && p !in s.payments
    ensures step.StepCreate? && p == step.payment && Apply(s, step).payments[p] == step.row
    ensures step.row.booking in s.bookings
  {
    if step.StepWebhook? {
      LateRows.SameRows(s, step.event);
    }
  }

  lemma InsertIsPriced(w: System, m: Move)
    requires CallsFit(w)
    ensures match StepOf(w, m)
            case Some(StepCreate(_, row)) =>
              row.booking in w.store.bookings && row.amount == w.store.bookings[row.booking].total
            case _ => true
  {
    if m.Go? && m.call in w.calls {
      assert CallFits(w.store, w.calls[m.call]);
    }
  }

  lemma RowsStayPriced(w: System, m: Move)
    requires Valid(w.store) && RowsPriced(w.store) && CallsFit(w)
    ensures RowsPriced(Next(w, m).store)
  {
    var t := Next(w, m).store;
    NextEvolves(w, m);
    InsertIsPriced(w, m);
    forall p | p in t.payments
      ensures t.payments[p].booking in t.bookings && t.payments[p].amount == t.bookings[t.payments[p].booking].total
    {
      if p !in w.store.payments {
        NewRow(w.store, StepOf(w, m).value, p);
      }
    }
  }

  // ----------------------------------------------------------------- the calls

  lemma DeliversForGone(s: State, ev: PaymentEvent, p: PaymentId)
    requires PaymentsValid(s) && Deliver(s, ev).result == Ok(Some(p))
    ensures IsGone(s, p)
  {
    var q := ByRef(s.payments, ev.key.provider, ev.ref);
    Invariant.ActIsUpdateThenBooking(Store.Recorded(s, ev.key, q), ev, q.value);
  }

  lemma NextCallFits(w: System, pc: Pc, i: Input)
    requires PaymentsValid(w.store) && CallFits(w.store, pc)
    ensures CallFits(w.store, Acts(w, pc, i).pc)
  {
    if pc.WebhookRuns? && Deliver(w.store, pc.event).result.Ok? && Deliver(w.store, pc.event).result.value.Some? {
      DeliversForGone(w.store, pc.event, Deliver(w.store, pc.event).result.value.value);
    }
  }

  lemma CallsStayFit(w: System, m: Move)
    requires Valid(w.store) && CallsFit(w)
    ensures CallsFit(Next(w, m))
  {
    var t := Next(w, m);
    NextEvolves(w, m);
    forall c | c in t.calls ensures CallFits(t.store, t.calls[c]) {
      if m.Go? && m.call == c && c in w.calls {
        NextCallFits(w, w.calls[c], m.input);
        FitsStays(w.store, t.store, t.calls[c]);
      } else if c in w.calls {
        FitsStays(w.store, t.store, w.calls[c]);
      }
    }
  }

  // ------------------------------------------------------------ confirmed, paid

  lemma StepTaken(w: System, m: Move)
    ensures match StepOf(w, m)
            case Some(step) => Next(w, m).store == Apply(w.store, step)
            case None => Next(w, m).store == w.store
  {
  }

  /** The moves that record a refund. */
  lemma RecordingMove(w: System, m: Move, p: PaymentId)
    requires StepOf(w, m) == Some(StepUpdate(p, PaymentRefunded))
    ensures m.Go? && m.call in w.calls
    ensures var pc := w.calls[m.call];
            || (pc.CancelRecords? && pc.payment == p && Next(w, m).calls[m.call] == CancelReleases(pc.booking))
            || pc == WebhookRecords(p)
  {
  }

  /** What can become of a payment that succeeded, and who does it. */
  lemma SucceededEnds(w: System, m: Move, p: PaymentId)
    requires PaymentsValid(w.store) && CallsFit(w) && Histories.Evolves(w.store, Next(w, m).store)
    requires p in w.store.payments && w.store.payments[p].status.PaymentSucceeded?
    ensures p in Next(w, m).store.payments && Next(w, m).store.payments[p].booking == w.store.payments[p].booking
    ensures var t := Next(w, m);
            || t.store.payments[p].status.PaymentSucceeded?
            || (m.Go? && t.calls[m.call] == CancelReleases(w.store.payments[p].booking))
            || IsGone(t.store, p)
  {
    StepTaken(w, m);
    if !Next(w, m).store.payments[p].status.PaymentSucceeded? {
      var step := StepOf(w, m).value;
      ChangesSucceeded(w.store, step, p);
      if step == StepUpdate(p, PaymentRefunded) {
        RecordingMove(w, m, p);
        assert CallFits(w.store, w.calls[m.call]);
        if w.calls[m.call].WebhookRecords? {
          GoneStays(w.store, Next(w, m).store, p);
        }
      }
    }
  }

  lemma ChangesSucceeded(s: State, step: Step, p: PaymentId)
    requires PaymentsValid(s) && p in s.payments && s.payments[p].status.PaymentSucceeded?
    requires var t := Apply(s, step); p in t.payments && !t.payments[p].status.PaymentSucceeded?
    ensures step == StepUpdate(p, PaymentRefunded) || (step.StepWebhook? && IsGone(Apply(s, step), p))
  {
    if step.StepWebhook? {
      RefundEventEnds(s, step.event, p);
    }
  }

  lemma RefundEventEnds(s: State, ev: PaymentEvent, p: PaymentId)
    requires PaymentsValid(s) && p in s.payments && s.payments[p].status.PaymentSucceeded?
    requires var t := Deliver(s, ev).state; p in t.payments && !t.payments[p].status.PaymentSucceeded?
    ensures IsGone(Deliver(s, ev).state, p)
  {
    var q := ByRef(s.payments, ev.key.provider, ev.ref);
    var r := Store.Recorded(s, ev.key, q);
    Invariant.ActIsUpdateThenBooking(r, ev, q.value);
    Guards.FollowedKeepsPayments(Invariant.Settled(r, ev.kind, q.value), ev.kind, s.payments[q.value].booking);
    assert Invariant.Settled(r, ev.kind, q.value).bookings == s.bookings;
  }

  lemma EventConfirms(s: State, ev: PaymentEvent, b: BookingId)
    requires PaymentsValid(s)
    requires var t := Deliver(s, ev).state; b in t.bookings && t.bookings[b].status.BookingConfirmed?
    requires !(b in s.bookings && s.bookings[b].status.BookingConfirmed?)
    ensures PaidFor(Deliver(s, ev).state, b)
  {
    var q := ByRef(s.payments, ev.key.provider, ev.ref);
    var r := Store.Recorded(s, ev.key, q);
    Invariant.ActIsUpdateThenBooking(r, ev, q.value);
    Guards.FollowedKeepsPayments(Invariant.Settled(r, ev.kind, q.value), ev.kind, s.payments[q.value].booking);
    assert Invariant.Settled(r, ev.kind, q.value).bookings == s.bookings;
    assert Deliver(s, ev).state.payments[q.value].status.PaymentSucceeded?;
  }

  /** A booking is confirmed by the success of one of its payments. */
  lemma ConfirmedBySuccess(s: State, step: Step, b: BookingId)
    requires PaymentsValid(s) && !step.StepConfirm?
    requires var t := Apply(s, step); b in t.bookings && t.bookings[b].status.BookingConfirmed?
    requires !(b in s.bookings && s.bookings[b].status.BookingConfirmed?)
    ensures PaidFor(Apply(s, step), b)
  {
    if step.StepWebhook? {
      EventConfirms(s, step.event, b);
    }
  }

  lemma NobodyConfirms(w: System, m: Move)
    ensures match StepOf(w, m) case Some(step) => !step.StepConfirm? case None => true
  {
  }

  lemma ReleaseWaits(w: System, m: Move, b: BookingId)
    requires HasCall(w, CancelReleases(b)) && b in w.store.bookings
    ensures var t := Next(w, m);
            HasCall(t, CancelReleases(b)) || (b in t.store.bookings ==> !t.store.bookings[b].IsActive())
  {
    var c :| c in w.calls && w.calls[c] == CancelReleases(b);
    if !(m.Go? && m.call == c) {
      OtherCallsStay(w, m, c);
    }
  }

  lemma StaysConfirmedPaid(w: System, m: Move)
    requires Valid(w.store) && CallsFit(w) && ConfirmedPaid(w)
    ensures ConfirmedPaid(Next(w, m))
  {
    var t := Next(w, m);
    NextEvolves(w, m);
    StepTaken(w, m);
    NobodyConfirms(w, m);
    forall b | b in t.store.bookings && t.store.bookings[b].status.BookingConfirmed?
      ensures PaidFor(t.store, b) || HasCall(t, CancelReleases(b))
    {
      if b in w.store.bookings && w.store.bookings[b].status.BookingConfirmed? {
        if PaidFor(w.store, b) {
          StaysPaidFor(w, m, b);
        } else {
          ReleaseWaits(w, m, b);
        }
      } else {
        ConfirmedBySuccess(w.store, StepOf(w, m).value, b);
      }
    }
  }

  lemma StaysPaidFor(w: System, m: Move, b: BookingId)
    requires PaymentsValid(w.store) && CallsFit(w) && Histories.Evolves(w.store, Next(w, m).store)
    requires PaidFor(w.store, b)
    requires b in Next(w, m).store.bookings && Next(w, m).store.bookings[b].status.BookingConfirmed?
    ensures PaidFor(Next(w, m).store, b) || HasCall(Next(w, m), CancelReleases(b))
  {
    var p :| p in w.store.payments && w.store.payments[p].booking == b && w.store.payments[p].status.PaymentSucceeded?;
    SucceededEnds(w, m, p);
  }

  // -------------------------------------------------------------- late charges

  lemma RefusedStays(w: System, m: Move, p: PaymentId)
    requires Money.OrphanRefused(w.refunds, p)
    ensures Money.OrphanRefused(Next(w, m).refunds, p)
  {
    var i :| 0 <= i < |w.refunds| && w.refunds[i].payment == p && w.refunds[i].orphan && !w.refunds[i].accepted;
    assert Next(w, m).refunds[i] == w.refunds[i];
  }

  lemma RefundMoves(w: System, c: nat, i: Input, p: PaymentId)
    requires c in w.calls && Refunding(w.calls[c], p)
    ensures var t := Next(w, Go(c, i));
            || Refunding(t.calls[c], p) || Money.OrphanRefused(t.refunds, p)
            || t.store == UpdatePayment(w.store, p, PaymentRefunded).state
  {
    var t := Next(w, Go(c, i));
    if w.calls[c].WebhookRefunds? && !i.accepted {
      assert t.refunds[|w.refunds|].payment == p;
    }
  }

  /** A call on its way to refund a late charge goes on, or leaves the row refunded
      or the refusal on record. */
  lemma RefundGoesOn(w: System, m: Move, p: PaymentId)
    requires BeingRefunded(w, p) && p in w.store.payments && w.store.payments[p].status.PaymentSucceeded?
    ensures var t := Next(w, m);
            || BeingRefunded(t, p) || Money.OrphanRefused(t.refunds, p)
            || (p in t.store.payments && !t.store.payments[p].status.PaymentSucceeded?)
  {
    var c :| c in w.calls && Refunding(w.calls[c], p);
    if m.Go? && m.call == c {
      RefundMoves(w, c, m.input, p);
      RecordsIt(w.store, p);
    } else {
      OtherCallsStay(w, m, c);
    }
  }

  lemma DeliveryHandsOn(w: System, m: Move, ev: PaymentEvent, p: PaymentId)
    requires StepOf(w, m) == Some(StepWebhook(ev)) && Deliver(w.store, ev).result == Ok(Some(p)) && p in w.store.payments
    ensures BeingRefunded(Next(w, m), p)
  {
    assert m.Go? && w.calls[m.call] == WebhookRuns(ev);
    assert Refunding(Next(w, m).calls[m.call], p);
  }

  /** A payment that succeeds for a booking that is gone is handed to a refund. */
  lemma LateSuccessIsHandedOn(w: System, m: Move, p: PaymentId)
    requires PaymentsValid(w.store) && !(p in w.store.payments && w.store.payments[p].status.PaymentSucceeded?)
    requires IsGone(Next(w, m).store, p) && Next(w, m).store.payments[p].status.PaymentSucceeded?
    ensures BeingRefunded(Next(w, m), p)
  {
    StepTaken(w, m);
    Overlaps.MoveIsServiceStep(w, m);
    var step := StepOf(w, m).value;
    SucceedsByEvent(w.store, step, p);
    DeliveryHandsOn(w, m, step.event, p);
  }

  lemma EventSucceeds(s: State, ev: PaymentEvent, p: PaymentId)
    requires PaymentsValid(s)
    requires !(p in s.payments && s.payments[p].status.PaymentSucceeded?)
    requires IsGone(Deliver(s, ev).state, p) && Deliver(s, ev).state.payments[p].status.PaymentSucceeded?
    ensures p in s.payments && Deliver(s, ev).result == Ok(Some(p))
  {
    LateRows.SameRows(s, ev);
    var q := ByRef(s.payments, ev.key.provider, ev.ref);
    var r := Store.Recorded(s, ev.key, q);
    Invariant.ActIsUpdateThenBooking(r, ev, q.value);
    Guards.FollowedKeepsPayments(Invariant.Settled(r, ev.kind, q.value), ev.kind, s.payments[q.value].booking);
    assert Invariant.Settled(r, ev.kind, q.value).bookings == s.bookings;
  }

  lemma SucceedsByEvent(s: State, step: Step, p: PaymentId)
    requires PaymentsValid(s) && Guards.IsServiceStep(step)
    requires !(p in s.payments && s.payments[p].status.PaymentSucceeded?)
    requires IsGone(Apply(s, step), p) && Apply(s, step).payments[p].status.PaymentSucceeded?
    ensures step.StepWebhook? && p in s.payments && Deliver(s, step.event).result == Ok(Some(p))
  {
    if step.StepWebhook? {
      EventSucceeds(s, step.event, p);
    }
  }

  lemma CarefulStepKeepsPaidSeats(s: State, step: Step, p: PaymentId)
    requires Valid(s) && Guards.PaidIsNotHeld(s) && Guards.IsServiceStep(step) && forall b :: !Guards.FreesPaid(s, step, b)
    requires p in s.payments && s.payments[p].status.PaymentSucceeded? && Histories.Evolves(s, Apply(s, step))
    requires IsGone(Apply(s, step), p) && Apply(s, step).payments[p].status.PaymentSucceeded?
    ensures IsGone(s, p)
  {
    var b := s.payments[p].booking;
    assert Apply(s, step).payments[p].booking == b;
    if b in s.bookings && s.bookings[b].IsActive() {
      Guards.FreesPaidIff(s, step, b);
      assert Guards.KeepsMoneyFor(Apply(s, step), b);
    }
    assert PaymentsValid(s);
  }

  /** A careful move does not strand the money of an active booking. */
  lemma CarefulKeepsPaidSeats(w: System, m: Move, p: PaymentId)
    requires Valid(w.store) && Guards.PaidIsNotHeld(w.store) && Careful(w, m)
    requires p in w.store.payments && w.store.payments[p].status.PaymentSucceeded?
    requires IsGone(Next(w, m).store, p) && Next(w, m).store.payments[p].status.PaymentSucceeded?
    ensures IsGone(w.store, p)
  {
    NextEvolves(w, m);
    StepTaken(w, m);
    Overlaps.MoveIsServiceStep(w, m);
    match StepOf(w, m) {
      case Some(step) => CarefulStepKeepsPaidSeats(w.store, step, p);
      case None =>
    }
  }

  lemma StaysLateAsked(w: System, m: Move)
    requires Valid(w.store) && Guards.PaidIsNotHeld(w.store) && LateAsked(w) && Careful(w, m)
    ensures LateAsked(Next(w, m))
  {
    var t := Next(w, m);
    forall p | IsGone(t.store, p) && t.store.payments[p].status.PaymentSucceeded?
      ensures Money.OrphanRefused(t.refunds, p) || BeingRefunded(t, p)
    {
      if p in w.store.payments && w.store.payments[p].status.PaymentSucceeded? {
        CarefulKeepsPaidSeats(w, m, p);
        if Money.OrphanRefused(w.refunds, p) {
          RefusedStays(w, m, p);
        } else {
          RefundGoesOn(w, m, p);
        }
      } else {
        LateSuccessIsHandedOn(w, m, p);
      }
    }
  }

  lemma StaysOrphansGone(w: System, m: Move)
    requires Valid(w.store) && CallsFit(w) && OrphansGone(w)
    ensures OrphansGone(Next(w, m))
  {
    var t := Next(w, m);
    NextEvolves(w, m);
    forall p | Money.OrphanRefused(t.refunds, p) ensures IsGone(t.store, p) {
      RefusedWasGone(w, m, p);
      GoneStays(w.store, t.store, p);
    }
  }

  lemma RefusedWasGone(w: System, m: Move, p: PaymentId)
    requires CallsFit(w) && OrphansGone(w) && Money.OrphanRefused(Next(w, m).refunds, p)
    ensures IsGone(w.store, p)
  {
    var t := Next(w, m);
    var i :| 0 <= i < |t.refunds| && t.refunds[i].payment == p && t.refunds[i].orphan && !t.refunds[i].accepted;
    if i < |w.refunds| {
      assert w.refunds[i] == t.refunds[i];
      assert Money.OrphanRefused(w.refunds, p);
    } else {
      assert CallFits(w.store, w.calls[m.call]);
    }
  }

  // ------------------------------------------------------------------ every run

  lemma NextKeepsLedgerOk(w: System, m: Move)
    requires LedgerOk(w) && Careful(w, m)
    ensures LedgerOk(Next(w, m))
  {
    TablesStayOk(w, m);
    RowsStayPriced(w, m);
    CallsStayFit(w, m);
    StaysConfirmedPaid(w, m);
    StaysLateAsked(w, m);
    StaysOrphansGone(w, m);
  }

  lemma {:induction false} PlayKeepsLedgerOk(w: System, moves: seq<Move>)
    requires LedgerOk(w)
    requires Guards.NoneInsertsBeside(w.store, StepsOf(w, moves)) && Guards.NoneFreesPaid(w.store, StepsOf(w, moves))
    ensures LedgerOk(Play(w, moves))
    decreases |moves|
  {
    if moves != [] {
      var t, rest := Next(w, moves[0]), StepsOf(Next(w, moves[0]), moves[1..]);
      match StepOf(w, moves[0]) {
        case Some(step) =>
          assert StepsOf(w, moves) == [step] + rest && ([step] + rest)[1..] == rest;
          assert t.store == Apply(w.store, step);
        case None =>
          assert StepsOf(w, moves) == [] + rest && [] + rest == rest;
          assert t.store == w.store;
      }
      NextKeepsLedgerOk(w, moves[0]);
      PlayKeepsLedgerOk(t, moves[1..]);
    }
  }

  // ------------------------------------------------------------------- at rest

  ghost predicate AtRest(w: System) {
    forall c | c in w.calls :: w.calls[c].Done?
  }

  /** The same tables and ledger, as the ledger laws see them. */
  function Books(w: System): Money.World {
    Money.World(w.setup, w.store, map[], w.refunds, map[])
  }

  lemma RestIsStrandedOrSold(w: System)
    requires LedgerOk(w) && AtRest(w)
    ensures MoneyLaws.StrandedOrSold(Books(w))
  {
    forall p | p in w.store.payments && w.store.payments[p].status.PaymentSucceeded?
      ensures w.store.payments[p].booking in w.store.bookings
      ensures MoneyLaws.IsStranded(Books(w), p) <==> !w.store.bookings[w.store.payments[p].booking].status.BookingConfirmed?
    {
      assert IsGone(w.store, p) ==> Money.OrphanRefused(w.refunds, p);
      assert Money.OrphanRefused(w.refunds, p) ==> IsGone(w.store, p);
    }
  }

  lemma RestHasPayment(w: System, b: BookingId)
    requires ConfirmedPaid(w) && AtRest(w) && b in MoneyLaws.SoldAndKept(Books(w))
    ensures exists p :: p in MoneyLaws.KeptForSold(Books(w)) && MoneyLaws.BookingsOf(Books(w))[p] == b
  {
    assert PaidFor(w.store, b);
    var p :| p in w.store.payments && w.store.payments[p].booking == b && w.store.payments[p].status.PaymentSucceeded?;
    assert p in MoneyLaws.KeptForSold(Books(w)) && MoneyLaws.BookingsOf(Books(w))[p] == b;
  }

  lemma RestIsPriced(w: System, p: PaymentId)
    requires RowsPriced(w.store) && p in MoneyLaws.KeptForSold(Books(w))
    ensures var b := MoneyLaws.BookingsOf(Books(w))[p];
            b in MoneyLaws.SoldAndKept(Books(w)) && MoneyLaws.SoldAndKept(Books(w))[b] == MoneyLaws.KeptForSold(Books(w))[p]
  {
  }

  lemma RestIsPaidExactly(w: System)
    requires RowsPriced(w.store) && ConfirmedPaid(w) && AtRest(w)
    ensures MoneyLaws.PaidExactly(Books(w))
  {
    var books := Books(w);
    forall p | p in MoneyLaws.KeptForSold(books)
      ensures var b := MoneyLaws.BookingsOf(books)[p];
              b in MoneyLaws.SoldAndKept(books) && MoneyLaws.SoldAndKept(books)[b] == MoneyLaws.KeptForSold(books)[p]
    {
      RestIsPriced(w, p);
    }
    forall b | b in MoneyLaws.SoldAndKept(books)
      ensures exists p :: p in MoneyLaws.KeptForSold(books) && MoneyLaws.BookingsOf(books)[p] == b
    {
      RestHasPayment(w, b);
    }
  }

  /** However calls overlap, and whatever the gateway answers: once all of them
      have finished, the money kept is the worth of the confirmed bookings plus the
      late charges the gateway refused to refund, if no checkout inserted its
      payment beside a captured one and no booking was ended while it was still
      paid for. */
  lemma LedgerBalancesDespiteOverlaps(setup: Money.Setup, moves: seq<Move>)
    requires var steps := StepsOf(System(setup, EmptyState, map[], []), moves);
             Guards.NoneInsertsBeside(EmptyState, steps) && Guards.NoneFreesPaid(EmptyState, steps)
    requires AtRest(Play(System(setup, EmptyState, map[], []), moves))
    ensures MoneyLaws.Balanced(Books(Play(System(setup, EmptyState, map[], []), moves)))
  {
    var w := Play(System(setup, EmptyState, map[], []), moves);
    PlayKeepsLedgerOk(System(setup, EmptyState, map[], []), moves);
    RestIsStrandedOrSold(w);
    RestIsPaidExactly(w);
    MoneyLaws.LedgerFrom(Books(w));
    MoneyLaws.RestHasNothingPending(Books(w));
  }
}
