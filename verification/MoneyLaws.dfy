/** What the money invariant means: the ledger balances, nobody is charged twice,
    nobody is repaid twice, and seats are never freed while the money is kept. */
module MoneyLaws {
  import opened Domain
  import opened Store
  import opened Steps
  import opened Money
  import MoneyInvariant
  import Invariant
  import Histories
  import Sums

  // ------------------------------------------------------------------ the ledger

  ghost function Kept(s: State): map<PaymentId, int> {
    map p | p in s.payments && s.payments[p].status.PaymentSucceeded? :: s.payments[p].amount
  }

  ghost function Sold(s: State): map<BookingId, int> {
    map b | b in s.bookings && s.bookings[b].status.BookingConfirmed? :: s.bookings[b].total
  }

  /** Charges that came too late and are still kept: the gateway refused to
      refund them, or is about to be asked. */
  ghost predicate IsStranded(w: World, p: PaymentId) {
    && p in w.store.payments && w.store.payments[p].status.PaymentSucceeded?
    && (OrphanRefused(w.refunds, p) || PhaseOf(w, w.store.payments[p].booking) == Some(RefundingOrphan(p)))
  }

  ghost function Stranded(w: World): map<PaymentId, int> {
    map p | p in w.store.payments && IsStranded(w, p) :: w.store.payments[p].amount
  }

  /** Cancellations that have refunded and are about to release the seats. */
  ghost function Unreleased(w: World): map<BookingId, int> {
    map b | b in w.store.bookings && w.store.bookings[b].status.BookingConfirmed?
            && PhaseOf(w, b) == Some(Releasing) :: w.store.bookings[b].total
  }

  ghost function KeptForSold(w: World): map<PaymentId, int> {
    map p | p in w.store.payments && w.store.payments[p].status.PaymentSucceeded?
            && w.store.payments[p].booking in w.store.bookings
            && w.store.bookings[w.store.payments[p].booking].status.BookingConfirmed? :: w.store.payments[p].amount
  }

  ghost function SoldAndKept(w: World): map<BookingId, int> {
    map b | b in w.store.bookings && w.store.bookings[b].status.BookingConfirmed?
            && PhaseOf(w, b) != Some(Releasing) :: w.store.bookings[b].total
  }

  lemma StrandedIsGone(w: World, p: PaymentId)
    requires Sound(w) && p in w.store.payments && w.store.payments[p].status.PaymentSucceeded?
    ensures w.store.payments[p].booking in w.store.bookings
    ensures IsStranded(w, p) <==> !w.store.bookings[w.store.payments[p].booking].IsActive()
    ensures !w.store.bookings[w.store.payments[p].booking].status.BookingHeld?
  {
    assert PaymentFits(w, p);
    assert BookingFits(w, w.store.payments[p].booking);
  }

  /** Money kept is either for seats sold or stranded. */
  ghost predicate StrandedOrSold(w: World) {
    forall p | p in w.store.payments && w.store.payments[p].status.PaymentSucceeded? ::
      && w.store.payments[p].booking in w.store.bookings
      && (IsStranded(w, p) <==> !w.store.bookings[w.store.payments[p].booking].status.BookingConfirmed?)
  }

  lemma SoundIsStrandedOrSold(w: World)
    requires Sound(w)
    ensures StrandedOrSold(w)
  {
    forall p | p in w.store.payments && w.store.payments[p].status.PaymentSucceeded?
      ensures w.store.payments[p].booking in w.store.bookings
      ensures IsStranded(w, p) <==> !w.store.bookings[w.store.payments[p].booking].status.BookingConfirmed?
    {
      StrandedIsGone(w, p);
    }
  }

  lemma KeptSplits(w: World)
    requires StrandedOrSold(w)
    ensures Kept(w.store) == KeptForSold(w) + Stranded(w)
    ensures KeptForSold(w).Keys !! Stranded(w).Keys
  {
  }

  lemma CapturedOf(w: World, b: BookingId) returns (p: PaymentId)
    requires Sound(w) && b in w.store.bookings && w.store.bookings[b].status.BookingConfirmed?
    ensures p in w.store.payments && w.store.payments[p].booking == b
    ensures w.store.payments[p].amount == w.store.bookings[b].total
    ensures w.store.payments[p].status ==
            if PhaseOf(w, b) == Some(Releasing) then PaymentRefunded else PaymentSucceeded
  {
    assert BookingFits(w, b);
    p :| p in w.store.payments && w.store.payments[p].booking == b && w.store.payments[p].IsCaptured();
    assert PaymentFits(w, p);
  }

  ghost function BookingsOf(w: World): map<PaymentId, BookingId> {
    map p | p in KeptForSold(w) :: w.store.payments[p].booking
  }

  lemma KeptForSoldIsItsPrice(w: World, p: PaymentId)
    requires Sound(w) && p in KeptForSold(w)
    ensures var b := BookingsOf(w)[p]; b in SoldAndKept(w) && SoldAndKept(w)[b] == KeptForSold(w)[p]
  {
    assert PaymentFits(w, p);
  }

  lemma OnePaymentEach(w: World)
    requires CapturedAlone(w.store.payments)
    ensures forall p, q | p in KeptForSold(w) && q in KeptForSold(w) && BookingsOf(w)[p] == BookingsOf(w)[q] :: p == q
  {
  }

  lemma SoldHasPayment(w: World, b: BookingId)
    requires Sound(w) && b in SoldAndKept(w)
    ensures exists p :: p in KeptForSold(w) && BookingsOf(w)[p] == b
  {
    var p := CapturedOf(w, b);
    assert p in KeptForSold(w) && BookingsOf(w)[p] == b;
  }

  /** Money kept for a booking that is sold is its price, and every booking that is
      sold and not being released was paid for. */
  ghost predicate PaidExactly(w: World) {
    && (forall p | p in KeptForSold(w) ::
          BookingsOf(w)[p] in SoldAndKept(w) && SoldAndKept(w)[BookingsOf(w)[p]] == KeptForSold(w)[p])
    && (forall b | b in SoldAndKept(w) :: exists p :: p in KeptForSold(w) && BookingsOf(w)[p] == b)
  }

  lemma SoundIsPaidExactly(w: World)
    requires Sound(w)
    ensures PaidExactly(w)
  {
    forall p | p in KeptForSold(w)
      ensures BookingsOf(w)[p] in SoldAndKept(w) && SoldAndKept(w)[BookingsOf(w)[p]] == KeptForSold(w)[p]
    {
      KeptForSoldIsItsPrice(w, p);
    }
    forall b | b in SoldAndKept(w) ensures exists p :: p in KeptForSold(w) && BookingsOf(w)[p] == b {
      SoldHasPayment(w, b);
    }
  }

  lemma SoldIsPaid(w: World)
    requires PaidExactly(w) && CapturedAlone(w.store.payments)
    ensures Sums.Total(KeptForSold(w)) == Sums.Total(SoldAndKept(w))
  {
    OnePaymentEach(w);
    Sums.TotalRename(KeptForSold(w), SoldAndKept(w), BookingsOf(w));
  }

  lemma SoldSplits(w: World)
    ensures Sold(w.store) == SoldAndKept(w) + Unreleased(w)
    ensures SoldAndKept(w).Keys !! Unreleased(w).Keys
  {
  }

  lemma LedgerFrom(w: World)
    requires StrandedOrSold(w) && PaidExactly(w) && CapturedAlone(w.store.payments)
    ensures Sums.Total(Kept(w.store)) + Sums.Total(Unreleased(w)) == Sums.Total(Sold(w.store)) + Sums.Total(Stranded(w))
  {
    KeptSplits(w);
    SoldSplits(w);
    SoldIsPaid(w);
    Sums.TotalUnion(KeptForSold(w), Stranded(w));
    Sums.TotalUnion(SoldAndKept(w), Unreleased(w));
  }

  /** At every instant: the money kept, plus what was refunded for seats about to
      be released, is the worth of the seats sold plus the stranded charges. */
  lemma LedgerBalances(w: World)
    requires Sound(w)
    ensures Sums.Total(Kept(w.store)) + Sums.Total(Unreleased(w)) == Sums.Total(Sold(w.store)) + Sums.Total(Stranded(w))
  {
    SoundIsStrandedOrSold(w);
    SoundIsPaidExactly(w);
    assert CapturedAlone(w.store.payments);
    LedgerFrom(w);
  }

  ghost function RefusedOrphans(w: World): map<PaymentId, int> {
    map p | p in w.store.payments && w.store.payments[p].status.PaymentSucceeded?
            && OrphanRefused(w.refunds, p) :: w.store.payments[p].amount
  }

  /** The money kept is the worth of the confirmed bookings plus the late charges
      the gateway refused to refund. */
  ghost predicate Balanced(w: World) {
    Sums.Total(Kept(w.store)) == Sums.Total(Sold(w.store)) + Sums.Total(RefusedOrphans(w))
  }

  lemma BalancedAtRest(w: World, actions: seq<Action>)
    requires Sound(w) && Play(w, actions).calls == map[]
    ensures Sound(Play(w, actions)) && Balanced(Play(w, actions))
  {
    MoneyInvariant.PlayKeepsSound(w, actions);
    LedgerBalances(Play(w, actions));
    RestHasNothingPending(Play(w, actions));
  }

  /** Over every run of calls, whenever none is in progress, the ledger balances. */
  lemma LedgerBalancesAtRest(setup: Setup, actions: seq<Action>)
    requires Play(Opening(setup), actions).calls == map[]
    ensures Balanced(Play(Opening(setup), actions))
  {
    MoneyInvariant.OpeningIsSound(setup);
    BalancedAtRest(Opening(setup), actions);
  }

  lemma RestHasNothingPending(w: World)
    requires w.calls == map[]
    ensures Stranded(w) == RefusedOrphans(w)
    ensures Unreleased(w) == map[]
  {
  }

  // ------------------------------------------------------------ charged once

  lemma CallEvolves(w: World, a: Action)
    requires a.RefundOrphan? || a.CancelCharge? || a.RefundCharge? || a.CreateCharge?
    ensures Histories.Evolves(w.store, Perform(w, a).store)
  {
    Histories.EvolvesReflexive(w.store);
    if Perform(w, a).store != w.store {
      match a
      case RefundOrphan(b, _) => Histories.UpdateEvolves(w.store, w.calls[b].payment, PaymentRefunded);
      case CancelCharge(b) =>
        Histories.UpdateEvolves(w.store, OpenPayment(w.store.payments, b).value, PaymentCancelled);
      case RefundCharge(b, _) =>
        Histories.UpdateEvolves(w.store, SucceededPayment(w.store.payments, b).value, PaymentRefunded);
      case CreateCharge(b, intent, p, key) =>
        Histories.CreateEvolves(w.store, p, Payment(b, w.setup.provider, intent.value, PaymentPending,
                                                    w.store.bookings[b].total, key));
    }
  }

  /** What the tables must look like for their changes to be lifecycle steps. */
  ghost predicate Linked(s: State) {
    ClaimsFollowBookings(s) && forall p | p in s.payments :: s.payments[p].booking in s.bookings
  }

  lemma BookingCallEvolves(w: World, a: Action)
    requires a.Release? || a.ExtendForCheckout? || a.ReleaseSeats?
    ensures Histories.Evolves(w.store, Perform(w, a).store)
  {
    Histories.EvolvesReflexive(w.store);
    match a
    case Release(b, _) => Histories.CancelEvolves(w.store, b);
    case ExtendForCheckout(b) => Histories.ExtendEvolves(w.store, b, w.store.now + w.setup.window);
    case ReleaseSeats(b) => Histories.CancelEvolves(w.store, b);
  }

  lemma OutsideEvolves(w: World, a: Action)
    requires Linked(w.store) && (a.Background? || a.Webhook?)
    ensures Histories.Evolves(w.store, Perform(w, a).store)
  {
    Histories.EvolvesReflexive(w.store);
    match a
    case Background(step) => Histories.StepEvolves(w.store, step);
    case Webhook(ev) => Histories.DeliverEvolves(w.store, ev);
  }

  lemma PerformEvolves(w: World, a: Action)
    requires Linked(w.store)
    ensures Histories.Evolves(w.store, Perform(w, a).store)
  {
    if a.RefundOrphan? || a.CancelCharge? || a.RefundCharge? || a.CreateCharge? {
      CallEvolves(w, a);
    } else if a.Release? || a.ExtendForCheckout? || a.ReleaseSeats? {
      BookingCallEvolves(w, a);
    } else if a.Background? || a.Webhook? {
      OutsideEvolves(w, a);
    } else {
      assert Perform(w, a).store == w.store;
      Histories.EvolvesReflexive(w.store);
    }
  }

  lemma SoundIsLinked(w: World)
    requires Sound(w)
    ensures Linked(w.store)
  {
  }

  lemma {:induction false} PlayEvolves(w: World, actions: seq<Action>)
    requires Sound(w)
    ensures Histories.Evolves(w.store, Play(w, actions).store)
    decreases |actions|
  {
    SoundIsLinked(w);
    if actions == [] {
      Histories.EvolvesReflexive(w.store);
    } else {
      var t := Perform(w, actions[0]);
      PerformEvolves(w, actions[0]);
      MoneyInvariant.ActionKeepsSound(w, actions[0]);
      PlayEvolves(t, actions[1..]);
      Histories.EvolvesTransitive(w.store, t.store, Play(t, actions[1..]).store);
    }
  }

  /** Over a whole run at most one payment of a booking is ever captured: one
      captured now and one captured at any later time are the same. */
  lemma AtMostOneCaptureEver(w: World, actions: seq<Action>, p: PaymentId, q: PaymentId)
    requires Sound(w)
    requires p in w.store.payments && w.store.payments[p].IsCaptured()
    requires var t := Play(w, actions).store;
             q in t.payments && t.payments[q].IsCaptured() && t.payments[q].booking == w.store.payments[p].booking
    ensures p == q
  {
    var t := Play(w, actions).store;
    assert p in t.payments && t.payments[p].booking == w.store.payments[p].booking && t.payments[p].IsCaptured() by {
      PlayEvolves(w, actions);
    }
    assert CapturedAlone(t.payments) by {
      MoneyInvariant.PlayKeepsSound(w, actions);
    }
  }

  /** A confirmed booking outside a call has exactly one captured payment, for
      exactly its total, and no open one. */
  lemma ConfirmedIsPaidOnce(w: World, b: BookingId)
    requires Sound(w) && b in w.store.bookings && w.store.bookings[b].status.BookingConfirmed? && b !in w.calls
    ensures exists p ::
              && p in w.store.payments && w.store.payments[p].booking == b
              && w.store.payments[p].status.PaymentSucceeded?
              && w.store.payments[p].amount == w.store.bookings[b].total
              && forall q | q in w.store.payments && w.store.payments[q].booking == b && q != p ::
                   !w.store.payments[q].IsCaptured() && !w.store.payments[q].IsOpen()
  {
    var p := CapturedOf(w, b);
    assert w.store.payments[p].IsCaptured();
  }

  // ------------------------------------------------------------- repaid once

  ghost function AcceptedRefunds(refunds: seq<RefundCall>, p: PaymentId): seq<RefundCall> {
    if refunds == [] then []
    else
      AcceptedRefunds(refunds[..|refunds| - 1], p)
      + if refunds[|refunds| - 1].accepted && refunds[|refunds| - 1].payment == p then [refunds[|refunds| - 1]] else []
  }

  lemma {:induction false} AcceptedOnce(s: State, refunds: seq<RefundCall>, p: PaymentId)
    requires RefundsFit(s, refunds) && p in s.payments
    ensures |AcceptedRefunds(refunds, p)| <= 1
    ensures forall c | c in AcceptedRefunds(refunds, p) ::
              c in refunds && c.payment == p && c.amount == s.payments[p].amount && c.ref == s.payments[p].ref
              && s.payments[p].status.PaymentRefunded?
  {
    if refunds != [] {
      var init, last := refunds[..|refunds| - 1], refunds[|refunds| - 1];
      AcceptedOnce(s, init, p);
      if last.accepted && last.payment == p {
        NoneAccepted(init, p);
      }
    }
  }

  lemma {:induction false} NoneAccepted(refunds: seq<RefundCall>, p: PaymentId)
    requires forall i | 0 <= i < |refunds| && refunds[i].accepted :: refunds[i].payment != p
    ensures AcceptedRefunds(refunds, p) == []
  {
    if refunds != [] {
      NoneAccepted(refunds[..|refunds| - 1], p);
    }
  }

  /** Over any sequence of cancellations, late successes and retries after
      failures, the gateway accepts at most one refund of a payment, for exactly
      its amount and on its own reference. */
  lemma RefundedAtMostOnce(setup: Setup, actions: seq<Action>, p: PaymentId)
    requires p in Play(Opening(setup), actions).store.payments
    ensures var w := Play(Opening(setup), actions);
            && |AcceptedRefunds(w.refunds, p)| <= 1
            && forall c | c in AcceptedRefunds(w.refunds, p) ::
                 c.amount == w.store.payments[p].amount && c.ref == w.store.payments[p].ref
  {
    MoneyInvariant.OpeningIsSound(setup);
    MoneyInvariant.PlayKeepsSound(Opening(setup), actions);
    var w := Play(Opening(setup), actions);
    AcceptedOnce(w.store, w.refunds, p);
  }

  // ------------------------------------------------------- seats against money

  /** A confirmed booking loses its seats only once its money went back. */
  lemma SeatsFreedOnlyAfterRefund(w: World, a: Action, b: BookingId, p: PaymentId)
    requires Sound(w) && b in w.store.bookings && w.store.bookings[b].status.BookingConfirmed?
    requires p in w.store.payments && w.store.payments[p].booking == b && w.store.payments[p].IsCaptured()
    requires var t := Perform(w, a).store; b in t.bookings && !t.bookings[b].IsActive()
    ensures var t := Perform(w, a).store; p in t.payments && t.payments[p].status.PaymentRefunded?
  {
    if a.Webhook? {
      var q := ByRef(w.store.payments, a.event.key.provider, a.event.ref);
      if q.Some? {
        WebhookFreesAfterRefund(w, a.event, b, p, q.value) by {
          assert PaymentFits(w, q.value);
        }
      }
    } else {
      FreesOnlyWhenReleasing(w, a, b);
      ReleasingIsRefunded(w, b, p) by {
        assert PaymentFits(w, p);
      }
    }
  }

  lemma ReleasingIsRefunded(w: World, b: BookingId, p: PaymentId)
    requires InPhase(w, b, Releasing)
    requires p in w.store.payments && w.store.payments[p].booking == b && w.store.payments[p].IsCaptured()
    requires PaymentFits(w, p)
    ensures w.store.payments[p].status.PaymentRefunded?
    ensures Perform(w, ReleaseSeats(b)).store.payments == w.store.payments
  {
  }

  lemma FreesOnlyWhenReleasing(w: World, a: Action, b: BookingId)
    requires b in w.store.bookings && w.store.bookings[b].status.BookingConfirmed?
    requires var t := Perform(w, a).store; b in t.bookings && !t.bookings[b].IsActive()
    requires !a.Webhook?
    ensures a == ReleaseSeats(b) && InPhase(w, b, Releasing)
  {
    if a.Background? && (a.step.StepHold? || a.step.StepSweep? || a.step.StepTick?) {
      MoneyInvariant.BackgroundOnlyExpires(w.store, a.step);
    }
  }

  lemma WebhookFreesAfterRefund(w: World, ev: PaymentEvent, b: BookingId, p: PaymentId, q: PaymentId)
    requires b in w.store.bookings && w.store.bookings[b].status.BookingConfirmed?
    requires p in w.store.payments && w.store.payments[p].booking == b && w.store.payments[p].IsCaptured()
    requires ByRef(w.store.payments, ev.key.provider, ev.ref) == Some(q)
    requires w.store.payments[q].booking in w.store.bookings && PaymentFits(w, q)
    requires CapturedAlone(w.store.payments)
    requires var t := Perform(w, Webhook(ev)).store; b in t.bookings && !t.bookings[b].IsActive()
    ensures var t := Perform(w, Webhook(ev)).store; p in t.payments && t.payments[p].status.PaymentRefunded?
  {
    var r := Recorded(w.store, ev.key, Some(q));
    Invariant.ActIsUpdateThenBooking(r, ev, q);
    if Act(r, ev, q).result.Ok? {
      MoneyInvariant.ActedShape(r, ev, q);
    }
  }
}
