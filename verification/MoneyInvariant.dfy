/** The money invariant survives every action of every interleaving of calls. */
module MoneyInvariant {
  import opened Domain
  import opened Store
  import opened Steps
  import opened Money
  import Invariant
  import Histories

  // -------------------------------------------------------------------- frames

  /** Everything but one booking, its payments and its call stays. */
  ghost predicate TouchesOnly(w: World, t: World, b: BookingId) {
    && t.store.bookings.Keys == w.store.bookings.Keys
    && (forall c | c in w.store.bookings && c != b :: t.store.bookings[c] == w.store.bookings[c])
    && w.store.payments.Keys <= t.store.payments.Keys
    && (forall p | p in w.store.payments && w.store.payments[p].booking != b ::
          t.store.payments[p] == w.store.payments[p])
    && (forall p | p in t.store.payments && (p !in w.store.payments || w.store.payments[p].booking == b) ::
          t.store.payments[p].booking == b)
    && (forall c | c != b :: PhaseOf(t, c) == PhaseOf(w, c))
    && t.verdicts == w.verdicts
    && (forall p | OrphanRefused(w.refunds, p) :: OrphanRefused(t.refunds, p))
  }

  ghost predicate FitsAt(t: World, b: BookingId) {
    && b in t.store.bookings
    && BookingFits(t, b)
    && (forall p | p in t.store.payments && t.store.payments[p].booking == b :: PaymentFits(t, p))
    && (forall p, q | p in t.store.payments && q in t.store.payments && p != q
                      && t.store.payments[p].booking == b && t.store.payments[q].booking == b
                      && t.store.payments[p].IsCaptured() ::
          !t.store.payments[q].IsCaptured() && !t.store.payments[q].IsOpen())
  }

  lemma OthersFit(w: World, t: World, b: BookingId, p: PaymentId)
    requires AllFit(w) && TouchesOnly(w, t, b)
    requires p in w.store.payments && w.store.payments[p].booking != b
    ensures p in t.store.payments && t.store.payments[p].booking in t.store.bookings && PaymentFits(t, p)
  {
    assert PaymentFits(w, p);
  }

  lemma OtherBookingFits(w: World, t: World, b: BookingId, c: BookingId)
    requires TouchesOnly(w, t, b) && c in w.store.bookings && c != b && BookingFits(w, c)
    ensures c in t.store.bookings && BookingFits(t, c)
  {
    if w.store.bookings[c].status.BookingConfirmed? {
      var p :| p in w.store.payments && w.store.payments[p].booking == c && w.store.payments[p].IsCaptured();
      assert t.store.payments[p] == w.store.payments[p];
    }
  }

  lemma OthersAlone(w: World, t: World, b: BookingId)
    requires CapturedAlone(w.store.payments) && TouchesOnly(w, t, b) && FitsAt(t, b)
    ensures CapturedAlone(t.store.payments)
  {
    forall p, q | p in t.store.payments && q in t.store.payments && p != q
                  && t.store.payments[p].booking == t.store.payments[q].booking && t.store.payments[p].IsCaptured()
      ensures !t.store.payments[q].IsCaptured() && !t.store.payments[q].IsOpen()
    {
      if t.store.payments[p].booking != b {
        assert p in w.store.payments && q in w.store.payments;
      }
    }
  }

  lemma RefundsStayFit(s: State, t: State, refunds: seq<RefundCall>)
    requires RefundsFit(s, refunds) && Histories.Evolves(s, t)
    ensures RefundsFit(t, refunds)
  {
  }

  /** An action on one booking only has to get that booking right. */
  lemma Localized(w: World, t: World, b: BookingId)
    requires Sound(w) && TouchesOnly(w, t, b) && FitsAt(t, b)
    requires Valid(t.store) && RefundsFit(t.store, t.refunds)
    ensures Sound(t)
  {
    forall p | p in t.store.payments ensures t.store.payments[p].booking in t.store.bookings && PaymentFits(t, p) {
      if t.store.payments[p].booking != b {
        OthersFit(w, t, b, p);
      }
    }
    forall c | c in t.store.bookings ensures BookingFits(t, c) {
      if c != b {
        OtherBookingFits(w, t, b, c);
      }
    }
    OthersAlone(w, t, b);
    forall c | c in t.calls ensures c in t.store.bookings {
      assert PhaseOf(t, c).Some?;
      assert c == b || PhaseOf(w, c).Some?;
    }
  }

  // --------------------------------------------------------------- background

  /** Holds, sweeps and the clock only ever expire held bookings and add new ones. */
  ghost predicate OnlyExpires(s: State, t: State) {
    && t.payments == s.payments
    && (forall b | b in s.bookings ::
          b in t.bookings
          && (t.bookings[b] == s.bookings[b]
              || (s.bookings[b].status.BookingHeld?
                  && t.bookings[b] == s.bookings[b].(status := BookingExpired, expiry := None))))
    && (forall b | b in t.bookings && b !in s.bookings :: t.bookings[b].status.BookingHeld?)
  }

  lemma BackgroundOnlyExpires(s: State, step: Step)
    requires step.StepHold? || step.StepSweep? || step.StepTick?
    ensures OnlyExpires(s, Apply(s, step))
  {
  }

  lemma ExpiredPaymentsFit(w: World, t: World, p: PaymentId)
    requires AllFit(w) && OnlyExpires(w.store, t.store) && t == w.(store := t.store)
    requires p in t.store.payments
    ensures t.store.payments[p].booking in t.store.bookings && PaymentFits(t, p)
  {
    assert PaymentFits(w, p);
  }

  lemma ExpiredBookingFits(w: World, t: World, b: BookingId)
    requires OnlyExpires(w.store, t.store) && t == w.(store := t.store)
    requires w.calls.Keys <= w.store.bookings.Keys && b in t.store.bookings
    requires b in w.store.bookings ==> BookingFits(w, b)
    ensures BookingFits(t, b)
  {
  }

  lemma BackgroundKeepsSound(w: World, step: Step)
    requires Sound(w)
    requires step.StepHold? || step.StepSweep? || step.StepTick?
    ensures Sound(w.(store := Apply(w.store, step)))
  {
    ExpiringKeepsSound(w, Apply(w.store, step)) by {
      Invariant.StepKeepsValid(w.store, step);
      Histories.StepEvolves(w.store, step);
      BackgroundOnlyExpires(w.store, step);
    }
  }

  lemma ExpiringKeepsSound(w: World, s: State)
    requires Sound(w) && Valid(s) && OnlyExpires(w.store, s) && Histories.Evolves(w.store, s)
    ensures Sound(w.(store := s))
  {
    var t := w.(store := s);
    RefundsStayFit(w.store, s, w.refunds);
    forall p | p in s.payments ensures s.payments[p].booking in s.bookings && PaymentFits(t, p) {
      ExpiredPaymentsFit(w, t, p);
    }
    forall b | b in s.bookings ensures BookingFits(t, b) {
      ExpiredBookingFits(w, t, b);
    }
  }

  lemma DecideKeepsSound(w: World, charge: Charge, verdict: Verdict)
    requires Sound(w) && charge !in w.verdicts
    ensures Sound(w.(verdicts := w.verdicts[charge := verdict]))
  {
  }

  // ------------------------------------------------------- calls on one booking

  /** Moving a call on, without touching the tables. */
  lemma PhaseKeepsSound(w: World, t: World, b: BookingId)
    requires Sound(w) && b in w.store.bookings
    requires t == w.(calls := t.calls) && (forall c | c != b :: PhaseOf(t, c) == PhaseOf(w, c))
    requires FitsAt(t, b)
    ensures Sound(t)
  {
    Localized(w, t, b);
  }

  /** Changing the tables at one booking. */
  lemma StoreKeepsSound(w: World, t: World, b: BookingId)
    requires Sound(w) && t.refunds == w.refunds
    requires TouchesOnly(w, t, b) && FitsAt(t, b)
    requires Valid(t.store) && Histories.Evolves(w.store, t.store)
    ensures Sound(t)
  {
    RefundsStayFit(w.store, t.store, w.refunds);
    Localized(w, t, b);
  }

  lemma SoundAt(w: World, b: BookingId)
    requires Sound(w) && b in w.store.bookings
    ensures FitsAt(w, b)
  {
  }

  lemma SoundIsValid(w: World)
    requires Sound(w)
    ensures Valid(w.store)
  {
  }

  // The seats go back: by Release, or at the end of CancelBooking.

  lemma CancelTouchesOnly(w: World, b: BookingId, calls: map<BookingId, Phase>)
    requires forall c | c != b :: (c in calls <==> c in w.calls) && (c in calls ==> calls[c] == w.calls[c])
    ensures TouchesOnly(w, w.(store := Cancel(w.store, b, BookingCancelled).state, calls := calls), b)
  {
  }

  lemma CancelFits(w: World, b: BookingId)
    requires FitsAt(w, b)
    requires w.store.bookings[b].status.BookingHeld? || PhaseOf(w, b) == Some(Releasing)
    requires PhaseOf(w, b) in {None, Some(Releasing)}
    ensures FitsAt(Ends(w.(store := Cancel(w.store, b, BookingCancelled).state), b), b)
  {
    var t := Ends(w.(store := Cancel(w.store, b, BookingCancelled).state), b);
    forall p | p in t.store.payments && t.store.payments[p].booking == b ensures PaymentFits(t, p) {
      assert PaymentFits(w, p);
    }
  }

  lemma CancelKeepsSound(w: World, b: BookingId)
    requires Sound(w) && b in w.store.bookings
    requires w.store.bookings[b].status.BookingHeld? || PhaseOf(w, b) == Some(Releasing)
    requires PhaseOf(w, b) in {None, Some(Releasing)}
    ensures Sound(Ends(w.(store := Cancel(w.store, b, BookingCancelled).state), b))
  {
    var t := Ends(w.(store := Cancel(w.store, b, BookingCancelled).state), b);
    SoundAt(w, b);
    SoundIsValid(w);
    CancelTouchesOnly(w, b, w.calls - {b});
    CancelFits(w, b);
    StoreKeepsSound(w, t, b) by {
      Invariant.CancelKeepsValid(w.store, b, BookingCancelled);
      Histories.CancelEvolves(w.store, b);
    }
  }

  lemma ReleaseKeepsSound(w: World, b: BookingId, user: UserId)
    requires Sound(w)
    ensures Sound(Perform(w, Release(b, user)))
  {
    if Perform(w, Release(b, user)) != w {
      CancelKeepsSound(w, b);
      assert w.calls - {b} == w.calls;
    }
  }

  lemma ReleaseSeatsKeepsSound(w: World, b: BookingId)
    requires Sound(w)
    ensures Sound(Perform(w, ReleaseSeats(b)))
  {
    if Perform(w, ReleaseSeats(b)) != w {
      CancelKeepsSound(w, b);
    }
  }

  // Checkout.

  lemma BeginCheckoutKeepsSound(w: World, b: BookingId, user: UserId)
    requires Sound(w)
    ensures Sound(Perform(w, BeginCheckout(b, user)))
  {
    var t := Perform(w, BeginCheckout(b, user));
    if t != w {
      SoundAt(w, b);
      PhaseKeepsSound(w, t, b);
    }
  }

  lemma ExtendTouchesOnly(w: World, t: World, b: BookingId, until: Time)
    requires t == w.(store := ExtendHold(w.store, b, until).state, calls := t.calls)
    requires forall c | c != b :: PhaseOf(t, c) == PhaseOf(w, c)
    ensures TouchesOnly(w, t, b)
  {
  }

  lemma ExtendFits(w: World, t: World, b: BookingId, until: Time)
    requires FitsAt(w, b) && PhaseOf(w, b) == Some(Extending)
    requires t == w.(store := ExtendHold(w.store, b, until).state, calls := t.calls)
    requires PhaseOf(t, b) in {None, Some(Charging)}
    ensures FitsAt(t, b)
  {
    forall p | p in t.store.payments && t.store.payments[p].booking == b ensures PaymentFits(t, p) {
      assert PaymentFits(w, p);
    }
  }

  lemma ExtendedKeepsSound(w: World, t: World, b: BookingId, until: Time)
    requires Sound(w) && InPhase(w, b, Extending)
    requires t == w.(store := ExtendHold(w.store, b, until).state, calls := t.calls)
    requires PhaseOf(t, b) in {None, Some(Charging)}
    requires forall c | c != b :: PhaseOf(t, c) == PhaseOf(w, c)
    ensures Sound(t)
  {
    SoundIsValid(w);
    ExtendTouchesOnly(w, t, b, until);
    ExtendFits(w, t, b, until) by { SoundAt(w, b); }
    StoreKeepsSound(w, t, b) by {
      Invariant.ExtendKeepsValid(w.store, b, until);
      Histories.ExtendEvolves(w.store, b, until);
    }
  }

  lemma ExtendKeepsSound(w: World, b: BookingId)
    requires Sound(w)
    ensures Sound(Perform(w, ExtendForCheckout(b)))
  {
    if InPhase(w, b, Extending) {
      ExtendedKeepsSound(w, Perform(w, ExtendForCheckout(b)), b, w.store.now + w.setup.window);
    }
  }

  lemma NewChargeFits(w: World, b: BookingId, p: PaymentId, row: Payment)
    requires InPhase(w, b, Charging) && BookingFits(w, b)
    requires row.booking == b && row.status.PaymentPending? && row.amount == w.store.bookings[b].total
    requires p !in w.store.payments
    ensures PaymentFits(Ends(w.(store := w.store.(payments := w.store.payments[p := row])), b), p)
  {
  }

  lemma CreateFits(w: World, b: BookingId, p: PaymentId, row: Payment)
    requires FitsAt(w, b) && InPhase(w, b, Charging)
    requires row.booking == b && row.status.PaymentPending? && row.amount == w.store.bookings[b].total
    requires !HasPaymentKey(w.store.payments, row.key)
    ensures FitsAt(Ends(w.(store := CreatePayment(w.store, p, row).state), b), b)
  {
    var t := Ends(w.(store := CreatePayment(w.store, p, row).state), b);
    forall q | q in t.store.payments && t.store.payments[q].booking == b ensures PaymentFits(t, q) {
      if q in w.store.payments {
        assert PaymentFits(w, q);
      } else {
        NewChargeFits(w, b, p, row);
      }
    }
  }

  lemma CreateTouchesOnly(w: World, b: BookingId, p: PaymentId, row: Payment)
    requires row.booking == b && !HasPaymentKey(w.store.payments, row.key)
    ensures TouchesOnly(w, Ends(w.(store := CreatePayment(w.store, p, row).state), b), b)
  {
  }

  lemma ChargedKeepsSound(w: World, b: BookingId, p: PaymentId, row: Payment)
    requires Sound(w) && InPhase(w, b, Charging)
    requires row.booking == b && row.status.PaymentPending? && row.amount == w.store.bookings[b].total
    requires !HasPaymentKey(w.store.payments, row.key)
    ensures Sound(Ends(w.(store := CreatePayment(w.store, p, row).state), b))
  {
    CreateFits(w, b, p, row) by {
      SoundAt(w, b);
    }
    CreateTouchesOnly(w, b, p, row);
    assert Valid(CreatePayment(w.store, p, row).state) by {
      SoundIsValid(w);
      Invariant.CreateKeepsValid(w.store, p, row);
    }
    Histories.CreateEvolves(w.store, p, row);
    StoreKeepsSound(w, Ends(w.(store := CreatePayment(w.store, p, row).state), b), b);
  }

  lemma UnchargedKeepsSound(w: World, b: BookingId)
    requires Sound(w) && InPhase(w, b, Charging)
    ensures Sound(Ends(w, b))
  {
    SoundAt(w, b);
    PhaseKeepsSound(w, Ends(w, b), b);
  }

  lemma CreateKeepsSound(w: World, b: BookingId, intent: Option<string>, p: PaymentId, key: string)
    requires Sound(w)
    ensures Sound(Perform(w, CreateCharge(b, intent, p, key)))
  {
    if InPhase(w, b, Charging) {
      if intent.None? {
        UnchargedKeepsSound(w, b);
      } else if !HasPaymentKey(w.store.payments, key) {
        ChargedKeepsSound(w, b, p, Payment(b, w.setup.provider, intent.value, PaymentPending,
                                           w.store.bookings[b].total, key));
      }
    }
  }

  // Cancellation.

  lemma BeginCancelFits(w: World, b: BookingId)
    requires FitsAt(w, b) && b !in w.calls && w.store.bookings[b].IsActive()
    ensures FitsAt(Hangs(w, b, CancellingCharge), b)
  {
    var t := Hangs(w, b, CancellingCharge);
    forall q | q in t.store.payments && t.store.payments[q].booking == b ensures PaymentFits(t, q) {
      assert PaymentFits(w, q);
    }
  }

  lemma BeginCancelKeepsSound(w: World, b: BookingId, user: UserId)
    requires Sound(w)
    ensures Sound(Perform(w, BeginCancel(b, user)))
  {
    var t := Perform(w, BeginCancel(b, user));
    if t != w {
      SoundAt(w, b);
      BeginCancelFits(w, b);
      PhaseKeepsSound(w, t, b);
    }
  }

  lemma UpdateTouchesOnly(w: World, t: World, p: PaymentId, status: PaymentStatus)
    requires p in w.store.payments
    requires t == w.(store := UpdatePayment(w.store, p, status).state, calls := t.calls, refunds := t.refunds)
    requires forall c | c != w.store.payments[p].booking :: PhaseOf(t, c) == PhaseOf(w, c)
    requires forall q | OrphanRefused(w.refunds, q) :: OrphanRefused(t.refunds, q)
    ensures TouchesOnly(w, t, w.store.payments[p].booking)
  {
  }

  lemma CancelChargeFits(w: World, b: BookingId)
    requires FitsAt(w, b) && InPhase(w, b, CancellingCharge)
    ensures FitsAt(Perform(w, CancelCharge(b)), b)
  {
    var t := Perform(w, CancelCharge(b));
    forall q | q in t.store.payments && t.store.payments[q].booking == b ensures PaymentFits(t, q) {
      assert PaymentFits(w, q);
    }
    if t.store.bookings[b].status.BookingConfirmed? {
      var q :| q in w.store.payments && w.store.payments[q].booking == b && w.store.payments[q].IsCaptured();
      assert t.store.payments[q] == w.store.payments[q];
    }
  }

  lemma CancelChargeKeepsSound(w: World, b: BookingId)
    requires Sound(w)
    ensures Sound(Perform(w, CancelCharge(b)))
  {
    var t := Perform(w, CancelCharge(b));
    if InPhase(w, b, CancellingCharge) {
      SoundAt(w, b);
      SoundIsValid(w);
      CancelChargeFits(w, b);
      var p := OpenPayment(w.store.payments, b);
      if p.None? {
        PhaseKeepsSound(w, t, b);
      } else {
        UpdateTouchesOnly(w, t, p.value, PaymentCancelled);
        StoreKeepsSound(w, t, b) by {
          Invariant.UpdateKeepsValid(w.store, p.value, PaymentCancelled);
          Histories.UpdateEvolves(w.store, p.value, PaymentCancelled);
        }
      }
    }
  }

  // Refunds.

  lemma AppendRefund(s: State, t: State, refunds: seq<RefundCall>, c: RefundCall)
    requires RefundsFit(s, refunds) && Histories.Evolves(s, t)
    requires RefundsFit(t, [c])
    requires c.payment in s.payments && s.payments[c.payment].status.PaymentSucceeded?
    ensures RefundsFit(t, refunds + [c])
  {
    RefundsStayFit(s, t, refunds);
    var all := refunds + [c];
    assert [c][0] == c;
    forall i | 0 <= i < |all| ensures all[i] == c || (i < |refunds| && all[i] == refunds[i]) {}
    forall i | 0 <= i < |refunds| && refunds[i].accepted ensures refunds[i].payment != c.payment {
      assert s.payments[refunds[i].payment].status.PaymentRefunded?;
    }
  }

  lemma RefusedStaysRefused(refunds: seq<RefundCall>, c: RefundCall, p: PaymentId)
    ensures OrphanRefused(refunds + [c], p) <==>
            OrphanRefused(refunds, p) || (c.payment == p && c.orphan && !c.accepted)
  {
    var all := refunds + [c];
    assert all[|refunds|] == c;
    if OrphanRefused(refunds, p) {
      var i :| 0 <= i < |refunds| && refunds[i].payment == p && refunds[i].orphan && !refunds[i].accepted;
      assert all[i] == refunds[i];
    }
  }

  /** The world after a refund request for `p` was answered. */
  ghost predicate Refunds(w: World, t: World, p: PaymentId, c: RefundCall) {
    && p in w.store.payments && w.store.payments[p].status.PaymentSucceeded?
    && c == AsksRefund(w, p, c.orphan, c.accepted)
    && t == w.(store := if c.accepted then UpdatePayment(w.store, p, PaymentRefunded).state else w.store,
               refunds := w.refunds + [c],
               calls := t.calls)
    && (forall d | d != w.store.payments[p].booking :: PhaseOf(t, d) == PhaseOf(w, d))
  }

  lemma RefundTouchesOnly(w: World, t: World, p: PaymentId, c: RefundCall)
    requires Refunds(w, t, p, c)
    ensures TouchesOnly(w, t, w.store.payments[p].booking)
  {
    forall q | OrphanRefused(w.refunds, q) ensures OrphanRefused(t.refunds, q) {
      RefusedStaysRefused(w.refunds, c, q);
    }
  }

  lemma RefundRecorded(w: World, t: World, p: PaymentId, c: RefundCall)
    requires RefundsFit(w.store, w.refunds) && Refunds(w, t, p, c)
    requires c.orphan ==> w.store.payments[p].booking in w.store.bookings
                          && !w.store.bookings[w.store.payments[p].booking].IsActive()
    ensures RefundsFit(t.store, t.refunds)
  {
    Histories.UpdateEvolves(w.store, p, PaymentRefunded);
    assert Histories.Evolves(w.store, t.store);
    AppendRefund(w.store, t.store, w.refunds, c);
  }

  lemma RefundKeepsSound(w: World, t: World, p: PaymentId, c: RefundCall)
    requires Sound(w) && Refunds(w, t, p, c)
    requires FitsAt(t, w.store.payments[p].booking)
    requires c.orphan ==> w.store.payments[p].booking in w.store.bookings
                          && !w.store.bookings[w.store.payments[p].booking].IsActive()
    ensures Sound(t)
  {
    RefundTouchesOnly(w, t, p, c);
    assert Valid(t.store) by {
      SoundIsValid(w);
      Invariant.UpdateKeepsValid(w.store, p, PaymentRefunded);
    }
    RefundRecorded(w, t, p, c);
    Localized(w, t, w.store.payments[p].booking);
  }

  lemma RefundFits(w: World, t: World, p: PaymentId, c: RefundCall, b: BookingId)
    requires FitsAt(w, b) && Refunds(w, t, p, c) && w.store.payments[p].booking == b
    requires || (!c.orphan && PhaseOf(w, b) == Some(Refunding)
                 && PhaseOf(t, b) == if c.accepted then Some(Releasing) else None)
             || (c.orphan && PhaseOf(w, b) == Some(RefundingOrphan(p)) && PhaseOf(t, b) == None)
    ensures FitsAt(t, b)
    ensures c.orphan ==> !w.store.bookings[b].IsActive()
  {
    assert PaymentFits(w, p);
    forall q | q in t.store.payments && t.store.payments[q].booking == b ensures PaymentFits(t, q) {
      assert PaymentFits(w, q);
      RefusedStaysRefused(w.refunds, c, q);
    }
    assert t.store.payments[p].IsCaptured();
  }

  lemma NothingToRefundFits(w: World, b: BookingId)
    requires FitsAt(w, b) && PhaseOf(w, b) == Some(Refunding) && !HasSucceeded(w.store.payments, b)
    ensures FitsAt(Hangs(w, b, Releasing), b)
  {
    var t := Hangs(w, b, Releasing);
    forall q | q in t.store.payments && t.store.payments[q].booking == b
      ensures PaymentFits(t, q) && (t.store.payments[q].IsCaptured() ==> !t.store.bookings[b].status.BookingConfirmed?)
    {
      assert PaymentFits(w, q);
    }
  }

  lemma RefundAtKeepsSound(w: World, t: World, p: PaymentId, c: RefundCall, b: BookingId)
    requires Sound(w) && Refunds(w, t, p, c) && w.store.payments[p].booking == b && b in w.store.bookings
    requires || (!c.orphan && PhaseOf(w, b) == Some(Refunding)
                 && PhaseOf(t, b) == if c.accepted then Some(Releasing) else None)
             || (c.orphan && PhaseOf(w, b) == Some(RefundingOrphan(p)) && PhaseOf(t, b) == None)
    ensures Sound(t)
  {
    assert FitsAt(t, b) && (c.orphan ==> !w.store.bookings[b].IsActive()) by {
      SoundAt(w, b);
      RefundFits(w, t, p, c, b);
    }
    RefundKeepsSound(w, t, p, c);
  }

  lemma NothingToRefundKeepsSound(w: World, b: BookingId)
    requires Sound(w) && InPhase(w, b, Refunding) && !HasSucceeded(w.store.payments, b)
    ensures Sound(Hangs(w, b, Releasing))
  {
    assert FitsAt(Hangs(w, b, Releasing), b) by {
      SoundAt(w, b);
      NothingToRefundFits(w, b);
    }
    PhaseKeepsSound(w, Hangs(w, b, Releasing), b);
  }

  lemma RefundChargeRefunds(w: World, b: BookingId, accepted: bool, p: PaymentId)
    requires InPhase(w, b, Refunding) && SucceededPayment(w.store.payments, b) == Some(p)
    ensures var t := Perform(w, RefundCharge(b, accepted));
            && Refunds(w, t, p, AsksRefund(w, p, false, accepted))
            && PhaseOf(t, b) == if accepted then Some(Releasing) else None
  {
  }

  lemma RefundChargeKeepsSound(w: World, b: BookingId, accepted: bool)
    requires Sound(w)
    ensures Sound(Perform(w, RefundCharge(b, accepted)))
  {
    if InPhase(w, b, Refunding) {
      var p := SucceededPayment(w.store.payments, b);
      if p.None? {
        NothingToRefundKeepsSound(w, b);
      } else {
        RefundChargeRefunds(w, b, accepted, p.value);
        RefundAtKeepsSound(w, Perform(w, RefundCharge(b, accepted)), p.value,
                           AsksRefund(w, p.value, false, accepted), b);
      }
    }
  }

  lemma RefundOrphanRefunds(w: World, b: BookingId, accepted: bool, p: PaymentId)
    requires PhaseOf(w, b) == Some(RefundingOrphan(p)) && b in w.store.bookings && BookingFits(w, b)
    ensures var t := Perform(w, RefundOrphan(b, accepted));
            && p in w.store.payments && w.store.payments[p].booking == b
            && Refunds(w, t, p, AsksRefund(w, p, true, accepted)) && PhaseOf(t, b) == None
  {
  }

  lemma RefundOrphanKeepsSound(w: World, b: BookingId, accepted: bool)
    requires Sound(w)
    ensures Sound(Perform(w, RefundOrphan(b, accepted)))
  {
    if b in w.calls && w.calls[b].RefundingOrphan? {
      var p := w.calls[b].payment;
      RefundOrphanRefunds(w, b, accepted, p);
      RefundAtKeepsSound(w, Perform(w, RefundOrphan(b, accepted)), p, AsksRefund(w, p, true, accepted), b);
    }
  }

  // Webhooks.

  lemma RecordingKeepsSound(w: World, key: EventKey, p: Option<PaymentId>)
    requires Sound(w) && (p.Some? ==> p.value in w.store.payments)
    ensures Sound(w.(store := Recorded(w.store, key, p)))
  {
    var t := w.(store := Recorded(w.store, key, p));
    assert Valid(t.store) by {
      SoundIsValid(w);
      Invariant.PaymentSideOnly(w.store, t.store);
    }
    RecordingKeepsFits(w, t);
  }

  lemma EventsDoNotFit(w: World, t: World)
    requires AllFit(w) && forall b | b in w.store.bookings :: BookingFits(w, b)
    requires t == w.(store := w.store.(events := t.store.events))
    ensures AllFit(t) && forall b | b in t.store.bookings :: BookingFits(t, b)
  {
    forall q | q in t.store.payments ensures t.store.payments[q].booking in t.store.bookings && PaymentFits(t, q) {
      assert PaymentFits(w, q);
    }
    forall b | b in t.store.bookings ensures BookingFits(t, b) {
      assert BookingFits(w, b);
    }
  }

  lemma RecordingKeepsFits(w: World, t: World)
    requires Sound(w) && Valid(t.store)
    requires t == w.(store := w.store.(events := t.store.events))
    ensures Sound(t)
  {
    EventsDoNotFit(w, t);
  }

  /** The world after an event was acted on. */
  ghost function Acted(w: World, ev: PaymentEvent, p: PaymentId): World
    requires p in w.store.payments && w.store.payments[p].booking in w.store.bookings
  {
    var b := w.store.payments[p].booking;
    var t := w.(store := Act(w.store, ev, p).state);
    if ev.kind.EventSucceeded? && !w.store.bookings[b].IsActive() then Hangs(t, b, RefundingOrphan(p)) else t
  }

  /** The rows an event leaves behind. */
  function PaidRow(row: Payment, kind: EventType): Payment {
    match kind
    case EventSucceeded => if row.IsOpen() then row.(status := PaymentSucceeded) else row
    case EventFailed => if row.IsOpen() then row.(status := PaymentFailed) else row
    case EventCancelled => if row.IsOpen() then row.(status := PaymentCancelled) else row
    case EventRefunded =>
      if row.IsOpen() || row.status.PaymentSucceeded? then row.(status := PaymentRefunded) else row
    case EventOther => row
  }

  function SettledBooking(row: Booking, kind: EventType): Booking {
    if kind.EventSucceeded? && row.status.BookingHeld? then row.(status := BookingConfirmed, expiry := None)
    else if kind.EventRefunded? && row.IsActive() then row.(status := BookingCancelled, expiry := None)
    else row
  }

  lemma ActedShape(s: State, ev: PaymentEvent, p: PaymentId)
    requires p in s.payments && s.payments[p].booking in s.bookings
    requires Act(s, ev, p).result.Ok?
    ensures var t, b := Act(s, ev, p).state, s.payments[p].booking;
            && t.payments == s.payments[p := PaidRow(s.payments[p], ev.kind)]
            && t.bookings == s.bookings[b := SettledBooking(s.bookings[b], ev.kind)]
  {
    Invariant.ActIsUpdateThenBooking(s, ev, p);
    var u, b := Invariant.Settled(s, ev.kind, p), s.payments[p].booking;
    assert u.bookings == s.bookings;
    assert u.payments == s.payments[p := PaidRow(s.payments[p], ev.kind)];
    assert Invariant.Followed(u, ev.kind, b).bookings == s.bookings[b := SettledBooking(s.bookings[b], ev.kind)];
  }

  /** `t` is `w` with the payment and its booking rewritten as the event says. */
  ghost predicate Rewritten(w: World, t: World, kind: EventType, p: PaymentId, b: BookingId) {
    && p in w.store.payments && w.store.payments[p].booking == b && b in w.store.bookings && b !in w.calls
    && t.store.payments == w.store.payments[p := PaidRow(w.store.payments[p], kind)]
    && t.store.bookings == w.store.bookings[b := SettledBooking(w.store.bookings[b], kind)]
    && t.verdicts == w.verdicts && t.refunds == w.refunds
    && t.calls == (if kind.EventSucceeded? && !w.store.bookings[b].IsActive()
                   then w.calls[b := RefundingOrphan(p)] else w.calls)
  }

  predicate Means(kind: EventType, verdict: Option<Verdict>) {
    match kind
    case EventSucceeded => verdict == Some(Captured)
    case EventRefunded => verdict == Some(Captured)
    case EventFailed => verdict == Some(Declined)
    case EventCancelled => verdict == Some(Voided)
    case EventOther => true
  }

  lemma RewrittenTouchesOnly(w: World, t: World, kind: EventType, p: PaymentId, b: BookingId)
    requires Rewritten(w, t, kind, p, b)
    ensures TouchesOnly(w, t, b)
  {
  }

  lemma RewrittenPaymentFits(w: World, t: World, kind: EventType, p: PaymentId, b: BookingId, q: PaymentId)
    requires Rewritten(w, t, kind, p, b) && Means(kind, VerdictOn(w, w.store.payments[p]))
    requires kind.EventSucceeded? ==> w.store.payments[p].IsOpen() || w.store.payments[p].status.PaymentSucceeded?
    requires q in w.store.payments && w.store.payments[q].booking == b
    requires PaymentFits(w, p) && PaymentFits(w, q)
    requires q != p && w.store.payments[q].IsCaptured() ==> !w.store.payments[p].IsCaptured() && !w.store.payments[p].IsOpen()
    ensures PaymentFits(t, q)
  {
  }

  lemma RewrittenFits(w: World, t: World, kind: EventType, p: PaymentId, b: BookingId)
    requires Rewritten(w, t, kind, p, b) && Means(kind, VerdictOn(w, w.store.payments[p]))
    requires kind.EventSucceeded? ==> w.store.payments[p].IsOpen() || w.store.payments[p].status.PaymentSucceeded?
    requires FitsAt(w, b) && OneOpenPayment(w.store)
    ensures FitsAt(t, b)
  {
    forall q | q in t.store.payments && t.store.payments[q].booking == b ensures PaymentFits(t, q) {
      RewrittenPaymentFits(w, t, kind, p, b, q);
    }
    RewrittenBookingFits(w, t, kind, p, b);
  }

  lemma RewrittenBookingFits(w: World, t: World, kind: EventType, p: PaymentId, b: BookingId)
    requires Rewritten(w, t, kind, p, b) && BookingFits(w, b)
    requires kind.EventSucceeded? ==> w.store.payments[p].IsOpen() || w.store.payments[p].status.PaymentSucceeded?
    ensures BookingFits(t, b)
  {
    assert t.store.payments[p] == PaidRow(w.store.payments[p], kind);
    if w.store.bookings[b].status.BookingConfirmed? {
      var q :| q in w.store.payments && w.store.payments[q].booking == b && w.store.payments[q].IsCaptured();
      assert q in t.store.payments && t.store.payments[q].IsCaptured();
    }
  }

  lemma ActedKeepsSound(w: World, ev: PaymentEvent, p: PaymentId)
    requires Sound(w) && p in w.store.payments && w.store.payments[p].booking in w.store.bookings
    requires w.store.payments[p].booking !in w.calls
    requires Means(ev.kind, VerdictOn(w, w.store.payments[p]))
    requires Act(w.store, ev, p).result.Ok?
    ensures Sound(Acted(w, ev, p))
  {
    var t, b := Acted(w, ev, p), w.store.payments[p].booking;
    assert Rewritten(w, t, ev.kind, p, b) by { ActedShape(w.store, ev, p); }
    RewrittenTouchesOnly(w, t, ev.kind, p, b);
    assert FitsAt(t, b) by {
      SoundAt(w, b);
      SoundIsValid(w);
      Invariant.ActIsUpdateThenBooking(w.store, ev, p);
      RewrittenFits(w, t, ev.kind, p, b);
    }
    StoreKeepsSound(w, t, b) by {
      SoundIsValid(w);
      Invariant.ActKeepsValid(w.store, ev, p);
      Histories.ActEvolves(w.store, ev, p);
    }
  }

  lemma WebhookKeepsSound(w: World, ev: PaymentEvent)
    requires Sound(w)
    ensures Sound(Perform(w, Webhook(ev)))
  {
    var p := ByRef(w.store.payments, ev.key.provider, ev.ref);
    var t := Perform(w, Webhook(ev));
    if t != w {
      var r := w.(store := Recorded(w.store, ev.key, p));
      RecordingKeepsSound(w, ev.key, p);
      if p.Some? {
        assert PaymentFits(w, p.value);
        Invariant.ActIsUpdateThenBooking(r.store, ev, p.value);
        ActedKeepsSound(r, ev, p.value);
        assert t == Acted(r, ev, p.value);
      }
    }
  }

  // ----------------------------------------------------------------- every run

  lemma ActionKeepsSound(w: World, a: Action)
    requires Sound(w)
    ensures Sound(Perform(w, a))
  {
    match a
    case Background(step) =>
      if step.StepHold? || step.StepSweep? || step.StepTick? { BackgroundKeepsSound(w, step); }
    case Decide(charge, verdict) => if charge !in w.verdicts { DecideKeepsSound(w, charge, verdict); }
    case Release(b, user) => ReleaseKeepsSound(w, b, user);
    case BeginCheckout(b, user) => BeginCheckoutKeepsSound(w, b, user);
    case ExtendForCheckout(b) => ExtendKeepsSound(w, b);
    case CreateCharge(b, intent, p, key) => CreateKeepsSound(w, b, intent, p, key);
    case Webhook(ev) => WebhookKeepsSound(w, ev);
    case RefundOrphan(b, accepted) => RefundOrphanKeepsSound(w, b, accepted);
    case BeginCancel(b, user) => BeginCancelKeepsSound(w, b, user);
    case CancelCharge(b) => CancelChargeKeepsSound(w, b);
    case RefundCharge(b, accepted) => RefundChargeKeepsSound(w, b, accepted);
    case ReleaseSeats(b) => ReleaseSeatsKeepsSound(w, b);
  }

  lemma {:induction false} PlayKeepsSound(w: World, actions: seq<Action>)
    requires Sound(w)
    ensures Sound(Play(w, actions))
    decreases |actions|
  {
    if actions != [] {
      ActionKeepsSound(w, actions[0]);
      PlayKeepsSound(Perform(w, actions[0]), actions[1..]);
    }
  }

  lemma OpeningIsSound(setup: Setup)
    ensures Sound(Opening(setup))
  {
  }
}
