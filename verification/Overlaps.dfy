/** What overlapping calls can do that calls one after the other cannot: three runs
    of the unrestrained calls, every check of the code included, and the exact
    condition behind each. */
module Overlaps {
  import opened Domain
  import opened Store
  import opened Steps
  import opened Concurrent
  import Guards
  import Money
  import RefundWindows
  import Sums

  // ------------------------------------------------------- the exact conditions

  lemma {:induction false} PlaysServiceSteps(w: System, moves: seq<Move>)
    ensures forall step | step in StepsOf(w, moves) :: Guards.IsServiceStep(step)
    decreases |moves|
  {
    if moves != [] {
      PlaysServiceSteps(Next(w, moves[0]), moves[1..]);
      MoveIsServiceStep(w, moves[0]);
    }
  }

  lemma MoveIsServiceStep(w: System, m: Move)
    ensures match StepOf(w, m) case Some(step) => Guards.IsServiceStep(step) case None => true
  {
  }

  /** However calls interleave: captured payments stay alone, and no booking can be
      charged twice, if and only if no checkout inserts its payment beside a
      captured one. */
  lemma OverlapsChargeOnceIff(w: System, moves: seq<Move>)
    requires Valid(w.store) && Money.CapturedAlone(w.store.payments)
    ensures Guards.AloneThroughout(w.store, StepsOf(w, moves)) <==> Guards.NoneInsertsBeside(w.store, StepsOf(w, moves))
    ensures Guards.NoneInsertsBeside(w.store, StepsOf(w, moves)) ==>
              forall b :: !Guards.ChargedTwice(Play(w, moves).store, b)
  {
    Guards.AloneThroughoutIff(w.store, StepsOf(w, moves));
    PlayIsRun(w, moves);
    if Guards.NoneInsertsBeside(w.store, StepsOf(w, moves)) {
      forall b ensures !Guards.ChargedTwice(Play(w, moves).store, b) {
        Guards.NeverChargedTwice(w.store, StepsOf(w, moves), b);
      }
    }
  }

  /** However calls interleave: paid seats are never given up with the money kept
      if and only if no cancellation, release or refund event ends a booking while
      a succeeded payment of it remains. */
  lemma OverlapsFreeRefundedSeatsIff(w: System, moves: seq<Move>)
    requires Valid(w.store) && Guards.PaidIsNotHeld(w.store)
    ensures Guards.NeverGivesUpPaidSeats(w.store, StepsOf(w, moves)) <==> Guards.NoneFreesPaid(w.store, StepsOf(w, moves))
  {
    PlaysServiceSteps(w, moves);
    Guards.NeverGivesUpPaidSeatsIff(w.store, StepsOf(w, moves));
  }

  // ------------------------------------------------------------------ the start

  /** One held booking of one seat at five cents, and no call yet. */
  function HeldAtFive(): State {
    State(0,
          map[0 := Booking(0, "u", BookingHeld, 5, Some(10), "")],
          map[ClaimKey(0, 1) := Claim(0, 5, true)],
          map[], map[])
  }

  lemma HeldAtFiveIsValid()
    ensures Valid(HeldAtFive())
  {
    var s := HeldAtFive();
    var prices := PricesOf(s, 0);
    assert prices == map[ClaimKey(0, 1) := 5];
    Sums.TotalRemove(prices, ClaimKey(0, 1));
    assert prices - {ClaimKey(0, 1)} == map[];
  }

  function Start(): System { System(Money.Setup("g", 600, 0, map[]), HeldAtFive(), map[], []) }

  // --------------------------------------------------------------- one checkout

  /** The gateway's answer, and the new row. */
  function Answer(ref: string, p: PaymentId): Input { Input(Some(ref), true, p, ref) }

  /** A checkout up to the insert of its payment. */
  function ToInsert(c: nat, ref: string, p: PaymentId): seq<Move> {
    [Begin(c, CheckoutReads(0, "u")), Go(c, Answer(ref, p)), Go(c, Answer(ref, p)), Go(c, Answer(ref, p)), Go(c, Answer(ref, p))]
  }

  /** A held, unlapsed booking of "u" for five cents, without an open payment. */
  ghost predicate Payable(s: State) {
    && 0 in s.bookings && s.bookings[0].user == "u" && s.bookings[0].total == 5
    && s.bookings[0].status.BookingHeld? && !s.bookings[0].HoldLapsed(s.now) && !HasOpenPayment(s.payments, 0)
  }

  lemma PlayOne(w: System, a: Move)
    ensures Play(w, [a]) == Next(w, a)
  {
    assert [a][1..] == [];
  }

  lemma PlayTwo(w: System, a: Move, b: Move)
    ensures Play(w, [a, b]) == Next(Next(w, a), b)
  {
    assert [a, b][1..] == [b];
    PlayOne(Next(w, a), b);
  }

  lemma PlayThree(w: System, a: Move, b: Move, c: Move)
    ensures Play(w, [a, b, c]) == Next(Next(Next(w, a), b), c)
  {
    assert [a, b, c][1..] == [b, c];
    PlayTwo(Next(w, a), b, c);
  }

  lemma PlayFive(w: System, a: Move, b: Move, c: Move, d: Move, e: Move)
    ensures Play(w, [a, b, c, d, e]) == Next(Next(Next(Next(Next(w, a), b), c), d), e)
  {
    assert [a, b, c, d, e][1..] == [b, c, d, e] && [b, c, d, e][1..] == [c, d, e];
    PlayThree(Next(Next(w, a), b), c, d, e);
  }

  function At(w: System, c: nat, pc: Pc): System { w.(calls := w.calls[c := pc]) }

  lemma Moved(w: System, c: nat, i: Input, pc: Pc)
    requires Acts(w, pc, i).ask.None?
    ensures Next(At(w, c, pc), Go(c, i)) ==
            At(w.(store := if Acts(w, pc, i).step.Some? then Apply(w.store, Acts(w, pc, i).step.value) else w.store),
               c, Acts(w, pc, i).pc)
  {
    assert w.calls[c := pc][c := Acts(w, pc, i).pc] == w.calls[c := Acts(w, pc, i).pc];
    ActsIgnoresCalls(w, At(w, c, pc), pc, i);
  }

  /** A call does not look at the others. */
  lemma ActsIgnoresCalls(w: System, v: System, pc: Pc, i: Input)
    requires v == w.(calls := v.calls)
    ensures Acts(v, pc, i) == Acts(w, pc, i)
  {
  }

  /** It passes all its checks and extends the hold. */
  lemma ReachesInsert(w: System, c: nat, ref: string, p: PaymentId)
    requires c !in w.calls && Payable(w.store)
    ensures Play(w, ToInsert(c, ref, p)) ==
            At(w.(store := ExtendHold(w.store, 0, w.store.now + w.setup.window).state), c, CheckoutInserts(0, 5, ref))
  {
    var i := Answer(ref, p);
    PlayFive(w, Begin(c, CheckoutReads(0, "u")), Go(c, i), Go(c, i), Go(c, i), Go(c, i));
    assert Next(w, Begin(c, CheckoutReads(0, "u"))) == At(w, c, CheckoutReads(0, "u"));
    Moved(w, c, i, CheckoutReads(0, "u"));
    Moved(w, c, i, CheckoutLooksUp(0, 5));
    Moved(w, c, i, CheckoutExtends(0, 5));
    Moved(w.(store := ExtendHold(w.store, 0, w.store.now + w.setup.window).state), c, i, CheckoutAsks(0, 5));
  }

  lemma ExtendedIsPayable(s: State, window: nat)
    requires Payable(s) && window > 0
    ensures Payable(ExtendHold(s, 0, s.now + window).state)
    ensures var t := ExtendHold(s, 0, s.now + window).state;
            t.payments == s.payments && t.events == s.events
  {
  }

  function Success(ref: string): PaymentEvent { PaymentEvent(EventKey("g", ref), EventSucceeded, ref) }

  function Row(ref: string): Payment { Payment(0, "g", ref, PaymentPending, 5, ref) }

  function Paid(ref: string): Payment { Row(ref).(status := PaymentSucceeded) }

  /** The insert, and the delivery of the success by a call `e`. */
  function InsertAndSettle(c: nat, e: nat, ref: string, p: PaymentId): seq<Move> {
    [Go(c, Answer(ref, p))] + [Begin(e, WebhookRuns(Success(ref))), Go(e, Answer(ref, p))]
  }

  /** Nothing stands in the way of the insert. */
  ghost predicate FreeSlot(s: State, ref: string, p: PaymentId) {
    && 0 in s.bookings && p !in s.payments && ref != "" && EventKey("g", ref) !in s.events
    && !HasPaymentKey(s.payments, ref) && !RefTaken(s.payments, "g", ref) && !HasOpenPayment(s.payments, 0)
  }

  /** The bookings after a success for booking 0. */
  function Confirmed(s: State): map<BookingId, Booking> {
    if 0 in s.bookings && s.bookings[0].status.BookingHeld?
    then s.bookings[0 := s.bookings[0].(status := BookingConfirmed, expiry := None)]
    else s.bookings
  }

  lemma SuccessDelivered(u: State, p: PaymentId, ref: string)
    requires p in u.payments && u.payments[p] == Row(ref) && 0 in u.bookings && EventKey("g", ref) !in u.events
    requires u.bookings[0].IsActive()
    requires ByRef(u.payments, "g", ref) == Some(p)
    ensures var o := Deliver(u, Success(ref));
            && o.result == Ok(None)
            && o.state.payments == u.payments[p := Paid(ref)]
            && o.state.events == u.events[EventKey("g", ref) := Some(p)]
            && o.state.bookings == Confirmed(u)
  {
  }

  lemma Inserts(w: System, c: nat, ref: string, p: PaymentId)
    requires w.setup.provider == "g" && c in w.calls && w.calls[c] == CheckoutInserts(0, 5, ref)
    requires FreeSlot(w.store, ref, p)
    ensures Next(w, Go(c, Answer(ref, p))) ==
            At(w.(store := w.store.(payments := w.store.payments[p := Row(ref)])), c, Done(None))
  {
  }

  lemma Delivers(w: System, e: nat, ref: string, p: PaymentId)
    requires e !in w.calls && p in w.store.payments && w.store.payments[p] == Row(ref) && ref != ""
    requires 0 in w.store.bookings && w.store.bookings[0].IsActive() && EventKey("g", ref) !in w.store.events
    requires ByRef(w.store.payments, "g", ref) == Some(p)
    ensures Play(w, [Begin(e, WebhookRuns(Success(ref))), Go(e, Answer(ref, p))]) ==
            At(w.(store := Deliver(w.store, Success(ref)).state), e, Done(None))
  {
    PlayTwo(w, Begin(e, WebhookRuns(Success(ref))), Go(e, Answer(ref, p)));
    assert Next(w, Begin(e, WebhookRuns(Success(ref)))) == At(w, e, WebhookRuns(Success(ref)));
    Moved(w, e, Answer(ref, p), WebhookRuns(Success(ref)));
    SuccessDelivered(w.store, p, ref);
  }

  lemma FoundByRef(rows: map<PaymentId, Payment>, p: PaymentId, ref: string)
    requires ref != "" && !RefTaken(rows, "g", ref)
    ensures ByRef(rows[p := Row(ref)], "g", ref) == Some(p)
  {
    assert rows[p := Row(ref)][p].ref == ref;
  }

  lemma Settles(w: System, c: nat, e: nat, ref: string, p: PaymentId)
    requires w.setup.provider == "g" && c in w.calls && w.calls[c] == CheckoutInserts(0, 5, ref) && e !in w.calls
    requires FreeSlot(w.store, ref, p) && w.store.bookings[0].IsActive()
    ensures var t := Play(w, InsertAndSettle(c, e, ref, p));
            && t.setup == w.setup && t.refunds == w.refunds
            && t.calls == w.calls[c := Done(None)][e := Done(None)]
            && t.store.payments == w.store.payments[p := Paid(ref)]
            && t.store.events == w.store.events[EventKey("g", ref) := Some(p)]
            && t.store.bookings == Confirmed(w.store)
  {
    var w1 := At(w.(store := w.store.(payments := w.store.payments[p := Row(ref)])), c, Done(None));
    PlayConcat(w, [Go(c, Answer(ref, p))], [Begin(e, WebhookRuns(Success(ref))), Go(e, Answer(ref, p))]);
    PlayOne(w, Go(c, Answer(ref, p)));
    Inserts(w, c, ref, p);
    FoundByRef(w.store.payments, p, ref);
    Delivers(w1, e, ref, p);
    SuccessDelivered(w1.store, p, ref);
  }

  // ----------------------------------------------------------------- three runs

  lemma Onward(w: System, a: seq<Move>, u: System, b: seq<Move>)
    requires Play(w, a) == u
    ensures Play(w, a + b) == Play(u, b)
  {
    PlayConcat(w, a, b);
  }

  lemma BothAtInsert() returns (w: System)
    ensures w == Play(Start(), ToInsert(0, "a", 1) + ToInsert(1, "b", 2))
    ensures w.setup == Start().setup
    ensures w.calls == map[0 := CheckoutInserts(0, 5, "a"), 1 := CheckoutInserts(0, 5, "b")]
    ensures Payable(w.store) && w.store.payments == map[] && w.store.events == map[]
  {
    PlayConcat(Start(), ToInsert(0, "a", 1), ToInsert(1, "b", 2));
    ReachesInsert(Start(), 0, "a", 1);
    ExtendedIsPayable(Start().store, 600);
    var v := Play(Start(), ToInsert(0, "a", 1));
    ReachesInsert(v, 1, "b", 2);
    ExtendedIsPayable(v.store, 600);
    w := Play(v, ToInsert(1, "b", 2));
  }

  /** A payment on its own: the checkout `c` inserts it, and its success arrives. */
  lemma SettlesFirst(w: System, c: nat, e: nat) returns (t: System)
    requires w.setup == Start().setup && c in w.calls && w.calls[c] == CheckoutInserts(0, 5, "a") && e !in w.calls
    requires Payable(w.store) && w.store.payments == map[] && w.store.events == map[]
    ensures t == Play(w, InsertAndSettle(c, e, "a", 1))
    ensures t.setup == w.setup && t.refunds == w.refunds && t.calls == w.calls[c := Done(None)][e := Done(None)]
    ensures t.store.payments == map[1 := Paid("a")] && t.store.events == map[EventKey("g", "a") := Some(1)]
    ensures 0 in t.store.bookings && t.store.bookings[0].status.BookingConfirmed? && t.store.bookings[0].user == "u"
  {
    Settles(w, c, e, "a", 1);
    t := Play(w, InsertAndSettle(c, e, "a", 1));
  }

  lemma SecondSlotIsFree(s: State)
    requires s.payments == map[1 := Paid("a")] && s.events == map[EventKey("g", "a") := Some(1)] && 0 in s.bookings
    ensures FreeSlot(s, "b", 2)
  {
    assert "a" != "b" by {
      assert "a"[0] != "b"[0];
    }
  }

  /** Two checkouts are under way; the success of the first arrives before the
      second inserts its payment. */
  function TwoCheckouts(): seq<Move> {
    ToInsert(0, "a", 1) + ToInsert(1, "b", 2) + InsertAndSettle(0, 2, "a", 1) + InsertAndSettle(1, 3, "b", 2)
  }

  /** The first payment succeeded and is no longer open, so the open-payment index
      lets the second in, and the customer is charged twice. */
  lemma OverlappingCheckoutsChargeTwice()
    ensures Valid(Start().store) && Payable(Start().store)
    ensures Guards.ChargedTwice(Play(Start(), TwoCheckouts()).store, 0)
  {
    HeldAtFiveIsValid();
    var v := FirstSettledSecondAtInsert();
    Onward(Start(), ToInsert(0, "a", 1) + ToInsert(1, "b", 2) + InsertAndSettle(0, 2, "a", 1), v,
           InsertAndSettle(1, 3, "b", 2));
    ChargesAgain(v);
  }

  lemma FirstSettledSecondAtInsert() returns (v: System)
    ensures v == Play(Start(), ToInsert(0, "a", 1) + ToInsert(1, "b", 2) + InsertAndSettle(0, 2, "a", 1))
    ensures v.setup == Start().setup && 1 in v.calls && v.calls[1] == CheckoutInserts(0, 5, "b") && 3 !in v.calls
    ensures v.store.payments == map[1 := Paid("a")] && v.store.events == map[EventKey("g", "a") := Some(1)]
    ensures 0 in v.store.bookings && v.store.bookings[0].status.BookingConfirmed?
  {
    var w := BothAtInsert();
    Onward(Start(), ToInsert(0, "a", 1) + ToInsert(1, "b", 2), w, InsertAndSettle(0, 2, "a", 1));
    v := SettlesFirst(w, 0, 2);
  }

  lemma ChargesAgain(v: System)
    requires v.setup == Start().setup && 1 in v.calls && v.calls[1] == CheckoutInserts(0, 5, "b") && 3 !in v.calls
    requires v.store.payments == map[1 := Paid("a")] && v.store.events == map[EventKey("g", "a") := Some(1)]
    requires 0 in v.store.bookings && v.store.bookings[0].status.BookingConfirmed?
    ensures Guards.ChargedTwice(Play(v, InsertAndSettle(1, 3, "b", 2)).store, 0)
  {
    SecondSlotIsFree(v.store);
    Settles(v, 1, 3, "b", 2);
    var rows := Play(v, InsertAndSettle(1, 3, "b", 2)).store.payments;
    assert rows[1] == Paid("a") && rows[2] == Paid("b");
  }

  lemma OneAtInsert(w: System) returns (v: System)
    requires w.setup == Start().setup && w.store == HeldAtFive() && 0 !in w.calls
    ensures v == Play(w, ToInsert(0, "a", 1)) && v.setup == w.setup && v.refunds == w.refunds
    ensures v.calls == w.calls[0 := CheckoutInserts(0, 5, "a")]
    ensures Payable(v.store) && v.store.payments == map[] && v.store.events == map[]
  {
    ReachesInsert(w, 0, "a", 1);
    ExtendedIsPayable(w.store, 600);
    v := Play(w, ToInsert(0, "a", 1));
  }

  function ReadToRelease(): seq<Move> { [Begin(9, ReleaseReads(0, "u")), Go(9, RefundWindows.YES)] }

  function PayOnce(): seq<Move> { ToInsert(0, "a", 1) + InsertAndSettle(0, 2, "a", 1) }

  lemma ReleaseHasRead()
    ensures Play(Start(), ReadToRelease()) == At(Start(), 9, ReleaseCancels(0))
  {
    PlayTwo(Start(), Begin(9, ReleaseReads(0, "u")), Go(9, RefundWindows.YES));
    assert Next(Start(), Begin(9, ReleaseReads(0, "u"))) == At(Start(), 9, ReleaseReads(0, "u"));
    Moved(Start(), 9, RefundWindows.YES, ReleaseReads(0, "u"));
  }

  lemma PaysOnce(w: System) returns (v: System)
    requires w.setup == Start().setup && w.store == HeldAtFive() && 0 !in w.calls && 2 !in w.calls
    ensures v == Play(w, PayOnce()) && v.setup == w.setup && v.refunds == w.refunds
    ensures forall c | c != 0 && c != 2 :: (c in v.calls <==> c in w.calls) && (c in w.calls ==> v.calls[c] == w.calls[c])
    ensures v.store.payments == map[1 := Paid("a")]
    ensures 0 in v.store.bookings && v.store.bookings[0].status.BookingConfirmed? && v.store.bookings[0].user == "u"
  {
    var u := OneAtInsert(w);
    v := SettlesFirst(u, 0, 2);
    Onward(w, ToInsert(0, "a", 1), u, InsertAndSettle(0, 2, "a", 1));
  }

  /** A release reads the booking as held; a checkout is paid for; the release goes
      on: the seats are free and the money stays. */
  lemma OverlappingReleaseKeepsMoney()
    ensures Valid(Start().store)
    ensures Guards.KeepsMoneyFor(Play(Start(), ReadToRelease() + PayOnce() + [Go(9, RefundWindows.YES)]).store, 0)
  {
    HeldAtFiveIsValid();
    ReleaseHasRead();
    var v := PaysOnce(At(Start(), 9, ReleaseCancels(0)));
    Onward(Start(), ReadToRelease(), At(Start(), 9, ReleaseCancels(0)), PayOnce());
    Onward(Start(), ReadToRelease() + PayOnce(), v, [Go(9, RefundWindows.YES)]);
    PlayOne(v, Go(9, RefundWindows.YES));
    ReleaseFrees(v);
  }

  lemma ReleaseFrees(v: System)
    requires 9 in v.calls && v.calls[9] == ReleaseCancels(0)
    requires 0 in v.store.bookings && v.store.bookings[0].status.BookingConfirmed?
    requires v.store.payments == map[1 := Paid("a")]
    ensures Guards.KeepsMoneyFor(Next(v, Go(9, RefundWindows.YES)).store, 0)
  {
    assert v.store.payments[1].status.PaymentSucceeded? && v.store.payments[1].booking == 0;
  }

  /** A cancellation up to its refund request. */
  function ToRefund(c: nat): seq<Move> {
    [Begin(c, CancelReads(0, "u")), Go(c, RefundWindows.YES)] + [Go(c, RefundWindows.YES), Go(c, RefundWindows.YES)]
  }

  lemma ReachesRefund(w: System, c: nat)
    requires w.setup == Start().setup && c !in w.calls
    requires w.store.payments == map[1 := Paid("a")]
    requires 0 in w.store.bookings && w.store.bookings[0].status.BookingConfirmed? && w.store.bookings[0].user == "u"
    ensures Play(w, ToRefund(c)) == At(w, c, CancelRefunds(0, 1, "a", 5))
  {
    var i := RefundWindows.YES;
    PlayConcat(w, [Begin(c, CancelReads(0, "u")), Go(c, i)], [Go(c, i), Go(c, i)]);
    PlayTwo(w, Begin(c, CancelReads(0, "u")), Go(c, i));
    assert Next(w, Begin(c, CancelReads(0, "u"))) == At(w, c, CancelReads(0, "u"));
    Moved(w, c, i, CancelReads(0, "u"));
    assert At(w, c, CancelLooksUp(0)) == Play(w, [Begin(c, CancelReads(0, "u")), Go(c, i)]);
    PlayTwo(At(w, c, CancelLooksUp(0)), Go(c, i), Go(c, i));
    OnlyOnePayment(w.store.payments);
    Moved(w, c, i, CancelLooksUp(0));
    Moved(w, c, i, CancelFinds(0));
  }

  lemma OnlyOnePayment(rows: map<PaymentId, Payment>)
    requires rows == map[1 := Paid("a")]
    ensures Money.OpenPayment(rows, 0) == None && Money.SucceededPayment(rows, 0) == Some(1)
  {
    assert rows[1].status.PaymentSucceeded? && rows[1].booking == 0;
  }

  lemma BothReachRefund() returns (w: System)
    ensures w == Play(Start(), PayOnce() + ToRefund(4) + ToRefund(5)) && w.refunds == []
    ensures 4 in w.calls && w.calls[4] == CancelRefunds(0, 1, "a", 5) && 5 in w.calls && w.calls[5] == w.calls[4]
  {
    var v := PaysOnce(Start());
    ReachesRefund(v, 4);
    var u := At(v, 4, CancelRefunds(0, 1, "a", 5));
    ReachesRefund(u, 5);
    w := At(u, 5, CancelRefunds(0, 1, "a", 5));
    Onward(Start(), PayOnce(), v, ToRefund(4));
    Onward(Start(), PayOnce() + ToRefund(4), u, ToRefund(5));
  }

  function TwoCancellations(): seq<Move> {
    PayOnce() + ToRefund(4) + ToRefund(5) + [Go(4, RefundWindows.YES), Go(5, RefundWindows.YES)]
  }

  /** Two cancellations both found the captured payment before either updated its
      row: both requests are granted, and it is refunded twice. */
  lemma OverlappingCancelsRefundTwice()
    ensures Valid(Start().store)
    ensures RefundWindows.Granted(Play(Start(), TwoCancellations()), 1) == 2
  {
    HeldAtFiveIsValid();
    var w := BothReachRefund();
    Onward(Start(), PayOnce() + ToRefund(4) + ToRefund(5), w, [Go(4, RefundWindows.YES), Go(5, RefundWindows.YES)]);
    BothAskInTurn(w);
    assert RefundWindows.Granted(w, 1) == 0;
  }

  lemma BothAskInTurn(w: System)
    requires 4 in w.calls && w.calls[4] == CancelRefunds(0, 1, "a", 5) && 5 in w.calls && w.calls[5] == w.calls[4]
    ensures RefundWindows.Granted(Play(w, [Go(4, RefundWindows.YES), Go(5, RefundWindows.YES)]), 1) ==
            RefundWindows.Granted(w, 1) + 2
  {
    var one := Next(w, Go(4, RefundWindows.YES));
    PlayTwo(w, Go(4, RefundWindows.YES), Go(5, RefundWindows.YES));
    RefundWindows.GrantedByMove(w, Go(4, RefundWindows.YES), 1);
    RefundWindows.OtherCallsStay(w, Go(4, RefundWindows.YES), 5);
    RefundWindows.GrantedByMove(one, Go(5, RefundWindows.YES), 1);
  }
}
