/** When overlapping calls refund a payment twice: exactly when two of them are
    between the lookup that found the charge and the update of its row. */
module RefundWindows {
  import opened Domain
  import opened Store
  import opened Steps
  import opened Concurrent
  import Money
  import Histories
  import Invariant
  import MoneyLaws

  /** Looked up, not yet asked for. */
  predicate Holds(pc: Pc, p: PaymentId) {
    (pc.CancelRefunds? && pc.payment == p) || (pc.WebhookRefunds? && pc.payment == p)
  }

  /** Granted by the gateway, not yet recorded in the row. */
  predicate Pends(pc: Pc, p: PaymentId) {
    (pc.CancelRecords? && pc.payment == p) || (pc.WebhookRecords? && pc.payment == p)
  }

  predicate InWindow(pc: Pc, p: PaymentId) { Holds(pc, p) || Pends(pc, p) }

  ghost predicate Overlap(w: System, p: PaymentId) {
    exists c, d :: c in w.calls && d in w.calls && c != d && InWindow(w.calls[c], p) && InWindow(w.calls[d], p)
  }

  ghost function Granted(w: System, p: PaymentId): nat { |MoneyLaws.AcceptedRefunds(w.refunds, p)| }

  function PendingCalls(w: System, p: PaymentId): set<nat> {
    set c | c in w.calls && Pends(w.calls[c], p)
  }

  predicate Captured(s: State, p: PaymentId) { p in s.payments && s.payments[p].IsCaptured() }

  predicate Recorded(s: State, p: PaymentId) { p in s.payments && s.payments[p].status.PaymentRefunded? }

  /** Calls and ledger speak of captured payments only, and every pending call had
      its refund granted. */
  ghost predicate WindowsOk(w: System) {
    && Valid(w.store)
    && (forall c, p | c in w.calls && InWindow(w.calls[c], p) :: Captured(w.store, p))
    && (forall p :: Granted(w, p) > 0 ==> Captured(w.store, p))
    && (forall p :: |PendingCalls(w, p)| <= Granted(w, p))
  }

  // ------------------------------------------------------------------ one move

  lemma CapturedStays(s: State, t: State, p: PaymentId)
    requires Histories.Evolves(s, t) && Captured(s, p)
    ensures Captured(t, p) && (Recorded(s, p) ==> Recorded(t, p))
  {
  }

  /** A request is made by a call that holds the payment, and only granted ones
      leave it pending. */
  lemma AsksWhatItHolds(w: System, pc: Pc, i: Input)
    ensures var e := Acts(w, pc, i);
            && (e.ask.Some? ==> Holds(pc, e.ask.value.payment) && e.ask.value.accepted == i.accepted)
            && (forall p :: Holds(pc, p) ==> e.ask.Some? && e.ask.value.payment == p && e.step.None?
                                             && !Holds(e.pc, p) && (Pends(e.pc, p) <==> i.accepted))
            && (forall p :: Pends(e.pc, p) ==> Holds(pc, p) && i.accepted)
  {
  }

  lemma PendingRecords(w: System, pc: Pc, i: Input, p: PaymentId)
    requires Pends(pc, p)
    ensures Acts(w, pc, i).step == Some(StepUpdate(p, PaymentRefunded)) && !InWindow(Acts(w, pc, i).pc, p)
  {
  }

  lemma DeliversCaptured(s: State, ev: PaymentEvent)
    requires PaymentsValid(s)
    requires Deliver(s, ev).result.Ok? && Deliver(s, ev).result.value.Some?
    ensures var p := Deliver(s, ev).result.value.value;
            p in s.payments && !s.payments[p].status.PaymentRefunded? && Captured(Deliver(s, ev).state, p)
  {
    var q := ByRef(s.payments, ev.key.provider, ev.ref);
    Invariant.ActIsUpdateThenBooking(Store.Recorded(s, ev.key, q), ev, q.value);
  }

  /** The moves after which a call holds a payment: the lookup of a cancellation,
      and a delivery that asks for a refund. */
  lemma HoldsAfter(w: System, pc: Pc, i: Input, p: PaymentId)
    requires !Holds(pc, p) && Holds(Acts(w, pc, i).pc, p)
    ensures || (pc.CancelFinds? && Acts(w, pc, i).step.None?
                && Money.SucceededPayment(w.store.payments, pc.booking) == Some(p))
            || (pc.WebhookRuns? && Acts(w, pc, i).step == Some(StepWebhook(pc.event))
                && Deliver(w.store, pc.event).result == Ok(Some(p)))
  {
  }

  /** A call comes to hold a payment only while its row is not recorded as
      refunded, and then the payment is captured. */
  lemma FindsUnrecorded(w: System, pc: Pc, i: Input, p: PaymentId)
    requires PaymentsValid(w.store) && !Holds(pc, p) && Holds(Acts(w, pc, i).pc, p)
    ensures p in w.store.payments && !Recorded(w.store, p)
    ensures var e := Acts(w, pc, i); Captured(if e.step.Some? then Apply(w.store, e.step.value) else w.store, p)
  {
    HoldsAfter(w, pc, i, p);
    if pc.WebhookRuns? {
      DeliversCaptured(w.store, pc.event);
    }
  }

  lemma GrantedAfter(refunds: seq<Money.RefundCall>, c: Money.RefundCall, p: PaymentId)
    ensures |MoneyLaws.AcceptedRefunds(refunds + [c], p)| ==
            |MoneyLaws.AcceptedRefunds(refunds, p)| + if c.accepted && c.payment == p then 1 else 0
  {
    assert (refunds + [c])[..|refunds|] == refunds;
  }

  /** Who was granted a refund of `p` by a move. */
  predicate Grants(w: System, m: Move, p: PaymentId) {
    m.Go? && m.call in w.calls && Holds(w.calls[m.call], p) && m.input.accepted
  }

  lemma GrantedByMove(w: System, m: Move, p: PaymentId)
    ensures Granted(Next(w, m), p) == Granted(w, p) + if Grants(w, m, p) then 1 else 0
  {
    if m.Go? && m.call in w.calls {
      var e := Acts(w, w.calls[m.call], m.input);
      AsksWhatItHolds(w, w.calls[m.call], m.input);
      if e.ask.Some? {
        GrantedAfter(w.refunds, e.ask.value, p);
      }
    }
  }

  lemma OtherCallsStay(w: System, m: Move, c: nat)
    requires c in w.calls && !(m.Go? && m.call == c)
    ensures c in Next(w, m).calls && Next(w, m).calls[c] == w.calls[c]
  {
  }

  lemma WindowsStayCaptured(w: System, m: Move, c: nat, p: PaymentId)
    requires WindowsOk(w) && c in Next(w, m).calls && InWindow(Next(w, m).calls[c], p)
    ensures Captured(Next(w, m).store, p)
  {
    NextEvolves(w, m);
    if m.Go? && m.call == c && c in w.calls && !InWindow(w.calls[c], p) {
      AsksWhatItHolds(w, w.calls[c], m.input);
      FindsUnrecorded(w, w.calls[c], m.input, p);
    } else {
      assert c in w.calls && InWindow(w.calls[c], p);
      CapturedStays(w.store, Next(w, m).store, p);
    }
  }

  lemma PendingGrows(w: System, m: Move, p: PaymentId)
    ensures !Grants(w, m, p) ==> PendingCalls(Next(w, m), p) <= PendingCalls(w, p)
    ensures Grants(w, m, p) ==> PendingCalls(Next(w, m), p) <= PendingCalls(w, p) + {m.call}
  {
    if m.Go? && m.call in w.calls {
      AsksWhatItHolds(w, w.calls[m.call], m.input);
    }
  }

  lemma PendingByMove(w: System, m: Move, p: PaymentId)
    requires |PendingCalls(w, p)| <= Granted(w, p)
    ensures |PendingCalls(Next(w, m), p)| <= Granted(Next(w, m), p)
  {
    GrantedByMove(w, m, p);
    PendingGrows(w, m, p);
    if Grants(w, m, p) {
      SubsetSize(PendingCalls(Next(w, m), p), PendingCalls(w, p) + {m.call});
      assert |PendingCalls(w, p) + {m.call}| <= |PendingCalls(w, p)| + 1;
    } else {
      SubsetSize(PendingCalls(Next(w, m), p), PendingCalls(w, p));
    }
  }

  lemma SubsetSize(a: set<nat>, b: set<nat>)
    requires a <= b
    ensures |a| <= |b|
  {
    assert b == a + (b - a);
  }

  lemma NextKeepsWindowsOk(w: System, m: Move)
    requires WindowsOk(w)
    ensures WindowsOk(Next(w, m))
  {
    var t := Next(w, m);
    NextEvolves(w, m);
    forall c, p | c in t.calls && InWindow(t.calls[c], p) ensures Captured(t.store, p) {
      WindowsStayCaptured(w, m, c, p);
    }
    forall p ensures |PendingCalls(t, p)| <= Granted(t, p) {
      PendingByMove(w, m, p);
    }
    forall p | Granted(t, p) > 0 ensures Captured(t.store, p) {
      GrantedByMove(w, m, p);
      assert Captured(w.store, p);
      CapturedStays(w.store, t.store, p);
    }
  }

  lemma {:induction false} PlayKeepsWindowsOk(w: System, moves: seq<Move>)
    requires WindowsOk(w)
    ensures WindowsOk(Play(w, moves))
    decreases |moves|
  {
    if moves != [] {
      NextKeepsWindowsOk(w, moves[0]);
      PlayKeepsWindowsOk(Next(w, moves[0]), moves[1..]);
    }
  }

  lemma NobodyRefundsYet(setup: Money.Setup, s: State)
    requires Valid(s)
    ensures WindowsOk(System(setup, s, map[], []))
  {
    forall p ensures |PendingCalls(System(setup, s, map[], []), p)| == 0 {
      assert PendingCalls(System(setup, s, map[], []), p) == {};
    }
  }

  // ---------------------------------------------------- twice only by overlap

  ghost predicate NeverOverlaps(w: System, moves: seq<Move>, p: PaymentId)
    decreases |moves|
  {
    !Overlap(w, p) && (moves == [] || NeverOverlaps(Next(w, moves[0]), moves[1..], p))
  }

  /** At most one refund was granted, and whoever could ask for another is in the
      window of the first or will find the row recorded. */
  ghost predicate OnceAtMost(w: System, p: PaymentId) {
    || Granted(w, p) == 0
    || (&& Granted(w, p) == 1
        && (forall c | c in w.calls :: !Holds(w.calls[c], p))
        && (Recorded(w.store, p) || exists c :: c in w.calls && Pends(w.calls[c], p)))
  }

  lemma FirstGrant(w: System, m: Move, p: PaymentId)
    requires WindowsOk(w) && Granted(w, p) == 0 && Grants(w, m, p) && !Overlap(w, p)
    ensures OnceAtMost(Next(w, m), p)
  {
    var t := Next(w, m);
    GrantedByMove(w, m, p);
    AsksWhatItHolds(w, w.calls[m.call], m.input);
    assert Pends(t.calls[m.call], p);
    forall c | c in t.calls ensures !Holds(t.calls[c], p) {
      if c != m.call {
        assert c in w.calls && t.calls[c] == w.calls[c];
      }
    }
  }

  lemma NobodyFindsIt(w: System, m: Move, p: PaymentId, c: nat)
    requires WindowsOk(w) && Granted(w, p) == 1 && OnceAtMost(w, p)
    requires !Overlap(Next(w, m), p) && c in Next(w, m).calls
    ensures !Holds(Next(w, m).calls[c], p)
  {
    var t := Next(w, m);
    if Holds(t.calls[c], p) {
      assert m.Go? && m.call == c && c in w.calls;
      FindsUnrecorded(w, w.calls[c], m.input, p);
      var d :| d in w.calls && Pends(w.calls[d], p);
      if d == c {
        PendingRecords(w, w.calls[c], m.input, p);
      } else {
        OtherCallsStay(w, m, d);
        assert InWindow(t.calls[c], p) && InWindow(t.calls[d], p);
      }
      assert false;
    }
  }

  lemma RecordsIt(s: State, p: PaymentId)
    requires Captured(s, p)
    ensures Recorded(UpdatePayment(s, p, PaymentRefunded).state, p)
  {
  }

  lemma PendingMoveRecords(w: System, d: nat, i: Input, p: PaymentId)
    requires d in w.calls && Pends(w.calls[d], p) && Captured(w.store, p)
    ensures Recorded(Next(w, Go(d, i)).store, p)
  {
    PendingRecords(w, w.calls[d], i, p);
    RecordsIt(w.store, p);
  }

  lemma StaysRecordedOrPending(w: System, m: Move, p: PaymentId)
    requires WindowsOk(w) && Granted(w, p) == 1 && OnceAtMost(w, p)
    ensures var t := Next(w, m); Recorded(t.store, p) || exists c :: c in t.calls && Pends(t.calls[c], p)
  {
    var t := Next(w, m);
    NextEvolves(w, m);
    assert Captured(w.store, p);
    CapturedStays(w.store, t.store, p);
    if !Recorded(w.store, p) {
      var d :| d in w.calls && Pends(w.calls[d], p);
      if m.Go? && m.call == d {
        PendingMoveRecords(w, d, m.input, p);
      } else {
        OtherCallsStay(w, m, d);
        assert Pends(t.calls[d], p);
      }
    }
  }

  lemma StaysOnce(w: System, m: Move, p: PaymentId)
    requires WindowsOk(w) && OnceAtMost(w, p) && !Overlap(w, p) && !Overlap(Next(w, m), p)
    ensures OnceAtMost(Next(w, m), p)
  {
    GrantedByMove(w, m, p);
    if Granted(w, p) == 0 {
      if Grants(w, m, p) {
        FirstGrant(w, m, p);
      }
    } else {
      assert !Grants(w, m, p);
      forall c | c in Next(w, m).calls ensures !Holds(Next(w, m).calls[c], p) {
        NobodyFindsIt(w, m, p, c);
      }
      StaysRecordedOrPending(w, m, p);
    }
  }

  /** However calls interleave, and whatever the gateway answers: a payment is
      refunded at most once unless two calls were in its window at one moment. */
  lemma {:induction false} RefundedTwiceOnlyByOverlap(w: System, moves: seq<Move>, p: PaymentId)
    requires WindowsOk(w) && OnceAtMost(w, p) && NeverOverlaps(w, moves, p)
    ensures Granted(Play(w, moves), p) <= 1
    decreases |moves|
  {
    if moves != [] {
      StaysOnce(w, moves[0], p);
      NextKeepsWindowsOk(w, moves[0]);
      RefundedTwiceOnlyByOverlap(Next(w, moves[0]), moves[1..], p);
    }
  }

  /** From a fresh start: no payment is ever refunded twice by calls whose windows on
      it never overlap. */
  lemma RefundedOnceWithoutOverlap(setup: Money.Setup, s: State, moves: seq<Move>, p: PaymentId)
    requires Valid(s) && NeverOverlaps(System(setup, s, map[], []), moves, p)
    ensures Granted(Play(System(setup, s, map[], []), moves), p) <= 1
  {
    NobodyRefundsYet(setup, s);
    RefundedTwiceOnlyByOverlap(System(setup, s, map[], []), moves, p);
  }

  const YES := Input(None, true, 0, "")

  /** Those of the two that have not asked yet ask, and are granted. */
  function BothAsk(w: System, c: nat, d: nat, p: PaymentId): seq<Move>
    requires c in w.calls && d in w.calls
  {
    (if Holds(w.calls[c], p) then [Go(c, YES)] else []) + (if Holds(w.calls[d], p) then [Go(d, YES)] else [])
  }

  lemma AskOnce(w: System, c: nat, p: PaymentId)
    requires c in w.calls && InWindow(w.calls[c], p)
    ensures Granted(Play(w, if Holds(w.calls[c], p) then [Go(c, YES)] else []), p) ==
            Granted(w, p) + if Holds(w.calls[c], p) then 1 else 0
  {
    GrantedByMove(w, Go(c, YES), p);
    assert [Go(c, YES)][1..] == [];
  }

  lemma BothPending(w: System, c: nat, d: nat, p: PaymentId)
    requires c in w.calls && d in w.calls && c != d
    ensures |PendingCalls(w, p)| >= (if Pends(w.calls[c], p) then 1 else 0) + (if Pends(w.calls[d], p) then 1 else 0)
  {
    var pending := (if Pends(w.calls[c], p) then {c} else {}) + (if Pends(w.calls[d], p) then {d} else {});
    SubsetSize(pending, PendingCalls(w, p));
    assert |{c}| == 1 && |{d}| == 1 && |{c} + {d}| == 2;
  }

  /** And whenever two calls are in its window, the gateway refunds it twice if it
      grants what they ask. */
  lemma OverlapRefundsTwice(w: System, c: nat, d: nat, p: PaymentId)
    requires WindowsOk(w) && c in w.calls && d in w.calls && c != d
    requires InWindow(w.calls[c], p) && InWindow(w.calls[d], p)
    ensures Granted(Play(w, BothAsk(w, c, d, p)), p) >= 2
  {
    var first := if Holds(w.calls[c], p) then [Go(c, YES)] else [];
    var second := if Holds(w.calls[d], p) then [Go(d, YES)] else [];
    PlayConcat(w, first, second);
    AskOnce(w, c, p);
    CallWaits(w, first, d);
    AskOnce(Play(w, first), d, p);
    assert |PendingCalls(w, p)| <= Granted(w, p);
    BothPending(w, c, d, p);
  }

  // --------------------------------------------------------- the second refund

  ghost predicate LeavesAlone(moves: seq<Move>, d: nat) {
    forall m | m in moves :: !(m.Go? && m.call == d)
  }

  lemma {:induction false} CallWaits(w: System, moves: seq<Move>, d: nat)
    requires d in w.calls && LeavesAlone(moves, d)
    ensures d in Play(w, moves).calls && Play(w, moves).calls[d] == w.calls[d]
    decreases |moves|
  {
    if moves != [] {
      assert moves[0] in moves;
      OtherCallsStay(w, moves[0], d);
      CallWaits(Next(w, moves[0]), moves[1..], d);
    }
  }

  /** `d` looks up the captured charge, others do what they like, `d` moves on and
      the gateway grants what it asks. */
  ghost function LookThenAsk(w: System, d: nat, i: Input, others: seq<Move>): (System, System) {
    var before := Play(Next(w, Go(d, i)), others);
    (before, Next(before, Go(d, YES)))
  }

  /** A cancellation of the payment's booking refunds it a second time if and only if its lookup
      came before the row recorded the first refund; what happens between its
      lookup and its request makes no difference. */
  lemma SecondRefundIff(w: System, d: nat, i: Input, others: seq<Move>, p: PaymentId)
    requires WindowsOk(w) && Granted(w, p) >= 1
    requires forall q | q in w.store.payments && w.store.payments[q].status.PaymentSucceeded?
                        && w.store.payments[q].booking == w.store.payments[p].booking :: q == p
    requires d in w.calls && w.calls[d] == CancelFinds(w.store.payments[p].booking) && LeavesAlone(others, d)
    ensures var (before, after) := LookThenAsk(w, d, i, others);
            Granted(after, p) == Granted(before, p) + 1 <==> !Recorded(w.store, p)
  {
    assert Captured(w.store, p);
    HeldIsAsked(w, d, i, others, p);
    var found := Money.SucceededPayment(w.store.payments, w.store.payments[p].booking);
    if Recorded(w.store, p) {
      assert found != Some(p);
    } else {
      assert w.store.payments[p].status.PaymentSucceeded?;
      assert found == Some(p);
    }
  }

  /** So does a success that comes too late for its booking, under a key of its
      own. */
  lemma SecondOrphanRefundIff(w: System, d: nat, i: Input, others: seq<Move>, p: PaymentId, key: EventKey)
    requires WindowsOk(w) && Granted(w, p) >= 1 && w.store.payments[p].ref != ""
    requires key.provider == w.store.payments[p].provider && key !in w.store.events
    requires w.store.payments[p].booking in w.store.bookings
             && !w.store.bookings[w.store.payments[p].booking].IsActive()
    requires d in w.calls && LeavesAlone(others, d)
    requires w.calls[d] == WebhookRuns(PaymentEvent(key, EventSucceeded, w.store.payments[p].ref))
    ensures var (before, after) := LookThenAsk(w, d, i, others);
            Granted(after, p) == Granted(before, p) + 1 <==> !Recorded(w.store, p)
  {
    LateSuccessHolds(w, d, i, p);
    HeldIsAsked(w, d, i, others, p);
  }

  lemma LateSuccessHolds(w: System, d: nat, i: Input, p: PaymentId)
    requires OnePaymentPerRef(w.store) && Captured(w.store, p) && d in w.calls && w.calls[d].WebhookRuns?
    requires var ev := w.calls[d].event;
             && ev.kind.EventSucceeded? && ev.key !in w.store.events
             && ev.ref == w.store.payments[p].ref && ev.ref != "" && ev.key.provider == w.store.payments[p].provider
    requires w.store.payments[p].booking in w.store.bookings
             && !w.store.bookings[w.store.payments[p].booking].IsActive()
    ensures d in Next(w, Go(d, i)).calls && (Holds(Next(w, Go(d, i)).calls[d], p) <==> !Recorded(w.store, p))
  {
    LateSuccessAsks(w.store, w.calls[d].event, p);
  }

  /** A call that holds the payment asks for it whenever it goes on. */
  lemma HeldIsAsked(w: System, d: nat, i: Input, others: seq<Move>, p: PaymentId)
    requires d in Next(w, Go(d, i)).calls && LeavesAlone(others, d)
    ensures var (before, after) := LookThenAsk(w, d, i, others);
            Granted(after, p) == Granted(before, p) + 1 <==> Holds(Next(w, Go(d, i)).calls[d], p)
  {
    CallWaits(Next(w, Go(d, i)), others, d);
    GrantedByMove(LookThenAsk(w, d, i, others).0, Go(d, YES), p);
  }

  lemma LateSuccessAsks(s: State, ev: PaymentEvent, p: PaymentId)
    requires OnePaymentPerRef(s) && Captured(s, p) && ev.kind.EventSucceeded? && ev.key !in s.events
    requires ev.ref == s.payments[p].ref && ev.ref != "" && ev.key.provider == s.payments[p].provider
    requires s.payments[p].booking in s.bookings && !s.bookings[s.payments[p].booking].IsActive()
    ensures Deliver(s, ev).result == if Recorded(s, p) then Err(ErrPaymentState) else Ok(Some(p))
  {
    assert RefTaken(s.payments, ev.key.provider, ev.ref);
    assert ByRef(s.payments, ev.key.provider, ev.ref) == Some(p);
    Invariant.ActIsUpdateThenBooking(Store.Recorded(s, ev.key, Some(p)), ev, p);
  }
}
