/** What the use-case calls amount to when nothing else happens to the booking
    meanwhile: each is a short run of the money protocol. */
module Calls {
  import opened Domain
  import opened Store
  import opened Money

  function CheckoutActions(b: BookingId, user: UserId, intent: Option<string>, p: PaymentId, key: string): seq<Action> {
    [BeginCheckout(b, user), ExtendForCheckout(b), CreateCharge(b, intent, p, key)]
  }

  function CancelActions(b: BookingId, user: UserId, accepted: bool): seq<Action> {
    [BeginCancel(b, user), CancelCharge(b), RefundCharge(b, accepted), ReleaseSeats(b)]
  }

  /** The delivery, and the refund it asks for. */
  ghost function WebhookActions(w: World, ev: PaymentEvent, accepted: bool): seq<Action> {
    var o := Deliver(w.store, ev);
    if o.result.Ok? && o.result.value.Some? && o.result.value.value in w.store.payments then
      [Webhook(ev), RefundOrphan(w.store.payments[o.result.value.value].booking, accepted)]
    else [Webhook(ev)]
  }

  lemma PlayOne(w: World, a: Action)
    ensures Play(w, [a]) == Perform(w, a)
  {
    assert [a][1..] == [];
  }

  lemma PlayTwo(w: World, a: Action, b: Action)
    ensures Play(w, [a, b]) == Perform(Perform(w, a), b)
  {
    assert [a, b][1..] == [b];
    PlayOne(Perform(w, a), b);
  }

  lemma PlayThree(w: World, a: Action, b: Action, c: Action)
    ensures Play(w, [a, b, c]) == Perform(Perform(Perform(w, a), b), c)
  {
    assert [a, b, c][1..] == [b, c];
    PlayTwo(Perform(w, a), b, c);
  }

  lemma PlayFour(w: World, a: Action, b: Action, c: Action, d: Action)
    ensures Play(w, [a, b, c, d]) == Perform(Perform(Perform(Perform(w, a), b), c), d)
  {
    assert [a, b, c, d][1..] == [b, c, d];
    PlayThree(Perform(w, a), b, c, d);
  }

  lemma CallOver(calls: map<BookingId, Phase>, b: BookingId, phase: Phase)
    requires b !in calls
    ensures calls[b := phase] - {b} == calls
  {
  }

  // ---------------------------------------------------------------- checkout

  predicate MayCheckOut(w: World, b: BookingId, user: UserId) {
    Idle(w, b, user) && w.store.bookings[b].status.BookingHeld? && !w.store.bookings[b].HoldLapsed(w.store.now)
    && !HasOpenPayment(w.store.payments, b)
  }

  lemma CheckoutRefused(w: World, b: BookingId, user: UserId, intent: Option<string>, p: PaymentId, key: string)
    requires b !in w.calls && !MayCheckOut(w, b, user)
    ensures Play(w, CheckoutActions(b, user, intent, p, key)) == w
  {
    PlayThree(w, BeginCheckout(b, user), ExtendForCheckout(b), CreateCharge(b, intent, p, key));
  }

  function Extended(w: World, b: BookingId): World {
    w.(store := ExtendHold(w.store, b, w.store.now + w.setup.window).state)
  }

  lemma CheckoutExtends(w: World, b: BookingId, user: UserId)
    requires MayCheckOut(w, b, user)
    ensures Perform(Perform(w, BeginCheckout(b, user)), ExtendForCheckout(b)) == Hangs(Extended(w, b), b, Charging)
    ensures InPhase(Hangs(Extended(w, b), b, Charging), b, Charging)
  {
    assert Perform(w, BeginCheckout(b, user)) == Hangs(w, b, Extending);
    assert w.calls[b := Extending][b := Charging] == w.calls[b := Charging];
  }

  function ChargeRow(w: World, b: BookingId, ref: string, key: string): Payment
    requires b in w.store.bookings
  {
    Payment(b, w.setup.provider, ref, PaymentPending, w.store.bookings[b].total, key)
  }

  lemma ChargeEnds(w: World, b: BookingId, intent: Option<string>, p: PaymentId, key: string)
    requires b !in w.calls && b in w.store.bookings
    requires intent.Some? ==> && intent.value != "" && !RefTaken(w.store.payments, w.setup.provider, intent.value)
                              && !HasPaymentKey(w.store.payments, key)
    ensures Perform(Hangs(w, b, Charging), CreateCharge(b, intent, p, key)) ==
            if intent.None? then w
            else w.(store := CreatePayment(w.store, p, ChargeRow(w, b, intent.value, key)).state)
  {
    CallOver(w.calls, b, Charging);
  }

  /** The hold is extended, and with an intent the charge is recorded. */
  ghost function CheckedOut(w: World, b: BookingId, intent: Option<string>, p: PaymentId, key: string): World
    requires b in w.store.bookings
  {
    var e := Extended(w, b);
    if intent.None? then e else e.(store := CreatePayment(e.store, p, ChargeRow(w, b, intent.value, key)).state)
  }

  lemma CheckoutPlays(w: World, b: BookingId, user: UserId, intent: Option<string>, p: PaymentId, key: string)
    requires MayCheckOut(w, b, user)
    requires intent.Some? ==> && intent.value != "" && !RefTaken(w.store.payments, w.setup.provider, intent.value)
                              && !HasPaymentKey(w.store.payments, key)
    ensures Play(w, CheckoutActions(b, user, intent, p, key)) == CheckedOut(w, b, intent, p, key)
  {
    PlayThree(w, BeginCheckout(b, user), ExtendForCheckout(b), CreateCharge(b, intent, p, key));
    CheckoutExtends(w, b, user);
    ChargeEnds(Extended(w, b), b, intent, p, key);
  }

  // ------------------------------------------------------------------ webhook

  /** The store and the ledger after a delivery and its refund. */
  ghost function Handled(w: World, ev: PaymentEvent, accepted: bool): World {
    var o := Deliver(w.store, ev);
    var after := w.(store := o.state);
    if o.result.Ok? && o.result.value.Some? && o.result.value.value in w.store.payments
       && o.result.value.value in o.state.payments then
      var p := o.result.value.value;
      after.(refunds := w.refunds + [AsksRefund(after, p, true, accepted)],
             store := if accepted then UpdatePayment(o.state, p, PaymentRefunded).state else o.state)
    else after
  }

  lemma WebhookPlays(w: World, ev: PaymentEvent, accepted: bool)
    requires w.calls == map[] && Agrees(w, ev)
    ensures Play(w, WebhookActions(w, ev, accepted)) == Handled(w, ev, accepted)
  {
    var o := Deliver(w.store, ev);
    if o.result.Ok? && o.result.value.Some? && o.result.value.value in w.store.payments {
      var p := o.result.value.value;
      var b := w.store.payments[p].booking;
      PlayTwo(w, Webhook(ev), RefundOrphan(b, accepted));
      DeliveredPaymentStays(w.store, ev, p);
      CallOver(w.calls, b, RefundingOrphan(p));
    } else {
      PlayOne(w, Webhook(ev));
    }
  }

  lemma DeliveredPaymentStays(s: State, ev: PaymentEvent, p: PaymentId)
    requires p in s.payments
    ensures p in Deliver(s, ev).state.payments
  {
  }

  // ------------------------------------------------------------- cancellation

  predicate MayCancel(w: World, b: BookingId, user: UserId) {
    Idle(w, b, user) && w.store.bookings[b].IsActive() && !TooLate(w, w.store.bookings[b])
  }

  lemma CancelRefused(w: World, b: BookingId, user: UserId, accepted: bool)
    requires b !in w.calls && !MayCancel(w, b, user)
    ensures Play(w, CancelActions(b, user, accepted)) == w
  {
    PlayFour(w, BeginCancel(b, user), CancelCharge(b), RefundCharge(b, accepted), ReleaseSeats(b));
  }

  /** The open charge is cancelled... */
  ghost function ChargeCancelled(w: World, b: BookingId): World {
    var p := OpenPayment(w.store.payments, b);
    if p.Some? then w.(store := UpdatePayment(w.store, p.value, PaymentCancelled).state) else w
  }

  /** ... then the captured one is refunded... */
  ghost function ChargeRefunded(w: World, b: BookingId, accepted: bool): World {
    var p := SucceededPayment(w.store.payments, b);
    if p.None? then w
    else
      w.(refunds := w.refunds + [AsksRefund(w, p.value, false, accepted)],
         store := if accepted then UpdatePayment(w.store, p.value, PaymentRefunded).state else w.store)
  }

  /** ... then the seats go, unless the refund was refused. */
  ghost function Cancelled(w: World, b: BookingId, accepted: bool): World {
    var w1 := ChargeCancelled(w, b);
    var w2 := ChargeRefunded(w1, b, accepted);
    if HasSucceeded(w1.store.payments, b) && !accepted then w2
    else w2.(store := Cancel(w2.store, b, BookingCancelled).state)
  }

  lemma CancelBegins(w: World, b: BookingId, user: UserId)
    requires MayCancel(w, b, user)
    ensures Perform(Perform(w, BeginCancel(b, user)), CancelCharge(b)) == Hangs(ChargeCancelled(w, b), b, Refunding)
  {
    assert Perform(w, BeginCancel(b, user)) == Hangs(w, b, CancellingCharge);
    assert w.calls[b := CancellingCharge][b := Refunding] == w.calls[b := Refunding];
  }

  lemma CancelRefunds(w: World, b: BookingId, accepted: bool)
    requires b !in w.calls && b in w.store.bookings
    ensures Perform(Hangs(w, b, Refunding), RefundCharge(b, accepted)) ==
            if HasSucceeded(w.store.payments, b) && !accepted then ChargeRefunded(w, b, accepted)
            else Hangs(ChargeRefunded(w, b, accepted), b, Releasing)
  {
    CallOver(w.calls, b, Refunding);
    assert w.calls[b := Refunding][b := Releasing] == w.calls[b := Releasing];
  }

  lemma CancelReleases(w: World, b: BookingId)
    requires b !in w.calls && b in w.store.bookings
    ensures Perform(w, ReleaseSeats(b)) == w
    ensures Perform(Hangs(w, b, Releasing), ReleaseSeats(b)) == w.(store := Cancel(w.store, b, BookingCancelled).state)
  {
    CallOver(w.calls, b, Releasing);
  }

  lemma CancelPlays(w: World, b: BookingId, user: UserId, accepted: bool)
    requires MayCancel(w, b, user)
    ensures Play(w, CancelActions(b, user, accepted)) == Cancelled(w, b, accepted)
  {
    var w1 := ChargeCancelled(w, b);
    var w2 := ChargeRefunded(w1, b, accepted);
    PlayFour(w, BeginCancel(b, user), CancelCharge(b), RefundCharge(b, accepted), ReleaseSeats(b));
    CancelBegins(w, b, user);
    CancelRefunds(w1, b, accepted);
    CancelReleases(w2, b);
  }
}
