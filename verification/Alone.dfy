/** A call that nothing interrupts, move by move, ends as the use case does: the
    overlapping calls are the calls of the ledger laws, taken apart. */
module Alone {
  import opened Domain
  import opened Store
  import opened Concurrent
  import Calls
  import Histories
  import Money

  ghost predicate Follows(ws: seq<System>, k: nat, c: nat, i: Input)
    requires k + 1 < |ws|
  {
    ws[k + 1] == Next(ws[k], Go(c, i))
  }

  /** The systems that moves of one call alone lead through, from the first to the last. */
  ghost predicate Uninterrupted(ws: seq<System>, first: System, c: nat, i: Input) {
    && ws != [] && ws[0] == first
    && forall k: nat | k < |ws| - 1 :: Follows(ws, k, c, i)
  }

  function WorldOf(w: System): Money.World { Money.World(w.setup, w.store, map[], w.refunds, map[]) }

  /** The moves end, with this answer and in this world. */
  ghost predicate Ends(ws: seq<System>, first: System, c: nat, i: Input, m: Money.World, error: Option<Error>) {
    && Uninterrupted(ws, first, c, i)
    && var w := ws[|ws| - 1];
    WorldOf(w) == m && c in w.calls && w.calls[c] == Done(error)
  }

  lemma Prepend(w: System, rest: seq<System>, c: nat, i: Input, m: Money.World, error: Option<Error>) returns (ws: seq<System>)
    requires Ends(rest, Next(w, Go(c, i)), c, i, m, error)
    ensures Ends(ws, w, c, i, m, error)
  {
    ws := [w] + rest;
    forall k: nat | k < |ws| - 1 ensures Follows(ws, k, c, i) {
      if k > 0 {
        assert Follows(rest, k - 1, c, i);
      }
    }
  }

  /** One more move ends the call. */
  lemma LastMove(w: System, c: nat, i: Input) returns (ws: seq<System>)
    requires c in w.calls && Acts(w, w.calls[c], i).pc.Done?
    ensures Ends(ws, w, c, i, WorldOf(Next(w, Go(c, i))), Acts(w, w.calls[c], i).pc.error)
  {
    ws := [w, Next(w, Go(c, i))];
  }

  // ---------------------------------------------------------------- checkout

  /** How the insert of a charge answers. */
  ghost function ChargeError(m: Money.World, b: BookingId, i: Input): Option<Error>
    requires b in m.store.bookings
  {
    match i.ref
    case None => Some(ErrProviderUnavailable)
    case Some(ref) =>
      ErrorOf(CreatePayment(Calls.Extended(m, b).store, i.payment, Calls.ChargeRow(m, b, ref, i.key)).result)
  }

  lemma InsertsAlone(w: System, c: nat, b: BookingId, amount: nat, ref: string, i: Input) returns (ws: seq<System>)
    requires c in w.calls && w.calls[c] == CheckoutInserts(b, amount, ref) && !HasOpenPayment(w.store.payments, b)
    ensures var row := Payment(b, w.setup.provider, ref, PaymentPending, amount, i.key);
            var o := CreatePayment(w.store, i.payment, row);
            Ends(ws, w, c, i, WorldOf(w).(store := o.state), ErrorOf(o.result))
  {
    ws := LastMove(w, c, i);
  }

  lemma AsksAlone(w: System, c: nat, b: BookingId, amount: nat, i: Input) returns (ws: seq<System>)
    requires c in w.calls && w.calls[c] == CheckoutAsks(b, amount) && !HasOpenPayment(w.store.payments, b)
    ensures match i.ref
            case None => Ends(ws, w, c, i, WorldOf(w), Some(ErrProviderUnavailable))
            case Some(ref) =>
              var row := Payment(b, w.setup.provider, ref, PaymentPending, amount, i.key);
              var o := CreatePayment(w.store, i.payment, row);
              Ends(ws, w, c, i, WorldOf(w).(store := o.state), ErrorOf(o.result))
  {
    match i.ref {
      case None => ws := LastMove(w, c, i);
      case Some(ref) =>
        var o := CreatePayment(w.store, i.payment, Payment(b, w.setup.provider, ref, PaymentPending, amount, i.key));
        var rest := InsertsAlone(Next(w, Go(c, i)), c, b, amount, ref, i);
        ws := Prepend(w, rest, c, i, WorldOf(w).(store := o.state), ErrorOf(o.result));
    }
  }

  lemma ExtendsAlone(w: System, c: nat, b: BookingId, i: Input) returns (ws: seq<System>)
    requires c in w.calls && b in w.store.bookings && !HasOpenPayment(w.store.payments, b)
    requires w.store.bookings[b].status.BookingHeld?
    requires w.calls[c] == CheckoutExtends(b, w.store.bookings[b].total)
    ensures Ends(ws, w, c, i, Calls.CheckedOut(WorldOf(w), b, i.ref, i.payment, i.key), ChargeError(WorldOf(w), b, i))
  {
    var e := Next(w, Go(c, i));
    assert WorldOf(e) == Calls.Extended(WorldOf(w), b);
    var rest := AsksAlone(e, c, b, w.store.bookings[b].total, i);
    ws := Prepend(w, rest, c, i, Calls.CheckedOut(WorldOf(w), b, i.ref, i.payment, i.key), ChargeError(WorldOf(w), b, i));
  }

  lemma LooksUpOpenAlone(w: System, c: nat, b: BookingId, i: Input) returns (ws: seq<System>)
    requires c in w.calls && b in w.store.bookings && w.store.bookings[b].status.BookingHeld?
    requires w.calls[c] == CheckoutLooksUp(b, w.store.bookings[b].total)
    ensures if HasOpenPayment(w.store.payments, b) then Ends(ws, w, c, i, WorldOf(w), None)
            else Ends(ws, w, c, i, Calls.CheckedOut(WorldOf(w), b, i.ref, i.payment, i.key), ChargeError(WorldOf(w), b, i))
  {
    if HasOpenPayment(w.store.payments, b) {
      ws := LastMove(w, c, i);
    } else {
      var rest := ExtendsAlone(Next(w, Go(c, i)), c, b, i);
      ws := Prepend(w, rest, c, i, Calls.CheckedOut(WorldOf(w), b, i.ref, i.payment, i.key), ChargeError(WorldOf(w), b, i));
    }
  }

  /** A checkout: resumes an open payment, or extends the hold and records the
      charge; otherwise it is refused by owner, status and clock. */
  lemma CheckoutAlone(w: System, c: nat, b: BookingId, user: UserId, i: Input) returns (ws: seq<System>)
    requires c in w.calls && w.calls[c] == CheckoutReads(b, user)
    ensures var m, s := WorldOf(w), w.store;
            if b !in s.bookings || s.bookings[b].user != user then Ends(ws, w, c, i, m, Some(ErrBookingNotFound))
            else if s.bookings[b].status != BookingHeld then Ends(ws, w, c, i, m, Some(ErrBookingState))
            else if s.bookings[b].expiry.Some? && s.bookings[b].expiry.value <= s.now then
              Ends(ws, w, c, i, m, Some(ErrBookingExpired))
            else if HasOpenPayment(s.payments, b) then Ends(ws, w, c, i, m, None)
            else Ends(ws, w, c, i, Calls.CheckedOut(m, b, i.ref, i.payment, i.key), ChargeError(m, b, i))
  {
    var e := Next(w, Go(c, i));
    if e.calls[c].Done? {
      ws := LastMove(w, c, i);
    } else {
      var rest := LooksUpOpenAlone(e, c, b, i);
      if HasOpenPayment(w.store.payments, b) {
        ws := Prepend(w, rest, c, i, WorldOf(w), None);
      } else {
        ws := Prepend(w, rest, c, i, Calls.CheckedOut(WorldOf(w), b, i.ref, i.payment, i.key), ChargeError(WorldOf(w), b, i));
      }
    }
  }

  // ------------------------------------------------------------------ webhook

  lemma RecordsOrphanAlone(w: System, c: nat, p: PaymentId, i: Input) returns (ws: seq<System>)
    requires c in w.calls && w.calls[c] == WebhookRecords(p)
    ensures Ends(ws, w, c, i, WorldOf(w).(store := UpdatePayment(w.store, p, PaymentRefunded).state), None)
  {
    ws := LastMove(w, c, i);
  }

  /** The world after the refund of a charge that came too late. */
  ghost function OrphanRefunded(m: Money.World, p: PaymentId, ref: string, amount: nat, accepted: bool): Money.World {
    m.(refunds := m.refunds + [Money.RefundCall(p, ref, amount, true, accepted)],
       store := if accepted then UpdatePayment(m.store, p, PaymentRefunded).state else m.store)
  }

  lemma RefundsOrphanAlone(w: System, c: nat, p: PaymentId, ref: string, amount: nat, i: Input) returns (ws: seq<System>)
    requires c in w.calls && w.calls[c] == WebhookRefunds(p, ref, amount)
    ensures Ends(ws, w, c, i, OrphanRefunded(WorldOf(w), p, ref, amount, i.accepted), None)
  {
    if i.accepted {
      var rest := RecordsOrphanAlone(Next(w, Go(c, i)), c, p, i);
      ws := Prepend(w, rest, c, i, OrphanRefunded(WorldOf(w), p, ref, amount, true), None);
    } else {
      ws := LastMove(w, c, i);
    }
  }

  lemma HandledOrphan(m: Money.World, ev: PaymentEvent, p: PaymentId, accepted: bool)
    requires PaymentsValid(m.store) && Deliver(m.store, ev).result == Ok(Some(p)) && p in m.store.payments
    ensures var row := m.store.payments[p];
            OrphanRefunded(m.(store := Deliver(m.store, ev).state), p, row.ref, row.amount, accepted)
            == Calls.Handled(m, ev, accepted)
  {
    Histories.DeliverEvolves(m.store, ev);
  }

  ghost predicate AsksFor(s: State, ev: PaymentEvent, p: PaymentId) {
    p in s.payments && Deliver(s, ev).result == Ok(Some(p))
  }

  /** The transaction of a delivery that asks for a refund... */
  lemma DeliversOrphan(w: System, c: nat, ev: PaymentEvent, i: Input, p: PaymentId)
    requires c in w.calls && w.calls[c] == WebhookRuns(ev) && AsksFor(w.store, ev, p)
    ensures var e := Next(w, Go(c, i));
            && WorldOf(e) == WorldOf(w).(store := Deliver(w.store, ev).state)
            && c in e.calls
            && e.calls[c] == WebhookRefunds(p, w.store.payments[p].ref, w.store.payments[p].amount)
  {
  }

  /** ... and of any other. */
  lemma DeliversPlain(w: System, c: nat, ev: PaymentEvent, i: Input) returns (ws: seq<System>)
    requires c in w.calls && w.calls[c] == WebhookRuns(ev) && forall p :: !AsksFor(w.store, ev, p)
    ensures Ends(ws, w, c, i, WorldOf(w).(store := Deliver(w.store, ev).state), ErrorOf(Deliver(w.store, ev).result))
  {
    var o := Deliver(w.store, ev);
    if o.result.Ok? && o.result.value.Some? {
      assert !AsksFor(w.store, ev, o.result.value.value);
    }
    ws := LastMove(w, c, i);
  }

  lemma HandledPlain(m: Money.World, ev: PaymentEvent, accepted: bool)
    requires forall p :: !AsksFor(m.store, ev, p)
    ensures Calls.Handled(m, ev, accepted) == m.(store := Deliver(m.store, ev).state)
  {
    var o := Deliver(m.store, ev);
    if o.result.Ok? && o.result.value.Some? {
      assert !AsksFor(m.store, ev, o.result.value.value);
    }
  }

  /** A delivery: the transaction, then the refund it asks for. */
  lemma WebhookAlone(w: System, c: nat, ev: PaymentEvent, i: Input) returns (ws: seq<System>)
    requires PaymentsValid(w.store) && c in w.calls && w.calls[c] == WebhookRuns(ev)
    ensures Ends(ws, w, c, i, Calls.Handled(WorldOf(w), ev, i.accepted), ErrorOf(Deliver(w.store, ev).result))
  {
    if p :| AsksFor(w.store, ev, p) {
      DeliversOrphan(w, c, ev, i, p);
      HandledOrphan(WorldOf(w), ev, p, i.accepted);
      var rest := RefundsOrphanAlone(Next(w, Go(c, i)), c, p, w.store.payments[p].ref, w.store.payments[p].amount, i);
      ws := Prepend(w, rest, c, i, Calls.Handled(WorldOf(w), ev, i.accepted), None);
    } else {
      HandledPlain(WorldOf(w), ev, i.accepted);
      ws := DeliversPlain(w, c, ev, i);
    }
  }

  // ------------------------------------------------------------- cancellation

  ghost function Released(m: Money.World, b: BookingId): Money.World {
    m.(store := Cancel(m.store, b, BookingCancelled).state)
  }

  lemma ReleasesAlone(w: System, c: nat, b: BookingId, i: Input) returns (ws: seq<System>)
    requires c in w.calls && w.calls[c] == CancelReleases(b) && b in w.store.bookings && w.store.bookings[b].IsActive()
    ensures Ends(ws, w, c, i, Released(WorldOf(w), b), None)
  {
    ws := LastMove(w, c, i);
  }

  lemma RecordsAlone(w: System, c: nat, b: BookingId, p: PaymentId, i: Input) returns (ws: seq<System>)
    requires c in w.calls && w.calls[c] == CancelRecords(b, p) && b in w.store.bookings && w.store.bookings[b].IsActive()
    ensures Ends(ws, w, c, i, Released(WorldOf(w).(store := UpdatePayment(w.store, p, PaymentRefunded).state), b), None)
  {
    var rest := ReleasesAlone(Next(w, Go(c, i)), c, b, i);
    ws := Prepend(w, rest, c, i, Released(WorldOf(w).(store := UpdatePayment(w.store, p, PaymentRefunded).state), b), None);
  }

  lemma RefundsAlone(w: System, c: nat, b: BookingId, p: PaymentId, ref: string, amount: nat, i: Input) returns (ws: seq<System>)
    requires c in w.calls && w.calls[c] == CancelRefunds(b, p, ref, amount)
    requires b in w.store.bookings && w.store.bookings[b].IsActive()
    ensures var asked := WorldOf(w).(refunds := w.refunds + [Money.RefundCall(p, ref, amount, false, i.accepted)]);
            if i.accepted then
              Ends(ws, w, c, i, Released(asked.(store := UpdatePayment(w.store, p, PaymentRefunded).state), b), None)
            else Ends(ws, w, c, i, asked, Some(ErrProviderUnavailable))
  {
    if i.accepted {
      var a := Next(w, Go(c, i));
      var rest := RecordsAlone(a, c, b, p, i);
      ws := Prepend(w, rest, c, i, Released(WorldOf(a).(store := UpdatePayment(w.store, p, PaymentRefunded).state), b), None);
    } else {
      ws := LastMove(w, c, i);
    }
  }

  /** The captured charge, then the seats. */
  ghost function GivenBack(m: Money.World, b: BookingId, accepted: bool): Money.World {
    var r := Calls.ChargeRefunded(m, b, accepted);
    if Money.HasSucceeded(m.store.payments, b) && !accepted then r else Released(r, b)
  }

  ghost function RefundError(m: Money.World, b: BookingId, accepted: bool): Option<Error> {
    if Money.HasSucceeded(m.store.payments, b) && !accepted then Some(ErrProviderUnavailable) else None
  }

  lemma FindsAlone(w: System, c: nat, b: BookingId, i: Input) returns (ws: seq<System>)
    requires c in w.calls && w.calls[c] == CancelFinds(b) && b in w.store.bookings && w.store.bookings[b].IsActive()
    ensures Ends(ws, w, c, i, GivenBack(WorldOf(w), b, i.accepted), RefundError(WorldOf(w), b, i.accepted))
  {
    var f, m, rest := Next(w, Go(c, i)), WorldOf(w), [];
    match Money.SucceededPayment(w.store.payments, b) {
      case Some(p) => rest := RefundsAlone(f, c, b, p, w.store.payments[p].ref, w.store.payments[p].amount, i);
      case None => rest := ReleasesAlone(f, c, b, i);
    }
    ws := Prepend(w, rest, c, i, GivenBack(m, b, i.accepted), RefundError(m, b, i.accepted));
  }

  lemma SettlesAlone(w: System, c: nat, b: BookingId, p: PaymentId, i: Input) returns (ws: seq<System>)
    requires c in w.calls && w.calls[c] == CancelSettles(b, p) && b in w.store.bookings && w.store.bookings[b].IsActive()
    ensures var m := WorldOf(w).(store := UpdatePayment(w.store, p, PaymentCancelled).state);
            Ends(ws, w, c, i, GivenBack(m, b, i.accepted), RefundError(m, b, i.accepted))
  {
    var s := Next(w, Go(c, i));
    var rest := FindsAlone(s, c, b, i);
    ws := Prepend(w, rest, c, i, GivenBack(WorldOf(s), b, i.accepted), RefundError(WorldOf(s), b, i.accepted));
  }

  lemma LooksUpAlone(w: System, c: nat, b: BookingId, i: Input) returns (ws: seq<System>)
    requires c in w.calls && w.calls[c] == CancelLooksUp(b) && b in w.store.bookings && w.store.bookings[b].IsActive()
    ensures var m := Calls.ChargeCancelled(WorldOf(w), b);
            Ends(ws, w, c, i, GivenBack(m, b, i.accepted), RefundError(m, b, i.accepted))
  {
    var l, m, rest := Next(w, Go(c, i)), Calls.ChargeCancelled(WorldOf(w), b), [];
    match Money.OpenPayment(w.store.payments, b) {
      case Some(p) => rest := SettlesAlone(l, c, b, p, i);
      case None => rest := FindsAlone(l, c, b, i);
    }
    ws := Prepend(w, rest, c, i, GivenBack(m, b, i.accepted), RefundError(m, b, i.accepted));
  }

  /** A cancellation: the open charge, the captured one, the seats; or refused by
      owner, status and cutoff. */
  lemma CancelAlone(w: System, c: nat, b: BookingId, user: UserId, i: Input) returns (ws: seq<System>)
    requires c in w.calls && w.calls[c] == CancelReads(b, user)
    ensures var m, s := WorldOf(w), w.store;
            if b !in s.bookings || s.bookings[b].user != user then Ends(ws, w, c, i, m, Some(ErrBookingNotFound))
            else if s.bookings[b].status != BookingHeld && s.bookings[b].status != BookingConfirmed then
              Ends(ws, w, c, i, m, Some(ErrBookingState))
            else if s.bookings[b].status == BookingConfirmed && s.bookings[b].showtime in w.setup.startsAt
                    && w.setup.startsAt[s.bookings[b].showtime] < s.now + w.setup.cutoff then
              Ends(ws, w, c, i, m, Some(ErrBookingState))
            else
              Ends(ws, w, c, i, Calls.Cancelled(m, b, i.accepted),
                   RefundError(Calls.ChargeCancelled(m, b), b, i.accepted))
  {
    var r := Next(w, Go(c, i));
    if r.calls[c].Done? {
      ws := LastMove(w, c, i);
    } else {
      var m := WorldOf(w);
      var rest := LooksUpAlone(r, c, b, i);
      ws := Prepend(w, rest, c, i, Calls.Cancelled(m, b, i.accepted), RefundError(Calls.ChargeCancelled(m, b), b, i.accepted));
    }
  }

  lemma ReleaseCancelsAlone(w: System, c: nat, b: BookingId, i: Input) returns (ws: seq<System>)
    requires c in w.calls && w.calls[c] == ReleaseCancels(b) && b in w.store.bookings && w.store.bookings[b].IsActive()
    ensures Ends(ws, w, c, i, WorldOf(w).(store := Close(w.store, {b}, BookingCancelled)), None)
  {
    ws := LastMove(w, c, i);
  }

  /** A release: a held booking of the caller is freed, any other is refused. */
  lemma ReleaseAlone(w: System, c: nat, b: BookingId, user: UserId, i: Input) returns (ws: seq<System>)
    requires c in w.calls && w.calls[c] == ReleaseReads(b, user)
    ensures var m, s := WorldOf(w), w.store;
            if b !in s.bookings || s.bookings[b].user != user then Ends(ws, w, c, i, m, Some(ErrBookingNotFound))
            else if s.bookings[b].status != BookingHeld then Ends(ws, w, c, i, m, Some(ErrBookingState))
            else Ends(ws, w, c, i, m.(store := Close(s, {b}, BookingCancelled)), None)
  {
    var r := Next(w, Go(c, i));
    if r.calls[c].Done? {
      ws := LastMove(w, c, i);
    } else {
      var rest := ReleaseCancelsAlone(r, c, b, i);
      ws := Prepend(w, rest, c, i, WorldOf(w).(store := Close(w.store, {b}, BookingCancelled)), None);
    }
  }
}
