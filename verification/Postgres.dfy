/** The repositories: statements that change the tables in place, and the
    transactions made of them, each proved to be its atomic step. */
module Postgres {
  import opened Domain
  import opened Store
  import Claiming
  import HoldRaces
  import Invariant
  import Readings
  import Seats
  import Steps
  import SweepPass

  const DEFAULT_BATCH: nat := 500
  const DEFAULT_PAGE: nat := 50
  const MAX_PAGE: nat := 200

  datatype Attempt =
    | Booked(id: BookingId)
      // the insert lost to a booking with the same key
    | IdempotentReplay
    | Failed(error: Error)
      // a deadlock, a serialization failure or a reference collision
    | Retryable

  function AsResult(a: Attempt): Result<BookingId> {
    match a
    case Booked(id) => Ok(id)
    case Failed(error) => Err(error)
    case _ => Err(ErrDatabase)
  }

  method TotalOf(seats: seq<Seat>, base: nat) returns (total: nat)
    ensures total == Seats.TotalPrice(seats, base)
  {
    total := 0;
    for i := 0 to |seats|
      invariant total == Seats.TotalPrice(seats[..i], base)
    {
      total := total + seats[i].PriceCents(base);
      assert seats[..i + 1][..i] == seats[..i];
    }
    assert seats[..|seats|] == seats;
  }

  /** The two UPDATE statements of a cancellation. */
  lemma CloseOne(s: State, b: BookingId, status: BookingStatus)
    requires b in s.bookings
    ensures Close(s, {b}, status).bookings == s.bookings[b := s.bookings[b].(status := status, expiry := None)]
    ensures Close(s, {b}, status).claims ==
            map k | k in s.claims ::
              if k.booking == b && s.claims[k].active then s.claims[k].(active := false) else s.claims[k]
  {
  }

  class Database {
    var now: Time
    var bookings: map<BookingId, Booking>
    var claims: map<ClaimKey, Claim>
    var payments: map<PaymentId, Payment>
    var events: map<EventKey, Option<PaymentId>>
    /** The open transaction: the tables as they were when it began. */
    var begun: Option<State>

    function Snapshot(): State
      reads this
    {
      State(now, bookings, claims, payments, events)
    }

    ghost predicate Valid()
      reads this
    {
      Store.Valid(Snapshot())
    }

    /** WithTx, up to the call of its body: a call inside a transaction
        becomes part of it. */
    method Begin() returns (outermost: bool)
      modifies this`begun
      ensures outermost == old(begun).None?
      ensures begun == if outermost then Some(Snapshot()) else old(begun)
    {
      outermost := begun.None?;
      if outermost {
        begun := Some(Snapshot());
      }
    }

    /** WithTx, after its body: the outermost call commits, or rolls back
        everything since it began. */
    method End(outermost: bool, failed: bool)
      requires begun.Some?
      modifies this
      ensures begun == if outermost then None else old(begun)
      ensures Snapshot() == if outermost && failed then old(begun).value else old(Snapshot())
    {
      if outermost {
        if failed {
          var saved := begun.value;
          now, bookings, claims, payments, events :=
            saved.now, saved.bookings, saved.claims, saved.payments, saved.events;
        }
        begun := None;
      }
    }

    // ----------------------------------------------------------------- holding

    /** UPDATE bookings ... RETURNING id, then UPDATE booking_seats for them;
        returns how many claims changed. */
    method ExpireRows(ids: set<BookingId>) returns (released: nat)
      modifies this`bookings, this`claims
      ensures Snapshot() == Close(old(Snapshot()), ids, BookingExpired)
      ensures released == |SweepPass.Released(old(Snapshot()), ids)|
    {
      released := |set k | k in claims && claims[k].active && k.booking in ids|;
      bookings := map b | b in bookings ::
        if b in ids then bookings[b].(status := BookingExpired, expiry := None) else bookings[b];
      claims := map k | k in claims ::
        if k.booking in ids && claims[k].active then claims[k].(active := false) else claims[k];
    }

    method ReleaseLapsedForShowtime(st: ShowtimeId)
      modifies this`bookings, this`claims
      ensures Snapshot() == ReleaseLapsed(old(Snapshot()), st)
    {
      var _ := ExpireRows(set b | b in bookings && bookings[b].HoldLapsed(now) && bookings[b].showtime == st);
    }

    /** INSERT INTO booking_seats, checked by UNIQUE (booking_id, seat_id) and by
        booking_seats_one_active_claim_idx. */
    method InsertClaim(id: BookingId, st: ShowtimeId, seat: SeatId, price: nat) returns (error: Option<Error>)
      modifies this`claims
      ensures error == if ClaimKey(id, seat) in old(claims) then Some(ErrDatabase)
                       else if Claiming.TakenIn(old(claims), st, seat) then Some(ErrSeatUnavailable)
                       else None
      ensures claims == if error.None? then old(claims)[ClaimKey(id, seat) := Claim(st, price, true)] else old(claims)
    {
      if ClaimKey(id, seat) in claims {
        return Some(ErrDatabase);
      }
      if exists k :: k in claims && k.seat == seat && claims[k].showtime == st && claims[k].active {
        return Some(ErrSeatUnavailable);
      }
      claims := claims[ClaimKey(id, seat) := Claim(st, price, true)];
      error := None;
    }

    /** Claims the seats of a booking one by one, up to the first refusal. The
        environment may abort the transaction before the given insert, or at
        the commit. */
    method ClaimSeats(o: Claiming.Order, abortAt: Option<nat>) returns (r: Attempt)
      requires forall k | k in claims :: k.booking != o.id
      modifies this`claims
      ensures r.Booked? ==> r.id == o.id && Claiming.After(old(claims), o, |o.seats|, claims)
      ensures r.Failed? ==> !Seats.Distinct(o.seats)
                            || exists x | x in o.seats :: Claiming.TakenIn(old(claims), o.st, x.id)
      ensures r.Failed? && Seats.Distinct(o.seats) ==> r.error == ErrSeatUnavailable
      ensures r.Failed? ==> r.error == ErrSeatUnavailable || r.error == ErrDatabase
      ensures !r.IdempotentReplay? && (abortAt.None? ==> !r.Retryable?)
    {
      ghost var found := claims;
      assert claims == found + o.Rows(0);
      for i := 0 to |o.seats|
        invariant Claiming.After(found, o, i, claims)
      {
        if abortAt == Some(i) {
          return Retryable;
        }
        var seat := o.seats[i];
        Claiming.RefusedForGoodReason(found, o, i, claims);
        ghost var before := claims;
        var error := InsertClaim(o.id, o.st, seat.id, seat.PriceCents(o.base));
        if error.Some? {
          assert seat in o.seats;
          return Failed(error.value);
        }
        Claiming.Inserted(found, o, i, before);
      }
      r := if abortAt.Some? then Retryable else Booked(o.id);
    }

    /** The body of the hold transaction: release, insert the booking, claim row
        by row. What it wrote before a failure is for the caller to undo. */
    method HoldRows(req: NewBooking, seats: seq<Seat>, id: BookingId, abortAt: Option<nat>) returns (r: Attempt)
      requires ClaimsFollowBookings(Snapshot()) && id !in bookings
      requires seats == Seats.Sort(req.seats)
      modifies this`bookings, this`claims
      ensures r.Booked? ==> TryHold(old(Snapshot()), req, id) == Held(id) && r.id == id
                            && Snapshot() == Store.Hold(old(Snapshot()), req, id)
      ensures r.IdempotentReplay? ==> TryHold(old(Snapshot()), req, id).Replayed?
      ensures r.Failed? ==> TryHold(old(Snapshot()), req, id).Refused?
      ensures r.Failed? && Seats.Distinct(req.seats) ==> r.error == ErrSeatUnavailable
      ensures r.Failed? ==> r.error == ErrSeatUnavailable || r.error == ErrDatabase
      ensures abortAt.None? ==> !r.Retryable?
    {
      ghost var start := Snapshot();
      ReleaseLapsedForShowtime(req.showtime);
      var total := TotalOf(seats, req.basePrice);
      Seats.SortedOrder(req.seats, req.basePrice);
      if req.key != "" && exists b :: b in bookings && bookings[b].user == req.user && bookings[b].key == req.key {
        assert HasKey(start, req.user, req.key);
        return IdempotentReplay;
      }
      assert !HasKey(start, req.user, req.key) by {
        assert forall b | b in start.bookings ::
            bookings[b].user == start.bookings[b].user && bookings[b].key == start.bookings[b].key;
      }
      bookings := bookings[id := Booking(req.showtime, req.user, BookingHeld, total, Some(now + req.holdTTL), req.key)];
      r := ClaimSeats(Claiming.Order(id, req.showtime, req.basePrice, seats), abortAt);
      if r.Failed? {
        Claiming.OneRefused(start, req, id);
      } else if r.Booked? {
        Claiming.AllInserted(start, req, id, claims);
      }
    }

    /** One run of the hold transaction: all of it or nothing. */
    method HoldOnce(req: NewBooking, seats: seq<Seat>, id: BookingId, abortAt: Option<nat>) returns (r: Attempt)
      requires begun.None? && ClaimsFollowBookings(Snapshot()) && id !in bookings
      requires seats == Seats.Sort(req.seats)
      modifies this
      ensures begun.None?
      ensures Snapshot() == if r.Booked? then Store.Hold(old(Snapshot()), req, id) else old(Snapshot())
      ensures r.Booked? ==> TryHold(old(Snapshot()), req, id) == Held(id) && r.id == id
      ensures r.IdempotentReplay? ==> TryHold(old(Snapshot()), req, id).Replayed?
      ensures r.Failed? ==> TryHold(old(Snapshot()), req, id).Refused?
      ensures r.Failed? && Seats.Distinct(req.seats) ==> r.error == ErrSeatUnavailable
      ensures r.Failed? ==> r.error == ErrSeatUnavailable || r.error == ErrDatabase
      ensures abortAt.None? ==> !r.Retryable?
    {
      var outermost := Begin();
      r := HoldRows(req, seats, id, abortAt);
      End(outermost, !r.Booked?);
    }

    /** Retries an aborted transaction up to three times, and reads the winner of
        a lost race outside the aborted transaction. `aborts` says at which
        insert the environment aborts each of the first attempts. */
    method Hold(req: NewBooking, id: BookingId, aborts: seq<nat>) returns (r: Result<BookingId>)
      requires Valid() && begun.None? && id !in bookings
      modifies this
      ensures Valid() && begun.None?
      ensures Snapshot() == old(Snapshot()) || (r == Ok(id) && Snapshot() == Store.Hold(old(Snapshot()), req, id))
      ensures r.Ok? ==>
                match TryHold(old(Snapshot()), req, id)
                case Held(_) => r.value == id && Snapshot() == Store.Hold(old(Snapshot()), req, id)
                case Replayed => r == HoldRaces.ByKey(old(bookings), req.user, req.key)
                case Refused => false
      ensures r.Err? ==> Snapshot() == old(Snapshot()) && (r.error == ErrSeatUnavailable || r.error == ErrDatabase)
      ensures |aborts| < HoldRaces.HOLD_MAX_ATTEMPTS ==> (r.Err? <==> TryHold(old(Snapshot()), req, id).Refused?)
      ensures |aborts| < HoldRaces.HOLD_MAX_ATTEMPTS && r.Err? && Seats.Distinct(req.seats) ==>
                r.error == ErrSeatUnavailable
    {
      ghost var start := Snapshot();
      var seats := Seats.Sort(req.seats);
      var attempt := 1;
      var a := HoldOnce(req, seats, id, if 0 < |aborts| then Some(aborts[0]) else None);
      while a.Retryable? && attempt != HoldRaces.HOLD_MAX_ATTEMPTS
        invariant 1 <= attempt <= HoldRaces.HOLD_MAX_ATTEMPTS
        invariant a.Retryable? ==> attempt <= |aborts|
        invariant begun.None?
        invariant Snapshot() == if a.Booked? then Store.Hold(start, req, id) else start
        invariant a.Booked? ==> TryHold(start, req, id) == Held(id) && a.id == id
        invariant a.IdempotentReplay? ==> TryHold(start, req, id).Replayed?
        invariant a.Failed? ==> TryHold(start, req, id).Refused?
        invariant a.Failed? && Seats.Distinct(req.seats) ==> a.error == ErrSeatUnavailable
        invariant a.Failed? ==> a.error == ErrSeatUnavailable || a.error == ErrDatabase
        decreases HoldRaces.HOLD_MAX_ATTEMPTS - attempt
      {
        a := HoldOnce(req, seats, id, if attempt < |aborts| then Some(aborts[attempt]) else None);
        attempt := attempt + 1;
      }
      if a.Booked? {
        Invariant.HoldKeepsValid(start, req, id);
      }
      if a.IdempotentReplay? {
        r := GetByIdempotencyKey(req.user, req.key);
        return;
      }
      r := AsResult(a);
    }

    method GetByIdempotencyKey(user: UserId, key: string) returns (r: Result<BookingId>)
      requires OneBookingPerKey(Snapshot())
      ensures r == HoldRaces.ByKey(bookings, user, key)
    {
      if key == "" || !exists b :: b in bookings && bookings[b].user == user && bookings[b].key == key {
        return Err(ErrBookingNotFound);
      }
      var b :| b in bookings && bookings[b].user == user && bookings[b].key == key;
      r := Ok(b);
    }

    // ---------------------------------------------------------------- sweeping

    /** The first row of ORDER BY hold_expires_at. */
    method Earliest(due: set<BookingId>) returns (b: BookingId)
      requires due != {}
      requires forall a | a in due :: a in bookings && bookings[a].expiry.Some?
      ensures b in due && forall a | a in due :: bookings[b].expiry.value <= bookings[a].expiry.value
    {
      b :| b in due;
      var rest := due - {b};
      while rest != {}
        invariant b in due && rest <= due
        invariant forall a | a in due - rest :: bookings[b].expiry.value <= bookings[a].expiry.value
        decreases |rest|
      {
        var a :| a in rest;
        if bookings[a].expiry.value < bookings[b].expiry.value {
          b := a;
        }
        rest := rest - {a};
      }
    }

    /** ORDER BY hold_expires_at LIMIT n FOR UPDATE SKIP LOCKED. */
    method SelectDue(limit: nat, locked: set<BookingId>) returns (ids: set<BookingId>)
      ensures SweepPass.IsPass(Snapshot(), limit, locked, ids)
    {
      var rest := (set b | b in bookings && bookings[b].HoldLapsed(now)) - locked;
      assert rest == Due(Snapshot()) - locked;
      ids := {};
      while |ids| < limit && rest != {}
        invariant ids !! rest && ids + rest == Due(Snapshot()) - locked && |ids| <= limit
        invariant forall a, b | a in ids && b in rest :: bookings[a].expiry.value <= bookings[b].expiry.value
        decreases |rest|
      {
        var b := Earliest(rest);
        ids, rest := ids + {b}, rest - {b};
      }
      assert |ids + rest| == |ids| + |rest|;
    }

    /** One pass of the sweeper; returns the rows the last statement touched. */
    method ExpireDueHolds(limit: int, locked: set<BookingId>) returns (released: nat)
      requires Valid()
      modifies this
      ensures Valid() && begun == old(begun)
      ensures exists ids ::
                && SweepPass.IsPass(old(Snapshot()), if limit <= 0 then DEFAULT_BATCH else limit, locked, ids)
                && Snapshot() == Steps.Sweep(old(Snapshot()), ids)
                && released == |SweepPass.ActiveClaims(old(Snapshot()))| - |SweepPass.ActiveClaims(Snapshot())|
    {
      ghost var start := Snapshot();
      var batch: nat := if limit <= 0 then DEFAULT_BATCH else limit;
      var ids := SelectDue(batch, locked);
      released := ExpireRows(ids);
      assert ids <= Due(start);
      SweepPass.SweepReturnsFreedSeats(start, ids);
      Invariant.CloseKeepsValid(start, ids, BookingExpired);
      assert Snapshot() == Steps.Sweep(start, ids);
    }

    // --------------------------------------------------------------- lifecycle

    method GetById(b: BookingId) returns (r: Result<Booking>)
      ensures r == if b in bookings then Ok(bookings[b]) else Err(ErrBookingNotFound)
    {
      r := if b in bookings then Ok(bookings[b]) else Err(ErrBookingNotFound);
    }

    /** The rows of booking_seats that belong to a booking. */
    method LoadSeats(b: BookingId) returns (seats: map<SeatId, Claim>)
      ensures seats == Readings.BookedSeats(claims, b)
    {
      seats := map[];
      var rest := set k | k in claims && k.booking == b;
      while rest != {}
        invariant forall k | k in rest :: k in claims && k.booking == b && k.seat !in seats
        invariant forall k | k in claims && k.booking == b && k !in rest :: k.seat in seats && seats[k.seat] == claims[k]
        invariant forall x | x in seats :: ClaimKey(b, x) in claims
        decreases |rest|
      {
        var k :| k in rest;
        seats := seats[k.seat := claims[k]];
        rest := rest - {k};
      }
      assert forall x | x in seats :: ClaimKey(b, x) in claims && seats[x] == claims[ClaimKey(b, x)];
    }

    function OwnedBy(user: UserId): set<BookingId>
      reads this
    {
      set b | b in bookings && bookings[b].user == user
    }

    /** A page of a user's bookings: different ones, all of them unless they are
        more than the limit. */
    ghost predicate IsPage(user: UserId, limit: int, ids: seq<BookingId>)
      reads this
    {
      var most := if limit <= 0 || limit > MAX_PAGE then DEFAULT_PAGE else limit;
      var all := OwnedBy(user);
      && |ids| == (if |all| < most then |all| else most)
      && (forall i | 0 <= i < |ids| :: ids[i] in all)
      && (forall i, j | 0 <= i < j < |ids| :: ids[i] != ids[j])
    }

    method ListByUser(user: UserId, limit: int) returns (ids: seq<BookingId>)
      ensures IsPage(user, limit, ids)
      ensures forall i | 0 <= i < |ids| :: ids[i] in bookings
    {
      var most := if limit <= 0 || limit > MAX_PAGE then DEFAULT_PAGE else limit;
      var all := OwnedBy(user);
      var rest := all;
      ids := [];
      while rest != {} && |ids| < most
        invariant rest <= all && |ids| + |rest| == |all| && |ids| <= most
        invariant forall i | 0 <= i < |ids| :: ids[i] in all - rest
        invariant forall i, j | 0 <= i < j < |ids| :: ids[i] != ids[j]
        decreases |rest|
      {
        var b :| b in rest;
        ids := ids + [b];
        rest := rest - {b};
      }
      assert rest == {} <==> |rest| == 0;
    }

    /** UPDATE ... WHERE status = 'held'. */
    method Confirm(b: BookingId) returns (r: Result<BookingId>)
      requires Valid()
      modifies this`bookings
      ensures Valid()
      ensures Outcome(Snapshot(), r) == Store.Confirm(old(Snapshot()), b)
    {
      Invariant.ConfirmKeepsValid(Snapshot(), b);
      if b !in bookings || !bookings[b].status.BookingHeld? {
        return Err(ErrBookingState);
      }
      bookings := bookings[b := bookings[b].(status := BookingConfirmed, expiry := None)];
      r := Ok(b);
    }

    /** UPDATE bookings ... WHERE status IN ('held', 'confirmed'), then UPDATE
        booking_seats. The error comes before the first write. */
    method CancelRows(b: BookingId, status: BookingStatus) returns (r: Result<BookingId>)
      modifies this`bookings, this`claims
      ensures if b in old(bookings) && old(bookings)[b].IsActive()
              then r == Ok(b) && Snapshot() == Close(old(Snapshot()), {b}, status)
              else r == Err(ErrBookingState) && Snapshot() == old(Snapshot())
    {
      if b !in bookings || !(bookings[b].status.BookingHeld? || bookings[b].status.BookingConfirmed?) {
        return Err(ErrBookingState);
      }
      CloseOne(Snapshot(), b, status);
      bookings := bookings[b := bookings[b].(status := status, expiry := None)];
      claims := map k | k in claims ::
        if k.booking == b && claims[k].active then claims[k].(active := false) else claims[k];
      r := Ok(b);
    }

    /** Moves the booking to its terminal status and frees its seats, in one
        transaction or as part of the caller's. */
    method Cancel(b: BookingId, status: BookingStatus) returns (r: Result<BookingId>)
      requires Valid()
      modifies this
      ensures Valid() && begun == old(begun)
      ensures Outcome(Snapshot(), r) == Store.Cancel(old(Snapshot()), b, status)
    {
      Invariant.CancelKeepsValid(Snapshot(), b, status);
      if status != BookingCancelled && status != BookingExpired {
        return Err(ErrDatabase);
      }
      var outermost := Begin();
      r := CancelRows(b, status);
      End(outermost, r.Err?);
    }

    method ExtendHold(b: BookingId, until: Time) returns (r: Result<BookingId>)
      requires Valid()
      modifies this`bookings
      ensures Valid()
      ensures Outcome(Snapshot(), r) == Store.ExtendHold(old(Snapshot()), b, until)
    {
      Invariant.ExtendKeepsValid(Snapshot(), b, until);
      r := ExtendRow(b, until);
    }

    /** SET hold_expires_at = GREATEST(hold_expires_at, until). */
    method ExtendRow(b: BookingId, until: Time) returns (r: Result<BookingId>)
      modifies this`bookings
      ensures Outcome(Snapshot(), r) == Store.ExtendHold(old(Snapshot()), b, until)
    {
      if b !in bookings || !bookings[b].status.BookingHeld? {
        return Err(ErrBookingState);
      }
      if bookings[b].expiry.None? || bookings[b].expiry.value < until {
        bookings := bookings[b := bookings[b].(expiry := Some(until))];
      }
      r := Ok(b);
    }

    // ---------------------------------------------------------------- payments

    /** INSERT INTO payments, and what the violated index means. */
    method Create(p: PaymentId, row: Payment) returns (r: Result<PaymentId>)
      requires Valid()
      modifies this`payments
      ensures Valid()
      ensures Outcome(Snapshot(), r) == CreatePayment(old(Snapshot()), p, row)
    {
      Invariant.CreateKeepsValid(Snapshot(), p, row);
      r := InsertPayment(p, row);
    }

    method InsertPayment(p: PaymentId, row: Payment) returns (r: Result<PaymentId>)
      requires OnePaymentPerKey(Snapshot())
      modifies this`payments
      ensures Outcome(Snapshot(), r) == CreatePayment(old(Snapshot()), p, row)
    {
      if p in payments || row.booking !in bookings {
        return Err(ErrDatabase);
      }
      if exists q :: q in payments && payments[q].key == row.key {
        var q :| q in payments && payments[q].key == row.key;
        assert OnePaymentPerKey(Snapshot());
        return Ok(q);
      }
      if row.ref != "" && exists q :: q in payments && payments[q].provider == row.provider && payments[q].ref == row.ref {
        return Err(ErrDatabase);
      }
      if row.IsOpen() && exists q :: q in payments && payments[q].booking == row.booking && payments[q].IsOpen() {
        return Err(ErrPaymentInProgress);
      }
      payments := payments[p := row];
      r := Ok(p);
    }

    /** The guarded status transition. */
    method Update(p: PaymentId, status: PaymentStatus) returns (r: Result<PaymentId>)
      requires Valid()
      modifies this`payments
      ensures Valid()
      ensures Outcome(Snapshot(), r) == UpdatePayment(old(Snapshot()), p, status)
    {
      Invariant.UpdateKeepsValid(Snapshot(), p, status);
      if p !in payments || !(payments[p].status.PaymentPending? || payments[p].status.PaymentProcessing?
                             || (payments[p].status.PaymentSucceeded? && status.PaymentRefunded?)) {
        return Err(ErrPaymentState);
      }
      payments := payments[p := payments[p].(status := status)];
      r := Ok(p);
    }

    method GetByProviderRef(provider: string, ref: string) returns (r: Result<PaymentId>)
      requires OnePaymentPerRef(Snapshot())
      ensures r == match ByRef(payments, provider, ref) case Some(p) => Ok(p) case None => Err(ErrPaymentNotFound)
    {
      if ref == "" || !exists p :: p in payments && payments[p].provider == provider && payments[p].ref == ref {
        return Err(ErrPaymentNotFound);
      }
      var p :| p in payments && payments[p].provider == provider && payments[p].ref == ref;
      r := Ok(p);
    }

    /** INSERT ... ON CONFLICT DO NOTHING; false says the event is a duplicate. */
    method RecordEvent(ev: PaymentEvent) returns (isNew: bool)
      requires Valid()
      modifies this`events
      ensures Valid()
      ensures isNew == (ev.key !in old(events))
      ensures Snapshot() == if isNew
                            then Recorded(old(Snapshot()), ev.key, ByRef(old(payments), ev.key.provider, ev.ref))
                            else old(Snapshot())
    {
      if ev.key in events {
        return false;
      }
      var charge := GetByProviderRef(ev.key.provider, ev.ref);
      Invariant.RecordedKeepsValid(Snapshot(), ev.key, ByRef(payments, ev.key.provider, ev.ref));
      events := events[ev.key := if charge.Ok? then Some(charge.value) else None];
      isNew := true;
    }

    method GetOpenByBooking(b: BookingId) returns (r: Result<PaymentId>)
      ensures r.Ok? <==> HasOpenPayment(payments, b)
      ensures r.Ok? ==> r.value in payments && payments[r.value].booking == b && payments[r.value].IsOpen()
      ensures r.Err? ==> r.error == ErrPaymentNotFound
    {
      if !exists p :: p in payments && payments[p].booking == b && payments[p].IsOpen() {
        return Err(ErrPaymentNotFound);
      }
      var p :| p in payments && payments[p].booking == b && payments[p].IsOpen();
      r := Ok(p);
    }

    method GetSucceededByBooking(b: BookingId) returns (r: Result<PaymentId>)
      ensures r.Ok? <==> exists p :: p in payments && payments[p].booking == b && payments[p].status.PaymentSucceeded?
      ensures r.Ok? ==> r.value in payments && payments[r.value].booking == b
                        && payments[r.value].status.PaymentSucceeded?
      ensures r.Err? ==> r.error == ErrPaymentNotFound
    {
      if !exists p :: p in payments && payments[p].booking == b && payments[p].status.PaymentSucceeded? {
        return Err(ErrPaymentNotFound);
      }
      var p :| p in payments && payments[p].booking == b && payments[p].status.PaymentSucceeded?;
      r := Ok(p);
    }
  }
}
