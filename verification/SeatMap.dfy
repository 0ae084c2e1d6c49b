/** What a client sees of a showtime, and what it is worth: a seat shown as
    available is exactly a seat a hold would get. */
module SeatMap {
  import opened Domain
  import opened Store
  import Invariant
  import Seats

  datatype SeatStatus = Available | HeldBy(holder: BookingId) | SoldTo(buyer: BookingId)

  /** The active claims the left join finds for a seat. */
  function ClaimsOn(s: State, st: ShowtimeId, seat: SeatId): set<BookingId> {
    set k | k in s.claims && k.seat == seat && s.claims[k].showtime == st && s.claims[k].active :: k.booking
  }

  /** The condition of the second join: a lapsed hold does not show. */
  predicate Shows(s: State, b: BookingId) {
    && b in s.bookings
    && (|| s.bookings[b].status.BookingConfirmed?
        || (s.bookings[b].status.BookingHeld? && s.bookings[b].expiry.Some? && s.now < s.bookings[b].expiry.value))
  }

  function StatusFrom(s: State, b: BookingId): SeatStatus {
    if !Shows(s, b) then Available
    else if s.bookings[b].status.BookingConfirmed? then SoldTo(b)
    else HeldBy(b)
  }

  ghost function StatusOf(s: State, st: ShowtimeId, seat: SeatId): SeatStatus {
    if b :| b in ClaimsOn(s, st, seat) then StatusFrom(s, b) else Available
  }

  /** The booking has an active claim on the seat. */
  ghost predicate HasSeat(s: State, b: BookingId, st: ShowtimeId, seat: SeatId) {
    var k := ClaimKey(b, seat);
    b in s.bookings && k in s.claims && s.claims[k].active && s.claims[k].showtime == st
  }

  /** Sold to the confirmed booking that has the seat, held by the held one that
      has it and has not lapsed, and available when there is neither. */
  ghost predicate Truthful(s: State, st: ShowtimeId, seat: SeatId, status: SeatStatus) {
    && (forall b :: status == SoldTo(b) <==> HasSeat(s, b, st, seat) && s.bookings[b].status == BookingConfirmed)
    && (forall b :: status == HeldBy(b) <==>
                    && HasSeat(s, b, st, seat) && s.bookings[b].status == BookingHeld
                    && s.bookings[b].expiry.Some? && s.now < s.bookings[b].expiry.value)
  }

  /** The join yields one row for every seat. */
  lemma AtMostOneClaim(s: State, st: ShowtimeId, seat: SeatId)
    requires OneActiveClaim(s)
    ensures |ClaimsOn(s, st, seat)| <= 1
    ensures forall b | b in ClaimsOn(s, st, seat) ::
              ClaimsOn(s, st, seat) == {b} && StatusOf(s, st, seat) == StatusFrom(s, b)
  {
    forall a, b | a in ClaimsOn(s, st, seat) && b in ClaimsOn(s, st, seat) ensures a == b {
      assert ClaimKey(a, seat) in s.claims && ClaimKey(b, seat) in s.claims;
    }
    if b :| b in ClaimsOn(s, st, seat) {
      assert ClaimsOn(s, st, seat) == {b};
    }
  }

  lemma StatusIsTruthful(s: State, st: ShowtimeId, seat: SeatId)
    requires OneActiveClaim(s)
    ensures Truthful(s, st, seat, StatusOf(s, st, seat))
  {
    AtMostOneClaim(s, st, seat);
    forall b ensures HasSeat(s, b, st, seat) <==> b in ClaimsOn(s, st, seat) && b in s.bookings {}
  }

  /** A payment sells the seats that were held: confirming a booking turns every
      seat it has from held, or from available after the hold lapsed, to sold. */
  lemma ConfirmingSellsSeats(s: State, b: BookingId, st: ShowtimeId, seat: SeatId)
    requires Valid(s) && HasSeat(s, b, st, seat) && s.bookings[b].status == BookingHeld
    ensures StatusOf(s, st, seat) == if s.now < s.bookings[b].expiry.value then HeldBy(b) else Available
    ensures StatusOf(Confirm(s, b).state, st, seat) == SoldTo(b)
  {
    var t := Confirm(s, b).state;
    Invariant.ConfirmKeepsValid(s, b);
    StatusIsTruthful(s, st, seat);
    StatusIsTruthful(t, st, seat);
    assert HasSeat(t, b, st, seat);
    AtMostOneClaim(s, st, seat);
    assert b in ClaimsOn(s, st, seat);
  }

  lemma AvailableIffFreeAfterRelease(s: State, st: ShowtimeId, seat: SeatId)
    requires OneActiveClaim(s) && ClaimsFollowBookings(s) && ExpiryIffHeld(s)
    ensures StatusOf(s, st, seat).Available? <==> Free(ReleaseLapsed(s, st), st, seat)
  {
    var r := ReleaseLapsed(s, st);
    AtMostOneClaim(s, st, seat);
    if StatusOf(s, st, seat).Available? {
      forall k | k in s.claims && k.seat == seat && s.claims[k].showtime == st && s.claims[k].active
        ensures k.booking in LapsedIn(s, st)
      {
        assert k.booking in ClaimsOn(s, st, seat);
      }
    } else {
      var b :| b in ClaimsOn(s, st, seat);
      assert b !in LapsedIn(s, st);
      assert ClaimKey(b, seat) in r.claims;
    }
  }

  /** A hold with a new or absent key for distinct seats succeeds if and only if
      the seat map, at the same instant, shows every one of them as available. */
  lemma SeatMapAgreesWithHold(s: State, req: NewBooking, id: BookingId)
    requires OneActiveClaim(s) && ClaimsFollowBookings(s) && ExpiryIffHeld(s) && id !in s.bookings
    requires !HasKey(s, req.user, req.key) && Seats.Distinct(req.seats)
    ensures TryHold(s, req, id).Held? <==>
            forall x | x in req.seats :: StatusOf(s, req.showtime, x.id).Available?
  {
    var r := ReleaseLapsed(s, req.showtime);
    forall x | x in req.seats
      ensures StatusOf(s, req.showtime, x.id).Available? <==> Free(r, req.showtime, x.id)
    {
      AvailableIffFreeAfterRelease(s, req.showtime, x.id);
    }
    assert TryHold(s, req, id).Held? <==> forall x | x in req.seats :: Free(r, req.showtime, x.id);
  }

  /** And afterwards the seat map shows them as held by the new booking, for as
      long as the request asked. */
  lemma HeldSeatsShow(s: State, req: NewBooking, id: BookingId, x: Seat)
    requires Valid(s) && TryHold(s, req, id).Held? && x in req.seats
    ensures StatusOf(Hold(s, req, id), req.showtime, x.id) == if 0 < req.holdTTL then HeldBy(id) else Available
  {
    var t := Hold(s, req, id);
    Invariant.HoldKeepsValid(s, req, id);
    var k := ClaimKey(id, x.id);
    assert k in t.claims && t.claims[k].active && t.claims[k].showtime == req.showtime;
    assert id in ClaimsOn(t, req.showtime, x.id);
    AtMostOneClaim(t, req.showtime, x.id);
  }
}
