/** The in-memory repository itself: maps mutated under a lock. */
module FakeBookings {
  import opened Domain
  import opened InMemory
  import Seats

  lemma DropNothing(m: Memory)
    ensures Drop(m, {}) == m
  {
    assert Drop(m, {}).bookings == m.bookings && Drop(m, {}).claims == m.claims;
  }

  /** Dropping one booking more. */
  lemma DropOneMore(m: Memory, ids: set<BookingId>, b: BookingId)
    requires b in m.bookings && b !in ids
    ensures Drop(m, ids + {b}).bookings ==
            Drop(m, ids).bookings[b := m.bookings[b].(status := BookingExpired, expiry := None)]
    ensures Drop(m, ids + {b}).claims == map k | k in Drop(m, ids).claims && Drop(m, ids).claims[k] != b :: m.claims[k]
  {
  }

  lemma OneMoreSlot(st: ShowtimeId, seats: seq<Seat>, i: nat)
    requires i < |seats|
    ensures Slots(st, seats[..i + 1]) == Slots(st, seats[..i]) + {Slot(st, seats[i].id)}
    ensures forall base: nat ::
              Seats.TotalPrice(seats[..i + 1], base) == Seats.TotalPrice(seats[..i], base) + seats[i].PriceCents(base)
  {
    assert seats[..i + 1] == seats[..i] + [seats[i]];
    assert Seats.Ids(seats[..i + 1]) == Seats.Ids(seats[..i]) + {seats[i].id};
  }

  class Repository {
    var bookings: map<BookingId, Booking>
    /** Who has which seat of which showtime. */
    var claims: map<Slot, BookingId>
    var nextID: nat

    constructor ()
      ensures Contents() == Memory(map[], map[], 0)
    {
      bookings, claims, nextID := map[], map[], 0;
    }

    function Contents(): Memory
      reads this
    {
      Memory(bookings, claims, nextID)
    }

    method ReleaseClaims(b: BookingId)
      modifies this`claims
      ensures claims == map k | k in old(claims) && old(claims)[k] != b :: old(claims)[k]
    {
      var rest := claims.Keys;
      while rest != {}
        invariant rest <= old(claims).Keys
        invariant claims == map k | k in old(claims) && (k in rest || old(claims)[k] != b) :: old(claims)[k]
        decreases |rest|
      {
        var k :| k in rest;
        if claims[k] == b {
          claims := claims - {k};
        }
        rest := rest - {k};
      }
    }

    method ExpireOne(b: BookingId, ghost m: Memory, ghost done: set<BookingId>)
      requires b in m.bookings && b !in done && Contents() == Drop(m, done)
      modifies this`bookings, this`claims
      ensures Contents() == Drop(m, done + {b})
    {
      DropOneMore(m, done, b);
      bookings := bookings[b := bookings[b].(status := BookingExpired, expiry := None)];
      ReleaseClaims(b);
    }

    method ReleaseLapsed(now: Time)
      modifies this`bookings, this`claims
      ensures Contents() == Released(old(Contents()), now)
    {
      ghost var m := Contents();
      var rest := bookings.Keys;
      DropNothing(m);
      while rest != {}
        invariant rest <= m.bookings.Keys
        invariant Contents() == Drop(m, LapsedAt(m, now) - rest)
        decreases |rest|
      {
        var b :| b in rest;
        ghost var done := LapsedAt(m, now) - rest;
        if bookings[b].HoldLapsed(now) {
          assert LapsedAt(m, now) - (rest - {b}) == done + {b};
          ExpireOne(b, m, done);
        } else {
          assert LapsedAt(m, now) - (rest - {b}) == done;
        }
        rest := rest - {b};
      }
      assert LapsedAt(m, now) - {} == LapsedAt(m, now);
    }

    method AllFree(st: ShowtimeId, seats: seq<Seat>) returns (free: bool)
      ensures free <==> AllUnclaimed(Contents(), st, seats)
    {
      for i := 0 to |seats|
        invariant forall j | 0 <= j < i :: Slot(st, seats[j].id) !in claims
      {
        if Slot(st, seats[i].id) in claims {
          assert seats[i] in seats;
          return false;
        }
      }
      free := true;
    }

    /** Claims the seats one by one and adds up their prices. */
    method ClaimAll(id: BookingId, st: ShowtimeId, seats: seq<Seat>, base: nat) returns (total: nat)
      modifies this`claims
      ensures total == Seats.TotalPrice(seats, base)
      ensures claims == old(claims) + map k | k in Slots(st, seats) :: id
    {
      total := 0;
      assert Slots(st, seats[..0]) == {};
      for i := 0 to |seats|
        invariant total == Seats.TotalPrice(seats[..i], base)
        invariant claims == old(claims) + map k | k in Slots(st, seats[..i]) :: id
      {
        OneMoreSlot(st, seats, i);
        total := total + seats[i].PriceCents(base);
        claims := claims[Slot(st, seats[i].id) := id];
      }
      assert seats[..|seats|] == seats;
    }

    /** Checks every seat, then claims every seat; a known key returns its
        booking before anything is released. */
    method Hold(req: NewBooking, now: Time) returns (r: Result<BookingId>)
      modifies this
      ensures Contents() == InMemory.Hold(old(Contents()), req, now)
      ensures match TryHold(old(Contents()), req, now)
              case Known => r.Ok? && r.value in bookings && bookings[r.value].user == req.user
                            && bookings[r.value].key == req.key
              case Claims => r == Ok(nextID) && nextID == old(nextID) + 1
              case Unavailable => r == Err(ErrSeatUnavailable)
    {
      if req.key != "" && exists b :: b in bookings && bookings[b].user == req.user && bookings[b].key == req.key {
        var b :| b in bookings && bookings[b].user == req.user && bookings[b].key == req.key;
        return Ok(b);
      }
      ReleaseLapsed(now);
      var free := AllFree(req.showtime, req.seats);
      if !free {
        return Err(ErrSeatUnavailable);
      }
      TakeSeats(req, now);
      r := Ok(nextID);
    }

    method TakeSeats(req: NewBooking, now: Time)
      modifies this
      ensures Contents() == Taken(old(Contents()), req, now)
    {
      nextID := nextID + 1;
      var total := ClaimAll(nextID, req.showtime, req.seats, req.basePrice);
      bookings := bookings[nextID := Booking(req.showtime, req.user, BookingHeld, total, Some(now + req.holdTTL), req.key)];
    }

    method Confirm(b: BookingId) returns (r: Result<BookingId>)
      modifies this`bookings
      ensures Contents() == InMemory.Confirm(old(Contents()), b)
      ensures r == if b in old(bookings) && old(bookings)[b].status.BookingHeld? then Ok(b) else Err(ErrBookingState)
    {
      if b !in bookings || !bookings[b].status.BookingHeld? {
        return Err(ErrBookingState);
      }
      bookings := bookings[b := bookings[b].(status := BookingConfirmed, expiry := None)];
      r := Ok(b);
    }

    method Cancel(b: BookingId) returns (r: Result<BookingId>)
      modifies this`bookings, this`claims
      ensures Contents() == InMemory.Cancel(old(Contents()), b)
      ensures r == if b in old(bookings) && old(bookings)[b].IsActive() then Ok(b) else Err(ErrBookingState)
    {
      if b !in bookings || !bookings[b].IsActive() {
        return Err(ErrBookingState);
      }
      bookings := bookings[b := bookings[b].(status := BookingCancelled, expiry := None)];
      ReleaseClaims(b);
      r := Ok(b);
    }

    method ExtendHold(b: BookingId, until: Time) returns (r: Result<BookingId>)
      modifies this`bookings
      ensures Contents() == InMemory.ExtendHold(old(Contents()), b, until)
      ensures r == if b in old(bookings) && old(bookings)[b].status.BookingHeld? then Ok(b) else Err(ErrBookingState)
    {
      if b !in bookings || !bookings[b].status.BookingHeld? {
        return Err(ErrBookingState);
      }
      if bookings[b].expiry.None? || bookings[b].expiry.value < until {
        bookings := bookings[b := bookings[b].(expiry := Some(until))];
      }
      r := Ok(b);
    }

    /** Counts claims, like the PostgreSQL pass, but has no limit. */
    method ExpireDueHolds(now: Time) returns (released: int)
      modifies this`bookings, this`claims
      ensures Contents() == Released(old(Contents()), now)
      ensures released == |set k | k in old(claims) && old(claims)[k] in LapsedAt(old(Contents()), now)|
    {
      var before := |claims|;
      ghost var gone := set k | k in claims && claims[k] in LapsedAt(Contents(), now);
      ghost var all := claims.Keys;
      ReleaseLapsed(now);
      assert claims.Keys == all - gone;
      released := before - |claims|;
    }
  }
}
