/** Claiming seats one row at a time: what the table holds in between, and why
    the insert loop succeeds exactly when claiming all seats at once would. */
module Claiming {
  import opened Domain
  import opened Store
  import Seats
  import Invariant

  predicate TakenIn(claims: map<ClaimKey, Claim>, st: ShowtimeId, seat: SeatId) {
    exists k :: k in claims && k.seat == seat && claims[k].showtime == st && claims[k].active
  }

  /** The order a hold inserts: its booking, its showtime, its prices, its seats. */
  datatype Order = Order(id: BookingId, st: ShowtimeId, base: nat, seats: seq<Seat>) {
    function Rows(i: nat): map<ClaimKey, Claim>
      requires i <= |seats|
    {
      NewClaims(id, st, base, seats[..i])
    }
  }

  /** The table after the first `i` inserts into `found`. */
  ghost predicate After(found: map<ClaimKey, Claim>, o: Order, i: nat, claims: map<ClaimKey, Claim>) {
    && i <= |o.seats|
    && Seats.Distinct(o.seats[..i])
    && (forall k | k in found :: k.booking != o.id)
    && claims == found + o.Rows(i)
    && forall j | 0 <= j < i :: !TakenIn(found, o.st, o.seats[j].id)
  }

  lemma RowsOfOthers(found: map<ClaimKey, Claim>, o: Order, i: nat, claims: map<ClaimKey, Claim>)
    requires After(found, o, i, claims)
    ensures forall k: ClaimKey | k.booking != o.id :: (k in claims <==> k in found) && (k in found ==> claims[k] == found[k])
    ensures forall k: ClaimKey | k.booking == o.id :: k in claims <==> k.seat in Seats.Ids(o.seats[..i])
  {
  }

  lemma InsertedBefore(o: Order, i: nat)
    requires i < |o.seats| && o.seats[i].id in Seats.Ids(o.seats[..i])
    ensures !Seats.Distinct(o.seats)
  {
    var x :| x in o.seats[..i] && x.id == o.seats[i].id;
    var j :| 0 <= j < i && o.seats[..i][j] == x;
    assert o.seats[j].id == o.seats[i].id;
  }

  lemma StillDistinct(o: Order, i: nat)
    requires i < |o.seats| && Seats.Distinct(o.seats[..i]) && o.seats[i].id !in Seats.Ids(o.seats[..i])
    ensures Seats.Distinct(o.seats[..i + 1])
  {
    var next := o.seats[..i + 1];
    forall j | 0 <= j < i ensures next[j].id != next[i].id {
      assert next[j] in o.seats[..i];
    }
  }

  /** The unique index on (booking, seat) refuses only a seat named twice, the
      index on active claims only a seat somebody else had. */
  lemma RefusedForGoodReason(found: map<ClaimKey, Claim>, o: Order, i: nat, claims: map<ClaimKey, Claim>)
    requires After(found, o, i, claims) && i < |o.seats|
    ensures ClaimKey(o.id, o.seats[i].id) in claims ==> !Seats.Distinct(o.seats)
    ensures ClaimKey(o.id, o.seats[i].id) !in claims ==>
              (TakenIn(claims, o.st, o.seats[i].id) <==> TakenIn(found, o.st, o.seats[i].id))
  {
    var key := ClaimKey(o.id, o.seats[i].id);
    RowsOfOthers(found, o, i, claims);
    if key in claims {
      InsertedBefore(o, i);
    } else {
      forall k: ClaimKey | k.booking == o.id && k.seat == o.seats[i].id ensures k !in claims {
        assert k == key;
      }
    }
  }

  lemma OneMoreRow(o: Order, i: nat)
    requires i < |o.seats| && Seats.Distinct(o.seats[..i + 1])
    ensures o.Rows(i + 1) == o.Rows(i)[ClaimKey(o.id, o.seats[i].id) := Claim(o.st, o.seats[i].PriceCents(o.base), true)]
  {
    assert o.seats[..i + 1][..i] == o.seats[..i];
    Invariant.NewClaimsGrow(o.id, o.st, o.base, o.seats[..i + 1]);
  }

  lemma Inserted(found: map<ClaimKey, Claim>, o: Order, i: nat, claims: map<ClaimKey, Claim>)
    requires After(found, o, i, claims) && i < |o.seats|
    requires ClaimKey(o.id, o.seats[i].id) !in claims && !TakenIn(claims, o.st, o.seats[i].id)
    ensures After(found, o, i + 1,
                  claims[ClaimKey(o.id, o.seats[i].id) := Claim(o.st, o.seats[i].PriceCents(o.base), true)])
  {
    var key := ClaimKey(o.id, o.seats[i].id);
    RefusedForGoodReason(found, o, i, claims);
    assert o.seats[i].id !in Seats.Ids(o.seats[..i]) by {
      RowsOfOthers(found, o, i, claims);
      assert key.booking == o.id;
    }
    StillDistinct(o, i);
    OneMoreRow(o, i);
    assert found + o.Rows(i + 1) == claims[key := o.Rows(i + 1)[key]];
  }

  /** The claims of a hold do not depend on the order they are inserted in. */
  lemma AnyOrder(id: BookingId, st: ShowtimeId, base: nat, a: seq<Seat>, b: seq<Seat>)
    requires Seats.Distinct(a) && Seats.Distinct(b) && Seats.Ids(a) == Seats.Ids(b)
    requires forall x :: x in a <==> x in b
    ensures NewClaims(id, st, base, a) == NewClaims(id, st, base, b)
  {
    forall k | k in NewClaims(id, st, base, a)
      ensures NewClaims(id, st, base, a)[k] == NewClaims(id, st, base, b)[k]
    {
      var x :| x in a && x.id == k.seat;
      Seats.PriceAtFinds(a, x, base);
      Seats.PriceAtFinds(b, x, base);
    }
  }

  /** When every insert went through, the transaction is the atomic hold. */
  lemma AllInserted(s: State, req: NewBooking, id: BookingId, claims: map<ClaimKey, Claim>)
    requires !HasKey(s, req.user, req.key) && id !in s.bookings
    requires var seats := Seats.Sort(req.seats);
             After(ReleaseLapsed(s, req.showtime).claims, Order(id, req.showtime, req.basePrice, seats), |seats|, claims)
    ensures TryHold(s, req, id) == Held(id)
    ensures claims == Claimed(ReleaseLapsed(s, req.showtime), req, id).claims
  {
    var seats := Seats.Sort(req.seats);
    assert seats[..|seats|] == seats;
    Seats.SortedOrder(req.seats, req.basePrice);
    AnyOrder(id, req.showtime, req.basePrice, seats, req.seats);
    forall x | x in req.seats ensures Free(ReleaseLapsed(s, req.showtime), req.showtime, x.id) {
      assert x in seats;
    }
  }

  /** When one was refused, the atomic hold is refused as well. */
  lemma OneRefused(s: State, req: NewBooking, id: BookingId)
    requires !HasKey(s, req.user, req.key)
    requires var seats := Seats.Sort(req.seats);
             !Seats.Distinct(seats)
             || exists x | x in seats :: TakenIn(ReleaseLapsed(s, req.showtime).claims, req.showtime, x.id)
    ensures TryHold(s, req, id).Refused?
  {
    Seats.SortedOrder(req.seats, req.basePrice);
    if Seats.Distinct(req.seats) {
      var x :| x in Seats.Sort(req.seats) && TakenIn(ReleaseLapsed(s, req.showtime).claims, req.showtime, x.id);
      assert x in req.seats;
      assert !Free(ReleaseLapsed(s, req.showtime), req.showtime, x.id);
    }
  }
}
