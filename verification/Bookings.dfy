/** The booking use case: the rules checked before a hold, and what its answer
    means to the client who looked at the seat map. */
module Bookings {
  import opened Domain
  import opened Catalog
  import opened Readings
  import HoldRaces
  import Postgres
  import SeatMap
  import Seats
  import Store

  // Times are in seconds.
  const DEFAULT_HOLD_TTL := 5 * 60
  const DEFAULT_MAX_SEATS := 10

  ghost predicate RepeatsAt(ids: seq<IdText>, i: nat)
    requires i < |ids|
  {
    exists j :: 0 <= j < i && ids[j] == ids[i]
  }

  ghost predicate FirstRepeatAt(ids: seq<IdText>, i: nat)
    requires i < |ids|
  {
    RepeatsAt(ids, i) && forall j :: 0 <= j < i ==> !RepeatsAt(ids, j)
  }

  /** The text of the first id that was listed before; empty when there is none.
      An empty text listed twice reads like no repetition. */
  method FirstDuplicate(ids: seq<IdText>) returns (dup: string)
    ensures forall i :: 0 <= i < |ids| && FirstRepeatAt(ids, i) ==> dup == ids[i].text
    ensures (forall i :: 0 <= i < |ids| ==> !FirstRepeatAt(ids, i)) ==> dup == ""
  {
    var seen := {};
    for i := 0 to |ids|
      invariant seen == set t | t in ids[..i]
      invariant forall j :: 0 <= j < i ==> !RepeatsAt(ids, j)
    {
      if ids[i] in seen {
        var k :| 0 <= k < i && ids[..i][k] == ids[i];
        assert FirstRepeatAt(ids, i);
        return ids[i].text;
      }
      forall j | 0 <= j < i ensures ids[j] != ids[i] {
        assert ids[j] in ids[..i];
      }
      assert ids[..i + 1] == ids[..i] + [ids[i]];
      seen := seen + {ids[i]};
    }
    dup := "";
  }

  lemma DifferentSeatsDoNotRepeat(ids: seq<IdText>)
    requires WellFormed(ids) && DifferentSeats(ids)
    ensures forall i :: 0 <= i < |ids| ==> !RepeatsAt(ids, i)
  {
  }

  /** `req` asks for the seats the ids name, and nothing else. */
  ghost predicate Asks(req: NewBooking, st: ShowtimeId, showtime: Showtime, user: UserId, ids: seq<IdText>, hall: seq<Seat>,
                       ttl: int, key: string)
  {
    && req == NewBooking(st, user, req.seats, showtime.basePrice, ttl, key)
    && Seats.Distinct(req.seats)
    && Seats.Ids(req.seats) == ValuesOf(ids)
    && forall x | x in req.seats :: x in hall
  }

  /** Looking at the seat map seat by seat or at the request's list is the same. */
  lemma AllShownAvailable(s: Store.State, st: ShowtimeId, seats: seq<Seat>, ids: seq<IdText>)
    requires WellFormed(ids) && Seats.Ids(seats) == ValuesOf(ids)
    ensures (forall x | x in seats :: SeatMap.StatusOf(s, st, x.id).Available?) <==>
            (forall t | t in ids :: SeatMap.StatusOf(s, st, t.id).Available?)
  {
    forall x | x in seats ensures exists t :: t in ids && t.id == x.id {
      assert x.id in Seats.Ids(seats);
    }
    forall t | t in ids ensures exists x :: x in seats && x.id == t.id {
      assert t.id in ValuesOf(ids);
    }
  }

  lemma HoldsIffShown(s: Store.State, req: NewBooking, id: BookingId, ids: seq<IdText>)
    requires Store.Valid(s) && id !in s.bookings && !Store.HasKey(s, req.user, req.key)
    requires Seats.Distinct(req.seats) && WellFormed(ids) && Seats.Ids(req.seats) == ValuesOf(ids)
    ensures Store.TryHold(s, req, id).Held? <==>
            forall t | t in ids :: SeatMap.StatusOf(s, req.showtime, t.id).Available?
    ensures !Store.TryHold(s, req, id).Replayed?
  {
    SeatMap.SeatMapAgreesWithHold(s, req, id);
    AllShownAvailable(s, req.showtime, req.seats, ids);
  }

  /** One active claim of the booking on every seat the ids name, at its price,
      and no other claim of it. */
  ghost predicate Claimed(claims: map<ClaimKey, Claim>, id: BookingId, st: ShowtimeId, showtime: Showtime, ids: seq<IdText>,
                          hall: seq<Seat>)
  {
    && (forall k | k in claims && k.booking == id :: k.seat in ValuesOf(ids))
    && (forall x | x in hall && x.id in ValuesOf(ids) ::
          && ClaimKey(id, x.id) in claims
          && claims[ClaimKey(id, x.id)] ==
             Claim(st, if x.kind.Premium? then 5 * showtime.basePrice / 4 else showtime.basePrice, true))
  }

  predicate LapsedHere(s: Store.State, b: BookingId, st: ShowtimeId) {
    && b in s.bookings && s.bookings[b].status == BookingHeld && s.bookings[b].showtime == st
    && s.bookings[b].expiry.Some? && s.bookings[b].expiry.value <= s.now
  }

  /** Besides the new booking, only the lapsed holds of the showtime changed: they
      expired and gave up their seats. */
  ghost predicate OnlyReleasesLapsed(s: Store.State, t: Store.State, st: ShowtimeId, id: BookingId) {
    && t.bookings.Keys == s.bookings.Keys + {id}
    && (forall b | b in s.bookings ::
          t.bookings[b] == if LapsedHere(s, b, st) then s.bookings[b].(status := BookingExpired, expiry := None)
                           else s.bookings[b])
    && (forall k | k in s.claims ::
          k in t.claims && t.claims[k] == if LapsedHere(s, k.booking, st) then s.claims[k].(active := false)
                                          else s.claims[k])
    && t.now == s.now && t.payments == s.payments && t.events == s.events
  }

  /** All that a hold wrote. */
  ghost predicate Booked(s: Store.State, t: Store.State, id: BookingId, st: ShowtimeId, showtime: Showtime, user: UserId,
                         ids: seq<IdText>, hall: seq<Seat>, ttl: int, key: string)
  {
    && id in t.bookings
    && t.bookings[id] == Booking(st, user, BookingHeld, t.bookings[id].total, Some(s.now + ttl), key)
    && Claimed(t.claims, id, st, showtime, ids, hall)
    && OnlyReleasesLapsed(s, t, st, id)
  }

  lemma HoldReleases(s: Store.State, req: NewBooking, id: BookingId)
    requires Store.ClaimsFollowBookings(s) && Store.TryHold(s, req, id).Held?
    ensures OnlyReleasesLapsed(s, Store.Hold(s, req, id), req.showtime, id)
  {
    forall k | k in s.claims ensures k.booking != id {}
    forall b ensures b in Store.LapsedIn(s, req.showtime) <==> LapsedHere(s, b, req.showtime) {}
  }

  lemma HoldWrites(s: Store.State, req: NewBooking, id: BookingId, st: ShowtimeId, showtime: Showtime, user: UserId,
                   ids: seq<IdText>, hall: seq<Seat>, ttl: int, key: string)
    requires Store.ClaimsFollowBookings(s) && Seats.Distinct(hall)
    requires Asks(req, st, showtime, user, ids, hall, ttl, key) && Store.TryHold(s, req, id).Held?
    ensures Booked(s, Store.Hold(s, req, id), id, st, showtime, user, ids, hall, ttl, key)
  {
    HoldReleases(s, req, id);
    var t := Store.Hold(s, req, id);
    forall k | k in t.claims && k.booking == id ensures k.seat in ValuesOf(ids) {
      assert k !in s.claims;
    }
    forall x | x in hall && x.id in ValuesOf(ids)
      ensures ClaimKey(id, x.id) in t.claims && t.claims[ClaimKey(id, x.id)] == Claim(st, x.PriceCents(showtime.basePrice), true)
    {
      assert x.id in Seats.Ids(req.seats);
      var y :| y in req.seats && y.id == x.id;
      assert y == x;
      Seats.PriceAtFinds(req.seats, x, req.basePrice);
    }
  }

  class BookingService {
    const bookings: Postgres.Database
    const catalog: CatalogRepository
    const holdTTL: int
    const maxSeats: int
    const cutoff: int

    constructor (bookings: Postgres.Database, catalog: CatalogRepository, holdTTL: int, maxSeats: int, cutoff: int)
      ensures this.bookings == bookings && this.catalog == catalog && this.cutoff == cutoff
      ensures this.holdTTL == (if holdTTL <= 0 then DEFAULT_HOLD_TTL else holdTTL)
      ensures this.maxSeats == (if maxSeats <= 0 then DEFAULT_MAX_SEATS else maxSeats)
    {
      this.bookings, this.catalog, this.cutoff := bookings, catalog, cutoff;
      this.holdTTL := if holdTTL <= 0 then DEFAULT_HOLD_TTL else holdTTL;
      this.maxSeats := if maxSeats <= 0 then DEFAULT_MAX_SEATS else maxSeats;
    }

    ghost predicate Valid()
      reads bookings
    {
      bookings.Valid() && bookings.begun.None? && catalog.Valid() && catalog.db == bookings
    }

    /** Tickets are sold until the cutoff, and not for a cancelled screening. */
    function AssertBookable(showtime: Showtime, now: Time): Option<Error> {
      if showtime.cancelled then Some(ErrShowtimeCanceled)
      else if showtime.startsAt < now + cutoff then Some(ErrShowtimeStarted)
      else None
    }

    /** What the use case itself demands of a request. */
    ghost predicate Admissible(st: ShowtimeId, ids: seq<IdText>, user: UserId, now: Time) {
      && user != "" && 0 < |ids| <= maxSeats
      && WellFormed(ids) && DifferentSeats(ids)
      && st in catalog.showtimes
      && !catalog.showtimes[st].cancelled && now + cutoff <= catalog.showtimes[st].startsAt
      && ValuesOf(ids) <= Seats.Ids(catalog.SeatsOf(catalog.showtimes[st].hall))
    }

    /** The checks before the hold, in order; they load the seats. */
    method Check(st: ShowtimeId, ids: seq<IdText>) returns (r: Result<seq<Seat>>)
      requires Valid()
      ensures r.Ok? <==> && ids != [] && WellFormed(ids) && DifferentSeats(ids)
                         && st in catalog.showtimes && !catalog.showtimes[st].cancelled
                         && bookings.now + cutoff <= catalog.showtimes[st].startsAt
                         && ValuesOf(ids) <= Seats.Ids(catalog.SeatsOf(catalog.showtimes[st].hall))
      ensures r.Ok? ==> && Seats.Distinct(r.value) && Seats.Ids(r.value) == ValuesOf(ids)
                        && forall x | x in r.value :: x in catalog.SeatsOf(catalog.showtimes[st].hall)
      ensures r == Err(ErrShowtimeNotFound) <==> st !in catalog.showtimes
      ensures r == Err(ErrShowtimeCanceled) <==> st in catalog.showtimes && catalog.showtimes[st].cancelled
      ensures r == Err(ErrShowtimeStarted) <==>
                && st in catalog.showtimes && !catalog.showtimes[st].cancelled
                && catalog.showtimes[st].startsAt < bookings.now + cutoff
      ensures r.Err? && st in catalog.showtimes && !catalog.showtimes[st].cancelled
              && bookings.now + cutoff <= catalog.showtimes[st].startsAt ==>
                r.error == if ids == [] then ErrValidation else ErrSeatNotFound
    {
      var showtime := catalog.GetShowtime(st);
      if showtime.Err? {
        return Err(showtime.error);
      }
      var refusal := AssertBookable(showtime.value, bookings.now);
      if refusal.Some? {
        return Err(refusal.value);
      }
      r := catalog.SeatsByIDs(showtime.value.hall, ids);
    }

    /** What is checked of a request before the tables are read. An empty text
        listed twice reads like no repetition. */
    ghost predicate WellAsked(ids: seq<IdText>, user: UserId) {
      && user != "" && 0 < |ids| <= maxSeats
      && forall i | 0 <= i < |ids| && FirstRepeatAt(ids, i) :: ids[i].text == ""
    }

    /** The hold of checked seats. */
    method Claim(st: ShowtimeId, ids: seq<IdText>, seats: seq<Seat>, user: UserId, key: string, id: BookingId, aborts: seq<nat>)
      returns (r: Result<BookingId>)
      requires Valid() && id !in bookings.bookings && st in catalog.showtimes
      requires !Store.HasKey(bookings.Snapshot(), user, key)
      requires Seats.Distinct(seats) && WellFormed(ids) && Seats.Ids(seats) == ValuesOf(ids)
      requires forall x | x in seats :: x in catalog.SeatsOf(catalog.showtimes[st].hall)
      modifies bookings
      ensures Valid()
      ensures r.Err? ==> && bookings.Snapshot() == old(bookings.Snapshot())
                         && (r.error == ErrSeatUnavailable || r.error == ErrDatabase)
      ensures r.Ok? ==>
                && r.value == id
                && exists req ::
                     && Asks(req, st, catalog.showtimes[st], user, ids,
                             catalog.SeatsOf(catalog.showtimes[st].hall), holdTTL, key)
                     && Store.TryHold(old(bookings.Snapshot()), req, id).Held?
                     && bookings.Snapshot() == Store.Hold(old(bookings.Snapshot()), req, id)
      ensures r.Ok? ==>
                Booked(old(bookings.Snapshot()), bookings.Snapshot(), id, st, catalog.showtimes[st], user, ids,
                       catalog.SeatsOf(catalog.showtimes[st].hall), holdTTL, key)
      ensures |aborts| < HoldRaces.HOLD_MAX_ATTEMPTS ==>
                && (r.Ok? <==> forall t | t in ids :: SeatMap.StatusOf(old(bookings.Snapshot()), st, t.id).Available?)
                && (r.Err? ==> r.error == ErrSeatUnavailable)
    {
      var req := NewBooking(st, user, seats, catalog.showtimes[st].basePrice, holdTTL, key);
      ghost var start := bookings.Snapshot();
      HoldsIffShown(start, req, id, ids);
      ghost var hall := catalog.SeatsOf(catalog.showtimes[st].hall);
      assert Asks(req, st, catalog.showtimes[st], user, ids, hall, holdTTL, key);
      r := bookings.Hold(req, id, aborts);
      if r.Ok? {
        HoldWrites(start, req, id, st, catalog.showtimes[st], user, ids, hall, holdTTL, key);
      }
    }

    /** Without an earlier booking under its key, an admissible request succeeds
        exactly when the seat map, at that instant, shows every seat it names as
        available; the booking is then for exactly these seats. A repeated key
        returns the earlier booking and changes nothing, and so does every error. */
    method HoldSeats(st: ShowtimeId, ids: seq<IdText>, user: UserId, key: string, id: BookingId, aborts: seq<nat>)
      returns (r: Result<BookingId>)
      requires Valid() && id !in bookings.bookings
      modifies bookings
      ensures Valid()
      ensures r.Err? || Store.HasKey(old(bookings.Snapshot()), user, key) ==> bookings.Snapshot() == old(bookings.Snapshot())
      ensures r == Err(ErrValidation) <==> !WellAsked(ids, user)
      ensures WellAsked(ids, user) && key != "" ==>
                forall b | b in old(bookings.bookings) && old(bookings.bookings)[b].user == user
                           && old(bookings.bookings)[b].key == key :: r == Ok(b)
      ensures r.Ok? && !Store.HasKey(old(bookings.Snapshot()), user, key) ==>
                && r.value == id
                && Admissible(st, ids, user, old(bookings.now))
                && exists req ::
                     && Asks(req, st, catalog.showtimes[st], user, ids,
                             catalog.SeatsOf(catalog.showtimes[st].hall), holdTTL, key)
                     && Store.TryHold(old(bookings.Snapshot()), req, id).Held?
                     && bookings.Snapshot() == Store.Hold(old(bookings.Snapshot()), req, id)
      ensures |aborts| < HoldRaces.HOLD_MAX_ATTEMPTS && !Store.HasKey(old(bookings.Snapshot()), user, key) ==>
                (r.Ok? <==> && Admissible(st, ids, user, old(bookings.now))
                            && forall t | t in ids :: SeatMap.StatusOf(old(bookings.Snapshot()), st, t.id).Available?)
      ensures |aborts| < HoldRaces.HOLD_MAX_ATTEMPTS && r.Err? && Admissible(st, ids, user, old(bookings.now)) ==>
                r.error == ErrSeatUnavailable
      ensures WellAsked(ids, user) && !Store.HasKey(old(bookings.Snapshot()), user, key) ==>
                && (r == Err(ErrShowtimeNotFound) <==> st !in catalog.showtimes)
                && (r == Err(ErrShowtimeCanceled) <==> st in catalog.showtimes && catalog.showtimes[st].cancelled)
                && (r == Err(ErrShowtimeStarted) <==>
                    && st in catalog.showtimes && !catalog.showtimes[st].cancelled
                    && catalog.showtimes[st].startsAt < old(bookings.now) + cutoff)
                && (r == Err(ErrSeatNotFound) <==>
                    && st in catalog.showtimes && !catalog.showtimes[st].cancelled
                    && old(bookings.now) + cutoff <= catalog.showtimes[st].startsAt
                    && !Admissible(st, ids, user, old(bookings.now)))
      // the columns of the new rows
      ensures r.Ok? && !Store.HasKey(old(bookings.Snapshot()), user, key) ==>
                Booked(old(bookings.Snapshot()), bookings.Snapshot(), id, st, catalog.showtimes[st], user, ids,
                       catalog.SeatsOf(catalog.showtimes[st].hall), holdTTL, key)
    {
      if user == "" || |ids| == 0 || |ids| > maxSeats {
        return Err(ErrValidation);
      }
      var dup := FirstDuplicate(ids);
      if dup != "" {
        if WellFormed(ids) && DifferentSeats(ids) {
          DifferentSeatsDoNotRepeat(ids);
        }
        return Err(ErrValidation);
      }
      if key != "" {
        var existing := bookings.GetByIdempotencyKey(user, key);
        if existing.Ok? {
          return existing;
        }
      }
      assert !Store.HasKey(bookings.Snapshot(), user, key);
      var seats := Check(st, ids);
      if seats.Err? {
        return Err(seats.error);
      }
      r := Claim(st, ids, seats.value, user, key, id, aborts);
    }

    /** The owner's view: a lapsed hold reads as expired before any sweep, while its
        expiry and its seats still read as they are. */
    method Get(b: BookingId, user: UserId) returns (r: Result<BookingView>)
      requires Valid()
      ensures r == GetAnswer(bookings.Snapshot(), b, user)
      ensures var s := bookings.Snapshot();
              if b !in s.bookings || s.bookings[b].user != user then r == Err(ErrBookingNotFound)
              else
                var row := s.bookings[b];
                var lapsed := row.status == BookingHeld && row.expiry.Some? && row.expiry.value <= s.now;
                && r.Ok?
                && r.value.row == row.(status := if lapsed then BookingExpired else row.status)
                && forall x :: if ClaimKey(b, x) in s.claims
                               then x in r.value.seats && r.value.seats[x] == s.claims[ClaimKey(b, x)]
                               else x !in r.value.seats
    {
      var row := bookings.GetById(b);
      if row.Err? {
        return Err(row.error);
      }
      var seats := bookings.LoadSeats(b);
      var booking := row.value;
      if booking.user != user {
        return Err(ErrBookingNotFound);
      }
      if booking.HoldLapsed(bookings.now) {
        booking := booking.(status := BookingExpired);
      }
      r := Ok(BookingView(booking, seats));
    }

    /** Releases a held booking of the caller; a paid one is not released here. */
    method Release(b: BookingId, user: UserId) returns (r: Result<BookingId>)
      requires Valid()
      modifies bookings
      ensures Valid()
      ensures var s := old(bookings.Snapshot());
              if b !in s.bookings || s.bookings[b].user != user
              then r == Err(ErrBookingNotFound) && bookings.Snapshot() == s
              else if !s.bookings[b].status.BookingHeld?
              then r == Err(ErrBookingState) && bookings.Snapshot() == s
              else r == Ok(b) && bookings.Snapshot() == Store.Close(s, {b}, BookingCancelled)
    {
      var row := bookings.GetById(b);
      if row.Err? {
        return Err(row.error);
      }
      if row.value.user != user {
        return Err(ErrBookingNotFound);
      }
      if !row.value.status.BookingHeld? {
        return Err(ErrBookingState);
      }
      r := bookings.Cancel(b, BookingCancelled);
    }

    /** The stored rows of a page, each with its seats. */
    method LoadPage(ids: seq<BookingId>) returns (rows: seq<BookingView>)
      requires forall i | 0 <= i < |ids| :: ids[i] in bookings.bookings
      ensures |rows| == |ids|
      ensures forall i | 0 <= i < |ids| ::
                rows[i] == BookingView(bookings.bookings[ids[i]], BookedSeats(bookings.claims, ids[i]))
    {
      rows := [];
      for i := 0 to |ids|
        invariant |rows| == i
        invariant forall j | 0 <= j < i ::
                    rows[j] == BookingView(bookings.bookings[ids[j]], BookedSeats(bookings.claims, ids[j]))
      {
        var seats := bookings.LoadSeats(ids[i]);
        rows := rows + [BookingView(bookings.bookings[ids[i]], seats)];
      }
    }

    /** Rewrites the status of lapsed holds in the page that was read. */
    method ReportStatuses(page: seq<BookingView>) returns (rows: seq<BookingView>)
      ensures |rows| == |page|
      ensures forall i | 0 <= i < |page| ::
                rows[i] == BookingView(page[i].row.(status := ReportedStatus(page[i].row, bookings.now)), page[i].seats)
    {
      rows := page;
      for i := 0 to |rows|
        invariant |rows| == |page|
        invariant forall j | 0 <= j < i ::
                    rows[j] == BookingView(page[j].row.(status := ReportedStatus(page[j].row, bookings.now)), page[j].seats)
        invariant forall j | i <= j < |rows| :: rows[j] == page[j]
      {
        if rows[i].row.HoldLapsed(bookings.now) {
          rows := rows[i := rows[i].(row := rows[i].row.(status := BookingExpired))];
        }
      }
    }

    method ListForUser(user: UserId, limit: int) returns (r: Result<seq<BookingView>>)
      requires Valid()
      ensures r.Err? <==> user == ""
      ensures r.Err? ==> r.error == ErrValidation
      ensures r.Ok? ==>
                exists ids: seq<BookingId> ::
                  && |ids| == |r.value|
                  && bookings.IsPage(user, limit, ids)
                  && forall i | 0 <= i < |ids| :: Ok(r.value[i]) == GetAnswer(bookings.Snapshot(), ids[i], user)
    {
      if user == "" {
        return Err(ErrValidation);
      }
      var ids := bookings.ListByUser(user, limit);
      var page := LoadPage(ids);
      var rows := ReportStatuses(page);
      forall i | 0 <= i < |ids| ensures Ok(rows[i]) == GetAnswer(bookings.Snapshot(), ids[i], user) {
        assert ids[i] in bookings.OwnedBy(user);
      }
      r := Ok(rows);
    }
  }
}
