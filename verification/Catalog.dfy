/** The catalog queries a booking depends on: the seat map of a showtime, and
    the seats named by a request. */
module Catalog {
  import opened Domain
  import opened SeatMap
  import Postgres
  import Seats
  import Store

  /** The text of a seat id in a request. Several texts may spell one id. */
  datatype IdText = Malformed(text: string) | Spelled(id: SeatId, text: string)

  datatype SeatAvailability = SeatAvailability(seat: Seat, price: nat, status: SeatStatus, heldByUser: bool)

  function ValuesOf(ids: seq<IdText>): set<SeatId> {
    set t | t in ids && t.Spelled? :: t.id
  }

  ghost predicate WellFormed(ids: seq<IdText>) {
    forall t | t in ids :: t.Spelled?
  }

  ghost predicate DifferentSeats(ids: seq<IdText>)
    requires WellFormed(ids)
  {
    forall i, j | 0 <= i < j < |ids| :: ids[i].id != ids[j].id
  }

  // ---------------------------------------------------------- the count check

  lemma LastValue(init: seq<IdText>, last: IdText)
    requires WellFormed(init) && last.Spelled?
    ensures WellFormed(init + [last]) && ValuesOf(init + [last]) == ValuesOf(init) + {last.id}
    ensures DifferentSeats(init + [last]) <==> DifferentSeats(init) && last.id !in ValuesOf(init)
  {
    var ids := init + [last];
    assert forall i | 0 <= i < |init| :: ids[i] == init[i] && init[i] in init;
    if last.id in ValuesOf(init) {
      var i :| 0 <= i < |init| && init[i].id == last.id;
      assert ids[i].id == ids[|init|].id;
    }
    if DifferentSeats(ids) {
      assert forall i, j | 0 <= i < j < |init| :: ids[i].id != ids[j].id;
    }
  }

  lemma {:induction false} ValuesCount(ids: seq<IdText>)
    requires WellFormed(ids)
    ensures |ValuesOf(ids)| <= |ids|
    ensures |ValuesOf(ids)| == |ids| <==> DifferentSeats(ids)
  {
    if ids != [] {
      var init, last := ids[..|ids| - 1], ids[|ids| - 1];
      assert ids == init + [last];
      assert WellFormed(init);
      ValuesCount(init);
      LastValue(init, last);
    }
  }

  /** Comparing two lengths decides whether the ids are different seats of the
      hall: `found` is the part of the hall that was asked for. */
  lemma CountCheckIsExact(hall: seq<Seat>, ids: seq<IdText>, found: seq<Seat>)
    requires WellFormed(ids) && Seats.Distinct(found)
    requires Seats.Ids(found) == Seats.Ids(hall) * ValuesOf(ids)
    ensures |found| == |ids| <==> DifferentSeats(ids) && ValuesOf(ids) <= Seats.Ids(hall)
    ensures |found| == |ids| ==> Seats.Ids(found) == ValuesOf(ids)
  {
    ValuesCount(ids);
    Seats.DistinctIffAsManyIds(found);
    var asked, there := ValuesOf(ids), Seats.Ids(found);
    assert |asked| == |there| + |asked - there| by {
      assert asked == there + (asked - there);
    }
    if asked - there == {} {
      assert asked == there;
    }
  }

  lemma OneMoreFound(hall: seq<Seat>, i: nat, wanted: set<SeatId>, found: seq<Seat>)
    requires i < |hall| && Seats.Distinct(hall)
    requires Seats.Distinct(found) && Seats.Ids(found) == Seats.Ids(hall[..i]) * wanted
    ensures Seats.Ids(hall[..i + 1]) == Seats.Ids(hall[..i]) + {hall[i].id}
    ensures Seats.Ids(found + [hall[i]]) == Seats.Ids(found) + {hall[i].id}
    ensures Seats.Distinct(found + [hall[i]])
  {
    assert hall[..i + 1] == hall[..i] + [hall[i]];
    forall j | 0 <= j < |found| ensures found[j].id != hall[i].id {
      assert found[j] in found;
      assert found[j].id in Seats.Ids(found);
      assert found[j].id in Seats.Ids(hall[..i]);
      var x :| x in hall[..i] && x.id == found[j].id;
    }
  }

  class CatalogRepository {
    const db: Postgres.Database
    const showtimes: map<ShowtimeId, Showtime>
    /** The seats of every hall, by row and number. */
    const halls: map<HallId, seq<Seat>>

    constructor (db: Postgres.Database, showtimes: map<ShowtimeId, Showtime>, halls: map<HallId, seq<Seat>>)
      ensures this.db == db && this.showtimes == showtimes && this.halls == halls
    {
      this.db, this.showtimes, this.halls := db, showtimes, halls;
    }

    /** Seat ids are primary keys. */
    ghost predicate Valid() {
      forall h | h in halls :: Seats.Distinct(halls[h])
    }

    function SeatsOf(hall: HallId): seq<Seat> {
      if hall in halls then halls[hall] else []
    }

    method GetShowtime(st: ShowtimeId) returns (r: Result<Showtime>)
      ensures r == if st in showtimes then Ok(showtimes[st]) else Err(ErrShowtimeNotFound)
    {
      r := if st in showtimes then Ok(showtimes[st]) else Err(ErrShowtimeNotFound);
    }

    /** Succeeds if and only if the ids are well formed, name different seats,
        and all of these are in the hall; then it returns exactly them. */
    method SeatsByIDs(hall: HallId, ids: seq<IdText>) returns (r: Result<seq<Seat>>)
      requires Valid()
      ensures r.Ok? <==> ids != [] && WellFormed(ids) && DifferentSeats(ids)
                         && ValuesOf(ids) <= Seats.Ids(SeatsOf(hall))
      ensures r.Ok? ==> && Seats.Distinct(r.value) && Seats.Ids(r.value) == ValuesOf(ids)
                        && forall x | x in r.value :: x in SeatsOf(hall)
      ensures r.Err? ==> r.error == if ids == [] then ErrValidation else ErrSeatNotFound
    {
      if |ids| == 0 {
        return Err(ErrValidation);
      }
      for i := 0 to |ids|
        invariant WellFormed(ids[..i])
      {
        if ids[i].Malformed? {
          assert ids[i] in ids;
          return Err(ErrSeatNotFound);
        }
      }
      assert ids[..|ids|] == ids;

      var rows, found := SeatsOf(hall), [];
      for i := 0 to |rows|
        invariant Seats.Distinct(found) && Seats.Ids(found) == Seats.Ids(rows[..i]) * ValuesOf(ids)
        invariant forall x | x in found :: x in rows
      {
        OneMoreFound(rows, i, ValuesOf(ids), found);
        if rows[i].id in ValuesOf(ids) {
          found := found + [rows[i]];
        }
      }
      assert rows[..|rows|] == rows;
      CountCheckIsExact(rows, ids, found);
      r := if |found| != |ids| then Err(ErrSeatNotFound) else Ok(found);
    }

    /** A row of the join as the client gets it. */
    function RowFor(showtime: Showtime, seat: Seat, claim: Option<BookingId>, user: UserId): SeatAvailability
      reads db
    {
      var shown := claim.Some? && Shows(db.Snapshot(), claim.value);
      SeatAvailability(
        seat, seat.PriceCents(showtime.basePrice),
        if shown then StatusFrom(db.Snapshot(), claim.value) else Available,
        shown && user != "" && db.bookings[claim.value].user == user)
    }

    /** What the client must be told about a seat. */
    ghost predicate Describes(row: SeatAvailability, st: ShowtimeId, base: nat, seat: Seat, user: UserId)
      reads db
    {
      var s := db.Snapshot();
      && row.seat == seat
      && row.price == (if seat.kind.Premium? then 5 * base / 4 else base)
      && Truthful(s, st, seat.id, row.status)
      && (row.heldByUser <==>
          && user != ""
          && exists b :: (row.status == SoldTo(b) || row.status == HeldBy(b)) && s.bookings[b].user == user)
      // the status a hold is decided by
      && row.status == StatusOf(s, st, seat.id)
    }

    /** The left joins: a row for every active claim on the seat, or one without. */
    method RowsFor(st: ShowtimeId, showtime: Showtime, seat: Seat, user: UserId) returns (rows: seq<SeatAvailability>)
      requires Store.OneActiveClaim(db.Snapshot())
      ensures |rows| == 1 && Describes(rows[0], st, showtime.basePrice, seat, user)
    {
      var matches := ClaimsOn(db.Snapshot(), st, seat.id);
      AtMostOneClaim(db.Snapshot(), st, seat.id);
      StatusIsTruthful(db.Snapshot(), st, seat.id);
      if matches == {} {
        return [RowFor(showtime, seat, None, user)];
      }
      rows := [];
      ghost var all := matches;
      while matches != {}
        invariant matches <= all && |rows| == |all| - |matches|
        invariant forall i | 0 <= i < |rows| :: exists b :: b in all && rows[i] == RowFor(showtime, seat, Some(b), user)
        decreases |matches|
      {
        var b :| b in matches;
        rows := rows + [RowFor(showtime, seat, Some(b), user)];
        matches := matches - {b};
      }
      assert |all| == 1;
    }

    /** One row for every seat of the showtime's hall, in order, with the status a
        hold would find. */
    method SeatMap(st: ShowtimeId, user: UserId) returns (r: Result<seq<SeatAvailability>>)
      requires Store.OneActiveClaim(db.Snapshot())
      ensures r.Ok? <==> st in showtimes && SeatsOf(showtimes[st].hall) != []
      ensures r.Err? ==> r.error == ErrShowtimeNotFound
      ensures r.Ok? ==>
                var seats := SeatsOf(showtimes[st].hall);
                && |r.value| == |seats|
                && forall i | 0 <= i < |seats| ::
                     Describes(r.value[i], st, showtimes[st].basePrice, seats[i], user)
    {
      if st !in showtimes {
        return Err(ErrShowtimeNotFound);
      }
      var showtime := showtimes[st];
      var seats := SeatsOf(showtime.hall);
      var rows: seq<SeatAvailability> := [];
      for i := 0 to |seats|
        invariant |rows| == i
        invariant forall j | 0 <= j < i :: Describes(rows[j], st, showtime.basePrice, seats[j], user)
      {
        var more := RowsFor(st, showtime, seats[i], user);
        rows := rows + more;
      }
      r := if |rows| == 0 then Err(ErrShowtimeNotFound) else Ok(rows);
    }
  }
}
