/** The in-memory booking repository of the use-case tests, and the sense
    in which the PostgreSQL repository refines it. */
module InMemory {
  import opened Domain
  import opened Store
  import opened Steps
  import HoldRaces
  import Invariant
  import Seats

  datatype Slot = Slot(showtime: ShowtimeId, seat: SeatId)

  /** The fields of the repository. */
  datatype Memory = Memory(bookings: map<BookingId, Booking>, claims: map<Slot, BookingId>, nextID: nat)

  function LapsedAt(m: Memory, now: Time): set<BookingId> {
    set b | b in m.bookings && m.bookings[b].HoldLapsed(now)
  }

  /** Expires the given bookings and drops their claims. */
  function Drop(m: Memory, ids: set<BookingId>): Memory {
    m.(bookings := map b | b in m.bookings ::
                     if b in ids then m.bookings[b].(status := BookingExpired, expiry := None) else m.bookings[b],
       claims := map k | k in m.claims && m.claims[k] !in ids :: m.claims[k])
  }

  function Released(m: Memory, now: Time): Memory { Drop(m, LapsedAt(m, now)) }

  predicate KnowsKey(m: Memory, user: UserId, key: string) {
    key != "" && exists b :: b in m.bookings && m.bookings[b].user == user && m.bookings[b].key == key
  }

  predicate AllUnclaimed(m: Memory, st: ShowtimeId, seats: seq<Seat>) {
    forall x | x in seats :: Slot(st, x.id) !in m.claims
  }

  function Slots(st: ShowtimeId, seats: seq<Seat>): (slots: set<Slot>)
    ensures forall k :: k in slots <==> k.showtime == st && k.seat in Seats.Ids(seats)
  {
    set seat | seat in Seats.Ids(seats) :: Slot(st, seat)
  }

  /** All seats are checked before the first is claimed. */
  function Taken(m: Memory, req: NewBooking, now: Time): Memory {
    var id := m.nextID + 1;
    Memory(
      m.bookings[id := Booking(req.showtime, req.user, BookingHeld, Seats.TotalPrice(req.seats, req.basePrice),
                               Some(now + req.holdTTL), req.key)],
      m.claims + map k | k in Slots(req.showtime, req.seats) :: id,
      id)
  }

  datatype MemoryHold = Known | Claims | Unavailable

  function TryHold(m: Memory, req: NewBooking, now: Time): MemoryHold {
    if KnowsKey(m, req.user, req.key) then Known
    else if AllUnclaimed(Released(m, now), req.showtime, req.seats) then Claims
    else Unavailable
  }

  /** A refused hold keeps its release of lapsed holds. */
  function Hold(m: Memory, req: NewBooking, now: Time): Memory {
    match TryHold(m, req, now)
    case Known => m
    case Claims => Taken(Released(m, now), req, now)
    case Unavailable => Released(m, now)
  }

  // ------------------------------------------------------------------ refinement

  /** What is left of a booking once a lapsed hold counts as expired. */
  function Norm(b: Booking, now: Time): Booking {
    if b.HoldLapsed(now) then b.(status := BookingExpired, expiry := None) else b
  }

  /** Claims that are active and not lapsed. */
  predicate LiveClaim(s: State, slot: Slot, b: BookingId) {
    var k := ClaimKey(b, slot.seat);
    && k in s.claims && s.claims[k].active && s.claims[k].showtime == slot.showtime
    && b in s.bookings && !s.bookings[b].HoldLapsed(s.now)
  }

  predicate LiveSlot(m: Memory, now: Time, slot: Slot, b: BookingId) {
    slot in m.claims && m.claims[slot] == b && b in m.bookings && !m.bookings[b].HoldLapsed(now)
  }

  ghost predicate MemoryOk(m: Memory) {
    && (forall b | b in m.bookings :: 0 < b <= m.nextID)
    && (forall k | k in m.claims :: m.claims[k] in m.bookings)
  }

  /** The two agree on every booking and on who holds which seat. */
  ghost predicate Related(s: State, m: Memory) {
    && MemoryOk(m)
    && s.bookings.Keys == m.bookings.Keys
    && (forall b | b in s.bookings :: Norm(s.bookings[b], s.now) == Norm(m.bookings[b], s.now))
    && (forall slot, b :: LiveClaim(s, slot, b) <==> LiveSlot(m, s.now, slot, b))
  }

  lemma SweepKeepsRelated(s: State, m: Memory, ids: set<BookingId>)
    requires Related(s, m) && ids <= Due(s)
    ensures Related(Close(s, ids, BookingExpired), m)
  {
    var t := Close(s, ids, BookingExpired);
    forall slot, b ensures LiveClaim(t, slot, b) <==> LiveSlot(m, t.now, slot, b) {
      assert LiveClaim(s, slot, b) <==> LiveSlot(m, s.now, slot, b);
      assert b in ids ==> b in Due(s);
    }
  }

  lemma ReleaseKeepsRelated(s: State, m: Memory)
    requires Related(s, m)
    ensures Related(s, Released(m, s.now))
    ensures forall k | k in Released(m, s.now).claims ::
              LiveSlot(Released(m, s.now), s.now, k, Released(m, s.now).claims[k])
  {
    var n := Released(m, s.now);
    forall slot, b ensures LiveClaim(s, slot, b) <==> LiveSlot(n, s.now, slot, b) {
      assert LiveClaim(s, slot, b) <==> LiveSlot(m, s.now, slot, b);
    }
  }

  lemma TickKeepsRelated(s: State, m: Memory, to: Time)
    requires Related(s, m)
    ensures Related(Tick(s, to), m)
  {
    var t := Tick(s, to);
    forall b | b in s.bookings ensures Norm(s.bookings[b], t.now) == Norm(m.bookings[b], t.now) {
      assert Norm(s.bookings[b], s.now) == Norm(m.bookings[b], s.now);
    }
    forall slot, b ensures LiveClaim(t, slot, b) <==> LiveSlot(m, t.now, slot, b) {
      assert LiveClaim(s, slot, b) <==> LiveSlot(m, s.now, slot, b);
      if b in s.bookings {
        assert Norm(s.bookings[b], s.now) == Norm(m.bookings[b], s.now);
      }
    }
  }

  /** After both released, free means the same. */
  lemma FreeIffUnclaimed(s: State, m: Memory, st: ShowtimeId, seat: SeatId)
    requires Related(s, m) && ClaimsFollowBookings(s) && LapsedIn(s, st) == {}
    requires forall k | k in m.claims :: LiveSlot(m, s.now, k, m.claims[k])
    ensures Free(s, st, seat) <==> Slot(st, seat) !in m.claims
  {
    if k :| k in s.claims && k.seat == seat && s.claims[k].showtime == st && s.claims[k].active {
      assert k.booking !in LapsedIn(s, st);
      assert k == ClaimKey(k.booking, seat);
      assert LiveClaim(s, Slot(st, seat), k.booking);
      assert LiveSlot(m, s.now, Slot(st, seat), k.booking);
    }
    if Slot(st, seat) in m.claims {
      assert LiveClaim(s, Slot(st, seat), m.claims[Slot(st, seat)]);
    }
  }

  /** `t` is `s` with the request claimed as booking `id`. */
  ghost predicate ClaimedIn(s: State, t: State, req: NewBooking, id: BookingId) {
    && t.now == s.now
    && t.bookings == s.bookings[id := Booking(req.showtime, req.user, BookingHeld,
                                              Seats.TotalPrice(req.seats, req.basePrice),
                                              Some(s.now + req.holdTTL), req.key)]
    && (forall k: ClaimKey | k.booking != id :: (k in t.claims <==> k in s.claims) && (k in s.claims ==> t.claims[k] == s.claims[k]))
    && (forall k: ClaimKey | k.booking == id :: k in t.claims <==> k.seat in Seats.Ids(req.seats))
    && (forall k: ClaimKey | k.booking == id && k in t.claims :: t.claims[k].active && t.claims[k].showtime == req.showtime)
  }

  lemma ClaimedIsClaimedIn(s: State, req: NewBooking, id: BookingId)
    requires ClaimsFollowBookings(s) && id !in s.bookings
    ensures ClaimedIn(s, Claimed(s, req, id), req, id)
  {
  }

  /** `n` is `m` with the request claimed as booking `id`. */
  ghost predicate TakenIn(m: Memory, n: Memory, req: NewBooking, id: BookingId, now: Time) {
    && n.bookings == m.bookings[id := Booking(req.showtime, req.user, BookingHeld,
                                              Seats.TotalPrice(req.seats, req.basePrice),
                                              Some(now + req.holdTTL), req.key)]
    && (forall k :: k in n.claims <==> k in m.claims || k in Slots(req.showtime, req.seats))
    && (forall k | k in n.claims :: n.claims[k] == if k in Slots(req.showtime, req.seats) then id else m.claims[k])
  }

  lemma ClaimKeepsLive(s: State, t: State, m: Memory, n: Memory, req: NewBooking, slot: Slot, b: BookingId, id: BookingId)
    requires ClaimedIn(s, t, req, id) && TakenIn(m, n, req, id, s.now)
    requires id !in m.bookings && (forall k | k in m.claims :: m.claims[k] in m.bookings)
    requires slot in Slots(req.showtime, req.seats) ==> slot !in m.claims
    requires LiveClaim(s, slot, b) <==> LiveSlot(m, s.now, slot, b)
    ensures LiveClaim(t, slot, b) <==> LiveSlot(n, t.now, slot, b)
  {
  }

  lemma SlotsAreUnclaimed(m: Memory, req: NewBooking, slot: Slot)
    requires AllUnclaimed(m, req.showtime, req.seats) && slot in Slots(req.showtime, req.seats)
    ensures slot !in m.claims
  {
    var x :| x in req.seats && x.id == slot.seat;
    assert slot == Slot(req.showtime, x.id);
  }

  lemma ClaimsKeepRelated(s: State, t: State, m: Memory, n: Memory, req: NewBooking, id: BookingId)
    requires Related(s, m) && id == m.nextID + 1 && n.nextID == id
    requires ClaimedIn(s, t, req, id) && TakenIn(m, n, req, id, s.now)
    requires AllUnclaimed(m, req.showtime, req.seats)
    ensures Related(t, n)
  {
    forall slot, b ensures LiveClaim(t, slot, b) <==> LiveSlot(n, t.now, slot, b) {
      if slot in Slots(req.showtime, req.seats) {
        SlotsAreUnclaimed(m, req, slot);
      }
      assert LiveClaim(s, slot, b) <==> LiveSlot(m, s.now, slot, b);
      ClaimKeepsLive(s, t, m, n, req, slot, b, id);
    }
  }

  lemma TakenIsTakenIn(m: Memory, req: NewBooking, now: Time)
    ensures TakenIn(m, Taken(m, req, now), req, m.nextID + 1, now)
  {
  }

  lemma ClaimKeepsRelated(s: State, m: Memory, req: NewBooking)
    requires Related(s, m) && ClaimsFollowBookings(s)
    requires AllUnclaimed(m, req.showtime, req.seats)
    ensures Related(Claimed(s, req, m.nextID + 1), Taken(m, req, s.now))
  {
    var id := m.nextID + 1;
    assert id !in s.bookings;
    ClaimsKeepRelated(s, Claimed(s, req, id), m, Taken(m, req, s.now), req, id) by {
      ClaimedIsClaimedIn(s, req, id);
      TakenIsTakenIn(m, req, s.now);
    }
  }

  /** From related states the two holds agree on success. The PostgreSQL row gets
      the id the in-memory counter would give. They differ only on a request that
      names a seat twice, which the in-memory repository accepts when the seat is
      free. */
  lemma HoldsAgree(s: State, m: Memory, req: NewBooking)
    requires Related(s, m) && OneActiveClaim(s) && ClaimsFollowBookings(s) && ExpiryIffHeld(s)
    ensures var pg, mem := Store.TryHold(s, req, m.nextID + 1), TryHold(m, req, s.now);
            && (pg.Replayed? <==> mem.Known?)
            && (pg.Held? <==> mem.Claims? && Seats.Distinct(req.seats))
  {
    SameKeysKnown(s, m, req.user, req.key);
    assert m.nextID + 1 !in s.bookings;
    ReleasesAgree(s, m, req);
  }

  /** Such a request: the in-memory repository would sell one seat twice over in
      a single booking. */
  lemma SeatNamedTwice(x: Seat, now: Time)
    ensures var s, m := EmptyState.(now := now), Memory(map[], map[], 0);
            var req := NewBooking(0, "u", [x, x], 0, 300, "");
            && Related(s, m) && Valid(s)
            && TryHold(m, req, now).Claims?
            && Store.TryHold(s, req, m.nextID + 1).Refused?
  {
    var s, m := EmptyState.(now := now), Memory(map[], map[], 0);
    var req := NewBooking(0, "u", [x, x], 0, 300, "");
    assert req.seats[0].id == req.seats[1].id;
    assert Released(m, now).claims == map[];
  }

  /** And they stay related, although a refused PostgreSQL hold also undoes its
      release of lapsed holds and a refused in-memory hold keeps it. */
  lemma HoldKeepsRelated(s: State, m: Memory, req: NewBooking)
    requires Related(s, m) && OneActiveClaim(s) && ClaimsFollowBookings(s) && ExpiryIffHeld(s)
    requires Seats.Distinct(req.seats) || !TryHold(m, req, s.now).Claims?
    ensures Related(Store.Hold(s, req, m.nextID + 1), Hold(m, req, s.now))
  {
    HoldsAgree(s, m, req);
    match TryHold(m, req, s.now)
    case Known =>
    case Claims => HeldInBoth(s, m, req);
    case Unavailable => ReleaseKeepsRelated(s, m);
  }

  lemma ReleasesAgree(s: State, m: Memory, req: NewBooking)
    requires Related(s, m) && OneActiveClaim(s) && ClaimsFollowBookings(s) && ExpiryIffHeld(s)
    ensures var r, n := ReleaseLapsed(s, req.showtime), Released(m, s.now);
            && Related(r, n) && ClaimsFollowBookings(r)
            && ((forall x | x in req.seats :: Free(r, req.showtime, x.id)) <==> AllUnclaimed(n, req.showtime, req.seats))
  {
    var r, n := ReleaseLapsed(s, req.showtime), Released(m, s.now);
    ReleaseKeepsRelated(s, m);
    assert ClaimsFollowBookings(r) by {
      Invariant.CloseKeepsClaims(s, LapsedIn(s, req.showtime), BookingExpired);
    }
    assert Related(r, n) by {
      SweepKeepsRelated(s, m, LapsedIn(s, req.showtime));
      ReleaseKeepsRelated(r, m);
    }
    SameSeatsFree(r, n, req);
  }

  lemma HeldIsClaimed(s: State, m: Memory, req: NewBooking)
    requires Store.TryHold(s, req, m.nextID + 1).Held? && TryHold(m, req, s.now).Claims?
    ensures Store.Hold(s, req, m.nextID + 1) == Claimed(ReleaseLapsed(s, req.showtime), req, m.nextID + 1)
    ensures Hold(m, req, s.now) == Taken(Released(m, s.now), req, s.now)
  {
  }

  lemma ReleaseAndClaim(s: State, m: Memory, req: NewBooking)
    requires Related(s, m) && OneActiveClaim(s) && ClaimsFollowBookings(s) && ExpiryIffHeld(s)
    requires AllUnclaimed(Released(m, s.now), req.showtime, req.seats)
    ensures Related(Claimed(ReleaseLapsed(s, req.showtime), req, m.nextID + 1), Taken(Released(m, s.now), req, s.now))
  {
    ReleasesAgree(s, m, req);
    ClaimKeepsRelated(ReleaseLapsed(s, req.showtime), Released(m, s.now), req);
  }

  lemma HeldInBoth(s: State, m: Memory, req: NewBooking)
    requires Related(s, m) && OneActiveClaim(s) && ClaimsFollowBookings(s) && ExpiryIffHeld(s)
    requires Store.TryHold(s, req, m.nextID + 1).Held? && TryHold(m, req, s.now).Claims?
    ensures Related(Store.Hold(s, req, m.nextID + 1), Hold(m, req, s.now))
  {
    HeldIsClaimed(s, m, req);
    ReleaseAndClaim(s, m, req);
  }

  lemma SameSeatsFree(r: State, n: Memory, req: NewBooking)
    requires Related(r, n) && ClaimsFollowBookings(r) && LapsedIn(r, req.showtime) == {}
    requires forall k | k in n.claims :: LiveSlot(n, r.now, k, n.claims[k])
    ensures (forall x | x in req.seats :: Free(r, req.showtime, x.id)) <==> AllUnclaimed(n, req.showtime, req.seats)
  {
    forall x | x in req.seats
      ensures Free(r, req.showtime, x.id) <==> Slot(req.showtime, x.id) !in n.claims
    {
      FreeIffUnclaimed(r, n, req.showtime, x.id);
    }
  }

  lemma SameKeysKnown(s: State, m: Memory, user: UserId, key: string)
    requires Related(s, m)
    ensures HasKey(s, user, key) <==> KnowsKey(m, user, key)
  {
    forall b | b in s.bookings
      ensures s.bookings[b].user == m.bookings[b].user && s.bookings[b].key == m.bookings[b].key
    {
      assert Norm(s.bookings[b], s.now) == Norm(m.bookings[b], s.now);
    }
  }

  // ------------------------------------------------------------------- lifecycle

  function Confirm(m: Memory, b: BookingId): Memory {
    if b in m.bookings && m.bookings[b].status.BookingHeld?
    then m.(bookings := m.bookings[b := m.bookings[b].(status := BookingConfirmed, expiry := None)])
    else m
  }

  function Cancel(m: Memory, b: BookingId): Memory {
    if b in m.bookings && m.bookings[b].IsActive()
    then m.(bookings := m.bookings[b := m.bookings[b].(status := BookingCancelled, expiry := None)],
            claims := map k | k in m.claims && m.claims[k] != b :: m.claims[k])
    else m
  }

  function ExtendHold(m: Memory, b: BookingId, until: Time): Memory {
    if b in m.bookings && m.bookings[b].status.BookingHeld?
       && (m.bookings[b].expiry.None? || m.bookings[b].expiry.value < until)
    then m.(bookings := m.bookings[b := m.bookings[b].(expiry := Some(until))])
    else m
  }

  /** The hold lapsed in neither repository. */
  predicate Unlapsed(s: State, m: Memory, b: BookingId) {
    (b in s.bookings ==> !s.bookings[b].HoldLapsed(s.now)) && (b in m.bookings ==> !m.bookings[b].HoldLapsed(s.now))
  }

  lemma SameRow(s: State, m: Memory, b: BookingId)
    requires Related(s, m) && Unlapsed(s, m, b)
    ensures b in s.bookings <==> b in m.bookings
    ensures b in s.bookings ==> s.bookings[b] == m.bookings[b]
  {
    if b in s.bookings {
      assert Norm(s.bookings[b], s.now) == Norm(m.bookings[b], s.now);
    }
  }

  /** The row of `b` changed alike, and it is not lapsed before or after. */
  lemma RowKeepsRelated(s: State, t: State, m: Memory, n: Memory, b: BookingId, row: Booking)
    requires Related(s, m) && Unlapsed(s, m, b) && b in s.bookings && !row.HoldLapsed(s.now)
    requires t == s.(bookings := s.bookings[b := row]) && n == m.(bookings := m.bookings[b := row])
    ensures Related(t, n)
  {
    forall slot, c ensures LiveClaim(t, slot, c) <==> LiveSlot(n, t.now, slot, c) {
      assert LiveClaim(s, slot, c) <==> LiveSlot(m, s.now, slot, c);
    }
  }

  lemma ConfirmKeepsRelated(s: State, m: Memory, b: BookingId)
    requires Related(s, m) && Unlapsed(s, m, b)
    ensures Related(Store.Confirm(s, b).state, Confirm(m, b))
  {
    SameRow(s, m, b);
    if Store.Confirm(s, b).result.Ok? {
      RowKeepsRelated(s, Store.Confirm(s, b).state, m, Confirm(m, b), b,
                      s.bookings[b].(status := BookingConfirmed, expiry := None));
    }
  }

  lemma ExtendKeepsRelated(s: State, m: Memory, b: BookingId, until: Time)
    requires Related(s, m) && Unlapsed(s, m, b) && ExpiryIffHeld(s)
    ensures Related(Store.ExtendHold(s, b, until).state, ExtendHold(m, b, until))
  {
    SameRow(s, m, b);
    if Store.ExtendHold(s, b, until).result.Ok? {
      var row := Store.ExtendHold(s, b, until).state.bookings[b];
      assert ExtendHold(m, b, until).bookings == m.bookings[b := row];
      RowKeepsRelated(s, Store.ExtendHold(s, b, until).state, m, ExtendHold(m, b, until), b, row);
    }
  }

  lemma CancelKeepsRelated(s: State, m: Memory, b: BookingId)
    requires Related(s, m) && Unlapsed(s, m, b)
    ensures Related(Store.Cancel(s, b, BookingCancelled).state, Cancel(m, b))
  {
    SameRow(s, m, b);
    if Store.Cancel(s, b, BookingCancelled).result.Ok? {
      var t, n := Store.Cancel(s, b, BookingCancelled).state, Cancel(m, b);
      forall slot, c ensures LiveClaim(t, slot, c) <==> LiveSlot(n, t.now, slot, c) {
        assert LiveClaim(s, slot, c) <==> LiveSlot(m, s.now, slot, c);
      }
      forall c | c in t.bookings ensures Norm(t.bookings[c], t.now) == Norm(n.bookings[c], t.now) {
        assert Norm(s.bookings[c], s.now) == Norm(m.bookings[c], s.now);
      }
    }
  }

  // ------------------------------------------------------------------ whole runs

  datatype Event =
    | HoldBoth(req: NewBooking)
    | ConfirmBoth(booking: BookingId)
    | CancelBoth(booking: BookingId)
    | ExtendBoth(booking: BookingId, until: Time)
      // either sweeper may run without the other
    | SweepTables(ids: set<BookingId>)
    | SweepMemory
    | Clock(to: Time)
  {
    predicate NamesABooking() { ConfirmBoth? || CancelBoth? || ExtendBoth? }
  }

  function TableStep(m: Memory, e: Event): Step
    requires !e.SweepMemory?
  {
    match e
    case HoldBoth(req) => StepHold(req, m.nextID + 1)
    case ConfirmBoth(b) => StepConfirm(b)
    case CancelBoth(b) => StepCancel(b)
    case ExtendBoth(b, until) => StepExtend(b, until)
    case SweepTables(ids) => StepSweep(ids)
    case Clock(to) => StepTick(to)
  }

  ghost function StepTables(s: State, m: Memory, e: Event): State {
    if e.SweepMemory? then s else Apply(s, TableStep(m, e))
  }

  ghost function StepMemory(s: State, m: Memory, e: Event): Memory {
    match e
    case HoldBoth(req) => Hold(m, req, s.now)
    case ConfirmBoth(b) => Confirm(m, b)
    case CancelBoth(b) => Cancel(m, b)
    case ExtendBoth(b, until) => ExtendHold(m, b, until)
    case SweepTables(_) => m
    case SweepMemory => Released(m, s.now)
    case Clock(_) => m
  }

  /** Both repositories give the same answer: the new id, the id of the earlier
      booking with the key, a refusal, or whether the transition took place. */
  ghost predicate SameAnswer(s: State, m: Memory, e: Event) {
    match e
    case HoldBoth(req) =>
      var pg, mem := Store.TryHold(s, req, m.nextID + 1), TryHold(m, req, s.now);
      && (pg == Held(m.nextID + 1) <==> mem.Claims?)
      && (pg.Replayed? <==> mem.Known?)
      && (pg.Refused? <==> mem.Unavailable?)
      && (mem.Known? ==>
            forall b | b in m.bookings && m.bookings[b].user == req.user && m.bookings[b].key == req.key ::
              HoldRaces.ByKey(s.bookings, req.user, req.key) == Ok(b))
    case ConfirmBoth(b) =>
      Store.Confirm(s, b).result.Ok? <==> b in m.bookings && m.bookings[b].status.BookingHeld?
    case CancelBoth(b) =>
      Store.Cancel(s, b, BookingCancelled).result.Ok? <==> b in m.bookings && m.bookings[b].IsActive()
    case ExtendBoth(b, until) =>
      Store.ExtendHold(s, b, until).result.Ok? <==> b in m.bookings && m.bookings[b].status.BookingHeld?
    case _ => true
  }

  ghost predicate AgreeThroughout(s: State, m: Memory, events: seq<Event>)
    decreases |events|
  {
    && Related(s, m)
    && (events == [] ||
        (&& SameAnswer(s, m, events[0])
         && AgreeThroughout(StepTables(s, m, events[0]), StepMemory(s, m, events[0]), events[1..])))
  }

  /** No hold names a seat twice, and nothing is done to a hold that lapsed. */
  ghost predicate InTime(s: State, m: Memory, e: Event) {
    && (e.HoldBoth? ==> Seats.Distinct(e.req.seats))
    && (e.NamesABooking() ==> Unlapsed(s, m, e.booking))
  }

  ghost predicate AllInTime(s: State, m: Memory, events: seq<Event>)
    decreases |events|
  {
    events == [] ||
    (InTime(s, m, events[0]) && AllInTime(StepTables(s, m, events[0]), StepMemory(s, m, events[0]), events[1..]))
  }

  lemma SameBookingPerKey(s: State, m: Memory, user: UserId, key: string, b: BookingId)
    requires Related(s, m) && OneBookingPerKey(s) && key != ""
    requires b in m.bookings && m.bookings[b].user == user && m.bookings[b].key == key
    ensures HoldRaces.ByKey(s.bookings, user, key) == Ok(b)
  {
    assert Norm(s.bookings[b], s.now) == Norm(m.bookings[b], s.now);
    assert s.bookings[b].user == user && s.bookings[b].key == key;
  }

  lemma HoldAnswersAgree(s: State, m: Memory, req: NewBooking)
    requires Related(s, m) && OneActiveClaim(s) && ClaimsFollowBookings(s) && ExpiryIffHeld(s) && OneBookingPerKey(s)
    requires Seats.Distinct(req.seats)
    ensures SameAnswer(s, m, HoldBoth(req))
  {
    HoldsAgree(s, m, req);
    if TryHold(m, req, s.now).Known? {
      forall b | b in m.bookings && m.bookings[b].user == req.user && m.bookings[b].key == req.key
        ensures HoldRaces.ByKey(s.bookings, req.user, req.key) == Ok(b)
      {
        SameBookingPerKey(s, m, req.user, req.key, b);
      }
    }
  }

  lemma LifecycleKeepsRelated(s: State, m: Memory, e: Event)
    requires Related(s, m) && ExpiryIffHeld(s) && e.NamesABooking() && Unlapsed(s, m, e.booking)
    ensures Related(StepTables(s, m, e), StepMemory(s, m, e)) && SameAnswer(s, m, e)
  {
    SameRow(s, m, e.booking);
    match e
    case ConfirmBoth(b) => ConfirmKeepsRelated(s, m, b);
    case CancelBoth(b) => CancelKeepsRelated(s, m, b);
    case ExtendBoth(b, until) => ExtendKeepsRelated(s, m, b, until);
  }

  lemma StepKeepsRelated(s: State, m: Memory, e: Event)
    requires Related(s, m) && OneActiveClaim(s) && ClaimsFollowBookings(s) && ExpiryIffHeld(s) && OneBookingPerKey(s)
    requires InTime(s, m, e)
    ensures Related(StepTables(s, m, e), StepMemory(s, m, e))
    ensures SameAnswer(s, m, e)
  {
    if e.HoldBoth? {
      HoldAnswersAgree(s, m, e.req);
      HoldKeepsRelated(s, m, e.req) by {
        HoldsAgree(s, m, e.req);
      }
    } else if e.NamesABooking() {
      LifecycleKeepsRelated(s, m, e);
    } else {
      BackgroundKeepsRelated(s, m, e);
    }
  }

  lemma BackgroundKeepsRelated(s: State, m: Memory, e: Event)
    requires Related(s, m) && !e.HoldBoth? && !e.NamesABooking()
    ensures Related(StepTables(s, m, e), StepMemory(s, m, e))
  {
    match e
    case SweepTables(ids) => if ids <= Due(s) { SweepKeepsRelated(s, m, ids); }
    case SweepMemory => ReleaseKeepsRelated(s, m);
    case Clock(to) => TickKeepsRelated(s, m, to);
  }

  /** Row-by-row claiming with rollback refines check-all-then-claim: over any run
      of holds, transitions, sweeps and clock steps the two repositories give the
      same answers and agree on every live claim. */
  lemma {:induction false} RowByRowRefinesCheckAll(s: State, m: Memory, events: seq<Event>)
    requires Valid(s) && Related(s, m) && AllInTime(s, m, events)
    ensures AgreeThroughout(s, m, events)
    decreases |events|
  {
    if events != [] {
      var e := events[0];
      if !e.SweepMemory? {
        Invariant.StepKeepsValid(s, TableStep(m, e));
      }
      StepKeepsRelated(s, m, e);
      RowByRowRefinesCheckAll(StepTables(s, m, e), StepMemory(s, m, e), events[1..]);
    }
  }
}
