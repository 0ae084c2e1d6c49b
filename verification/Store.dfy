/** The tables of the service as one value, the unique indexes and checks over
    them, and every transaction as a function from the tables it found to the
    tables it left. */
module Store {
  import opened Domain
  import Seats
  import Sums

  /** All committed rows, and the clock every statement reads. */
  datatype State = State(
    now: Time,
    bookings: map<BookingId, Booking>,
    claims: map<ClaimKey, Claim>,
    payments: map<PaymentId, Payment>,
    events: map<EventKey, Option<PaymentId>>)

  datatype Outcome<+T> = Outcome(state: State, result: Result<T>)

  const EmptyState := State(0, map[], map[], map[], map[])

  // ---------------------------------------------------------------- invariant

  /** booking_seats_one_active_claim_idx */
  ghost predicate OneActiveClaim(s: State) {
    forall j, k | j in s.claims && k in s.claims && s.claims[j].active && s.claims[k].active
                  && j.seat == k.seat && s.claims[j].showtime == s.claims[k].showtime :: j == k
  }

  /** A claim belongs to a booking of its own showtime and is active exactly
      while that booking is. */
  ghost predicate ClaimsFollowBookings(s: State) {
    forall k | k in s.claims ::
      && k.booking in s.bookings
      && s.claims[k].showtime == s.bookings[k.booking].showtime
      && (s.claims[k].active <==> s.bookings[k.booking].IsActive())
  }

  ghost predicate ExpiryIffHeld(s: State) {
    forall b | b in s.bookings :: s.bookings[b].status.BookingHeld? <==> s.bookings[b].expiry.Some?
  }

  /** bookings_idempotency_idx */
  ghost predicate OneBookingPerKey(s: State) {
    forall a, b | a in s.bookings && b in s.bookings && s.bookings[a].key != ""
                  && s.bookings[a].key == s.bookings[b].key && s.bookings[a].user == s.bookings[b].user :: a == b
  }

  ghost function PricesOf(s: State, b: BookingId): map<ClaimKey, int> {
    map k | k in s.claims && k.booking == b :: s.claims[k].price
  }

  ghost predicate TotalsAddUp(s: State) {
    forall b | b in s.bookings :: s.bookings[b].total == Sums.Total(PricesOf(s, b))
  }

  /** payments_single_open_idx */
  ghost predicate OneOpenPayment(s: State) {
    forall p, q | p in s.payments && q in s.payments && s.payments[p].IsOpen() && s.payments[q].IsOpen()
                  && s.payments[p].booking == s.payments[q].booking :: p == q
  }

  /** payments_provider_ref_idx */
  ghost predicate OnePaymentPerRef(s: State) {
    forall p, q | p in s.payments && q in s.payments && s.payments[p].ref != ""
                  && s.payments[p].ref == s.payments[q].ref
                  && s.payments[p].provider == s.payments[q].provider :: p == q
  }

  /** payments_idempotency_idx */
  ghost predicate OnePaymentPerKey(s: State) {
    forall p, q | p in s.payments && q in s.payments && s.payments[p].key == s.payments[q].key :: p == q
  }

  ghost predicate PaymentsValid(s: State) {
    && OneOpenPayment(s)
    && OnePaymentPerRef(s)
    && OnePaymentPerKey(s)
    && (forall p | p in s.payments :: s.payments[p].booking in s.bookings)
    && (forall e | e in s.events && s.events[e].Some? :: s.events[e].value in s.payments)
  }

  ghost predicate Valid(s: State) {
    && OneActiveClaim(s)
    && ClaimsFollowBookings(s)
    && ExpiryIffHeld(s)
    && OneBookingPerKey(s)
    && TotalsAddUp(s)
    && PaymentsValid(s)
  }

  // ----------------------------------------------------------------- bookings

  /** The statement behind every release: give the bookings a terminal status
      and deactivate their claims. */
  function Close(s: State, ids: set<BookingId>, status: BookingStatus): State {
    s.(bookings := map b | b in s.bookings ::
                     if b in ids then s.bookings[b].(status := status, expiry := None) else s.bookings[b],
       claims := map k | k in s.claims ::
                   if k.booking in ids then s.claims[k].(active := false) else s.claims[k])
  }

  function Due(s: State): set<BookingId> {
    set b | b in s.bookings && s.bookings[b].HoldLapsed(s.now)
  }

  function LapsedIn(s: State, st: ShowtimeId): set<BookingId> {
    set b | b in s.bookings && s.bookings[b].HoldLapsed(s.now) && s.bookings[b].showtime == st
  }

  function ReleaseLapsed(s: State, st: ShowtimeId): State {
    Close(s, LapsedIn(s, st), BookingExpired)
  }

  predicate Free(s: State, st: ShowtimeId, seat: SeatId) {
    !exists k :: k in s.claims && k.seat == seat && s.claims[k].showtime == st && s.claims[k].active
  }

  predicate HasKey(s: State, user: UserId, key: string) {
    key != "" && exists b :: b in s.bookings && s.bookings[b].user == user && s.bookings[b].key == key
  }

  /** One active claim for every seat, at the seat's price. */
  function NewClaims(id: BookingId, st: ShowtimeId, base: nat, seats: seq<Seat>): (n: map<ClaimKey, Claim>)
    ensures forall k :: k in n <==> k.booking == id && k.seat in Seats.Ids(seats)
  {
    map k | k in (set x | x in Seats.Ids(seats) :: ClaimKey(id, x)) ::
      Claim(st, Seats.PriceAt(seats, k.seat, base), true)
  }

  function NewRow(s: State, req: NewBooking): Booking {
    Booking(req.showtime, req.user, BookingHeld, Seats.TotalPrice(req.seats, req.basePrice),
            Some(s.now + req.holdTTL), req.key)
  }

  function Claimed(s: State, req: NewBooking, id: BookingId): State {
    s.(bookings := s.bookings[id := NewRow(s, req)],
       claims := s.claims + NewClaims(id, req.showtime, req.basePrice, req.seats))
  }

  predicate CanClaim(s: State, req: NewBooking, id: BookingId) {
    && id !in s.bookings
    && Seats.Distinct(req.seats)
    && forall x | x in req.seats :: Free(ReleaseLapsed(s, req.showtime), req.showtime, x.id)
  }

  datatype HoldResult = Held(id: BookingId) | Replayed | Refused

  function TryHold(s: State, req: NewBooking, id: BookingId): HoldResult {
    if HasKey(s, req.user, req.key) then Replayed
    else if CanClaim(s, req, id) then Held(id)
    else Refused
  }

  /** All seats or none: a refused hold undoes its release of lapsed holds too. */
  function Hold(s: State, req: NewBooking, id: BookingId): State {
    if TryHold(s, req, id).Held? then Claimed(ReleaseLapsed(s, req.showtime), req, id) else s
  }

  function Confirm(s: State, b: BookingId): Outcome<BookingId> {
    if b in s.bookings && s.bookings[b].status.BookingHeld? then
      Outcome(s.(bookings := s.bookings[b := s.bookings[b].(status := BookingConfirmed, expiry := None)]), Ok(b))
    else Outcome(s, Err(ErrBookingState))
  }

  function Cancel(s: State, b: BookingId, status: BookingStatus): Outcome<BookingId> {
    if status != BookingCancelled && status != BookingExpired then Outcome(s, Err(ErrDatabase))
    else if b in s.bookings && s.bookings[b].IsActive() then Outcome(Close(s, {b}, status), Ok(b))
    else Outcome(s, Err(ErrBookingState))
  }

  function ExtendHold(s: State, b: BookingId, until: Time): Outcome<BookingId> {
    if b in s.bookings && s.bookings[b].status.BookingHeld? then
      var current := s.bookings[b].expiry;
      // GREATEST ignores NULL
      var expiry := if current.Some? && until <= current.value then current else Some(until);
      Outcome(s.(bookings := s.bookings[b := s.bookings[b].(expiry := expiry)]), Ok(b))
    else Outcome(s, Err(ErrBookingState))
  }

  // ----------------------------------------------------------------- payments

  predicate HasPaymentKey(rows: map<PaymentId, Payment>, key: string) {
    exists p :: p in rows && rows[p].key == key
  }

  predicate RefTaken(rows: map<PaymentId, Payment>, provider: string, ref: string) {
    ref != "" && exists p :: p in rows && rows[p].provider == provider && rows[p].ref == ref
  }

  predicate HasOpenPayment(rows: map<PaymentId, Payment>, b: BookingId) {
    exists p :: p in rows && rows[p].booking == b && rows[p].IsOpen()
  }

  ghost function ByPaymentKey(rows: map<PaymentId, Payment>, key: string): (p: PaymentId)
    requires HasPaymentKey(rows, key)
    ensures p in rows && rows[p].key == key
  {
    var p :| p in rows && rows[p].key == key; p
  }

  ghost function ByRef(rows: map<PaymentId, Payment>, provider: string, ref: string): (p: Option<PaymentId>)
    ensures p.Some? <==> RefTaken(rows, provider, ref)
    ensures p.Some? ==> p.value in rows && rows[p.value].provider == provider && rows[p.value].ref == ref
  {
    if RefTaken(rows, provider, ref) then
      var p :| p in rows && rows[p].provider == provider && rows[p].ref == ref;
      Some(p)
    else None
  }

  /** The indexes reject in the order they were created: key, reference, open. */
  ghost function CreatePayment(s: State, p: PaymentId, row: Payment): Outcome<PaymentId> {
    if p in s.payments || row.booking !in s.bookings then Outcome(s, Err(ErrDatabase))
    else if HasPaymentKey(s.payments, row.key) then Outcome(s, Ok(ByPaymentKey(s.payments, row.key)))
    else if RefTaken(s.payments, row.provider, row.ref) then Outcome(s, Err(ErrDatabase))
    else if row.IsOpen() && HasOpenPayment(s.payments, row.booking) then Outcome(s, Err(ErrPaymentInProgress))
    else Outcome(s.(payments := s.payments[p := row]), Ok(p))
  }

  predicate MayUpdate(s: State, p: PaymentId, status: PaymentStatus) {
    && p in s.payments
    && (s.payments[p].IsOpen() || (s.payments[p].status.PaymentSucceeded? && status.PaymentRefunded?))
  }

  function UpdatePayment(s: State, p: PaymentId, status: PaymentStatus): Outcome<PaymentId> {
    if MayUpdate(s, p, status) then
      Outcome(s.(payments := s.payments[p := s.payments[p].(status := status)]), Ok(p))
    else Outcome(s, Err(ErrPaymentState))
  }

  // ------------------------------------------------------------------ webhook

  ghost function ApplySuccess(s: State, p: PaymentId): Outcome<Option<PaymentId>>
    requires p in s.payments
  {
    var paid := if s.payments[p].status.PaymentSucceeded? then Outcome(s, Ok(p))
                else UpdatePayment(s, p, PaymentSucceeded);
    if paid.result.Err? then Outcome(s, Err(paid.result.error))
    else
      var b := s.payments[p].booking;
      if b !in s.bookings then Outcome(s, Err(ErrBookingNotFound))
      else match s.bookings[b].status
        case BookingConfirmed => Outcome(paid.state, Ok(None))
        case BookingHeld => Outcome(Confirm(paid.state, b).state, Ok(None))
        case _ => Outcome(paid.state, Ok(Some(p)))
  }

  ghost function ApplyRefund(s: State, p: PaymentId): Outcome<Option<PaymentId>>
    requires p in s.payments
  {
    // ErrPaymentState is tolerated
    var refunded := if s.payments[p].status.PaymentRefunded? then s
                    else UpdatePayment(s, p, PaymentRefunded).state;
    var b := s.payments[p].booking;
    if b !in s.bookings then Outcome(s, Err(ErrBookingNotFound))
    else if !s.bookings[b].IsActive() then Outcome(refunded, Ok(None))
    else Outcome(Cancel(refunded, b, BookingCancelled).state, Ok(None))
  }

  ghost function Act(s: State, ev: PaymentEvent, p: PaymentId): Outcome<Option<PaymentId>>
    requires p in s.payments
  {
    match ev.kind
    case EventSucceeded => ApplySuccess(s, p)
    case EventFailed => Outcome(UpdatePayment(s, p, PaymentFailed).state, Ok(None))
    case EventCancelled => Outcome(UpdatePayment(s, p, PaymentCancelled).state, Ok(None))
    case EventRefunded => ApplyRefund(s, p)
    case EventOther => Outcome(s, Ok(None))
  }

  function Recorded(s: State, key: EventKey, p: Option<PaymentId>): State {
    s.(events := s.events[key := p])
  }

  /** The transaction of one delivery: a duplicate or unknown charge is
      acknowledged, an error rolls everything back. `Some(p)` asks for a refund
      of `p` after the commit. */
  ghost function Deliver(s: State, ev: PaymentEvent): Outcome<Option<PaymentId>> {
    if ev.key in s.events then Outcome(s, Ok(None))
    else
      var p := ByRef(s.payments, ev.key.provider, ev.ref);
      var s1 := Recorded(s, ev.key, p);
      if p.None? then Outcome(s1, Ok(None))
      else
        var o := Act(s1, ev, p.value);
        if o.result.Err? then Outcome(s, o.result) else o
  }
}
