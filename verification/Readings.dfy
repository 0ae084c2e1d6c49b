/** What the use cases answer from the tables about one booking. */
module Readings {
  import opened Domain
  import opened Store

  /** The row with the status reported, and every seat it was ever given, with its
      price and whether it still holds it. */
  datatype BookingView = BookingView(row: Booking, seats: map<SeatId, Claim>)

  /** The status `Get` and `ListForUser` report. */
  function ReportedStatus(b: Booking, now: Time): BookingStatus {
    if b.HoldLapsed(now) then BookingExpired else b.status
  }

  function BookedSeats(claims: map<ClaimKey, Claim>, b: BookingId): map<SeatId, Claim> {
    map k | k in claims && k.booking == b :: k.seat := claims[k]
  }

  function ViewOf(s: State, b: BookingId): BookingView
    requires b in s.bookings
  {
    BookingView(s.bookings[b].(status := ReportedStatus(s.bookings[b], s.now)), BookedSeats(s.claims, b))
  }

  /** Get. */
  function GetAnswer(s: State, b: BookingId, user: UserId): Result<BookingView> {
    if b in s.bookings && s.bookings[b].user == user then Ok(ViewOf(s, b)) else Err(ErrBookingNotFound)
  }

  /** Why StartCheckout would not start. */
  function CheckoutRefusal(s: State, b: BookingId, user: UserId): Option<Error> {
    if b !in s.bookings || s.bookings[b].user != user then Some(ErrBookingNotFound)
    else if !s.bookings[b].status.BookingHeld? then Some(ErrBookingState)
    else if s.bookings[b].HoldLapsed(s.now) then Some(ErrBookingExpired)
    else None
  }
}
