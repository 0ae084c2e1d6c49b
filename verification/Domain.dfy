/** The entities of the booking service: bookings, seat claims, payments and the
    errors its layers return. */
module Domain {

  type Time = int
  type UserId = string
  type ShowtimeId = nat
  type HallId = nat
  type SeatId = nat
  type BookingId = nat
  type PaymentId = nat

  datatype Option<+T> = None | Some(value: T)

  datatype Result<+T> = Ok(value: T) | Err(error: Error)

  datatype Error =
    | ErrBookingNotFound | ErrBookingState | ErrBookingExpired
    | ErrSeatUnavailable | ErrSeatNotFound
    | ErrShowtimeNotFound | ErrShowtimeStarted | ErrShowtimeCanceled
    | ErrPaymentNotFound | ErrPaymentState | ErrPaymentInProgress
    | ErrProviderUnavailable | ErrValidation
      // Anything the database reports that no caller tells apart.
    | ErrDatabase

  datatype SeatClass = Standard | Premium | Accessible

  datatype Seat = Seat(id: SeatId, kind: SeatClass) {
    function PriceCents(base: nat): nat {
      if kind.Premium? then base + base / 4 else base
    }
  }

  datatype Showtime = Showtime(hall: HallId, startsAt: Time, basePrice: nat, cancelled: bool)

  datatype BookingStatus = BookingHeld | BookingConfirmed | BookingCancelled | BookingExpired

  /** A row of `bookings`. The empty key stands for SQL NULL. */
  datatype Booking = Booking(
    showtime: ShowtimeId,
    user: UserId,
    status: BookingStatus,
    total: nat,
    expiry: Option<Time>,
    key: string)
  {
    predicate IsActive() {
      status.BookingHeld? || status.BookingConfirmed?
    }

    predicate HoldLapsed(now: Time) {
      status.BookingHeld? && expiry.Some? && expiry.value <= now
    }
  }

  /** The unique part of a row of `booking_seats`, and the rest of it. */
  datatype ClaimKey = ClaimKey(booking: BookingId, seat: SeatId)

  datatype Claim = Claim(showtime: ShowtimeId, price: nat, active: bool)

  /** A request to hold seats. The repository never assumes the seats differ. */
  datatype NewBooking = NewBooking(
    showtime: ShowtimeId,
    user: UserId,
    seats: seq<Seat>,
    basePrice: nat,
    holdTTL: int,
    key: string)

  datatype PaymentStatus =
    | PaymentPending | PaymentProcessing | PaymentSucceeded
    | PaymentFailed | PaymentCancelled | PaymentRefunded

  /** A row of `payments`. The empty reference stands for SQL NULL. */
  datatype Payment = Payment(
    booking: BookingId,
    provider: string,
    ref: string,
    status: PaymentStatus,
    amount: nat,
    key: string)
  {
    predicate IsOpen() {
      status.PaymentPending? || status.PaymentProcessing?
    }

    /** Money was taken for this payment at some point. */
    predicate IsCaptured() {
      status.PaymentSucceeded? || status.PaymentRefunded?
    }
  }

  datatype EventType = EventSucceeded | EventFailed | EventCancelled | EventRefunded | EventOther

  /** What a row of `payment_events` is unique on. */
  datatype EventKey = EventKey(provider: string, id: string)

  datatype PaymentEvent = PaymentEvent(key: EventKey, kind: EventType, ref: string)
}
