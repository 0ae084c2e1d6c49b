/** Concurrent and repeated holds carrying idempotency keys: every call is a small
    state machine, and their moves interleave with each other and with any other
    transaction. */
module HoldRaces {
  import opened Domain
  import opened Store
  import opened Steps
  import Invariant
  import Histories

  const HOLD_MAX_ATTEMPTS := 3

  datatype Pc =
      // HoldSeats looks for an earlier booking with the key
    | Looking
      // Hold runs its transaction, replaying it after a deadlock
    | Attempting(n: nat)
      // the insert lost; the winner is read outside the aborted transaction
    | Rereading
    | Done(result: Result<BookingId>)

  datatype Call = Call(req: NewBooking, pc: Pc)

  datatype Race = Race(store: State, calls: map<nat, Call>)

  datatype Move =
    | Other(step: Step)
    | Begin(c: nat, req: NewBooking)
    | Lookup(c: nat)
    | Attempt(c: nat, id: BookingId, aborted: bool)
    | Reread(c: nat)
      // the catalog refuses the request, or the database fails for good
    | GiveUp(c: nat, error: Error)

  ghost function ByKey(rows: map<BookingId, Booking>, user: UserId, key: string): Result<BookingId> {
    if key != "" && exists b :: b in rows && rows[b].user == user && rows[b].key == key then
      var b :| b in rows && rows[b].user == user && rows[b].key == key;
      Ok(b)
    else Err(ErrBookingNotFound)
  }

  function SetPc(r: Race, c: nat, pc: Pc): Race
    requires c in r.calls
  {
    r.(calls := r.calls[c := r.calls[c].(pc := pc)])
  }

  ghost function Next(r: Race, m: Move): Race {
    match m
    case Other(step) => r.(store := Apply(r.store, step))
    case Begin(c, req) => if c in r.calls then r else r.(calls := r.calls[c := Call(req, Looking)])
    case Lookup(c) =>
      if c !in r.calls || !r.calls[c].pc.Looking? then r
      else
        var found := ByKey(r.store.bookings, r.calls[c].req.user, r.calls[c].req.key);
        SetPc(r, c, if found.Ok? then Done(found) else Attempting(1))
    case Attempt(c, id, aborted) =>
      if c !in r.calls || !r.calls[c].pc.Attempting? then r
      else
        var call := r.calls[c];
        if aborted then
          SetPc(r, c, if call.pc.n < HOLD_MAX_ATTEMPTS then Attempting(call.pc.n + 1) else Done(Err(ErrDatabase)))
        else
          match TryHold(r.store, call.req, id) {
            case Held(_) => SetPc(r.(store := Hold(r.store, call.req, id)), c, Done(Ok(id)))
            case Replayed => SetPc(r, c, Rereading)
            case Refused => SetPc(r, c, Done(Err(ErrSeatUnavailable)))
          }
    case Reread(c) =>
      if c !in r.calls || !r.calls[c].pc.Rereading? then r
      else SetPc(r, c, Done(ByKey(r.store.bookings, r.calls[c].req.user, r.calls[c].req.key)))
    case GiveUp(c, e) =>
      if c !in r.calls || r.calls[c].pc.Done? || r.calls[c].pc.Rereading? || e.ErrBookingNotFound? then r
      else SetPc(r, c, Done(Err(e)))
  }

  ghost function Play(r: Race, moves: seq<Move>): Race
    decreases |moves|
  {
    if moves == [] then r else Play(Next(r, moves[0]), moves[1..])
  }

  // ---------------------------------------------------------------- invariant

  predicate Owns(s: State, req: NewBooking, b: BookingId) {
    b in s.bookings && s.bookings[b].user == req.user && s.bookings[b].key == req.key
  }

  predicate CallOk(s: State, call: Call) {
    match call.pc
    case Looking => true
    case Attempting(n) => 1 <= n <= HOLD_MAX_ATTEMPTS
    case Rereading => HasKey(s, call.req.user, call.req.key)
    case Done(Ok(b)) => Owns(s, call.req, b)
    case Done(Err(e)) => !e.ErrBookingNotFound?
  }

  ghost predicate RaceOk(r: Race) {
    Valid(r.store) && forall c | c in r.calls :: CallOk(r.store, r.calls[c])
  }

  lemma CallOkStays(s: State, t: State, call: Call)
    requires CallOk(s, call) && Histories.Evolves(s, t)
    ensures CallOk(t, call)
  {
    if call.pc.Rereading? {
      var b :| b in s.bookings && s.bookings[b].user == call.req.user && s.bookings[b].key == call.req.key;
      assert b in t.bookings;
    }
  }

  lemma NextKeepsRaceOk(r: Race, m: Move)
    requires RaceOk(r)
    ensures RaceOk(Next(r, m))
  {
    var t := Next(r, m);
    if m.Other? {
      Invariant.StepKeepsValid(r.store, m.step);
      Histories.StepEvolves(r.store, m.step);
    } else if m.Attempt? && t.store != r.store {
      Invariant.HoldKeepsValid(r.store, r.calls[m.c].req, m.id);
      Histories.HoldEvolves(r.store, r.calls[m.c].req, m.id);
    }
    forall c | c in t.calls ensures CallOk(t.store, t.calls[c]) {
      if c in r.calls && t.calls[c] == r.calls[c] && t.store != r.store {
        CallOkStays(r.store, t.store, r.calls[c]);
      }
    }
  }

  /** Over any interleaving: at most one booking exists for a user's key, every
      call that succeeds with that key returns its id, and a call that lost the
      race is never told that the booking does not exist. */
  lemma {:induction false} HoldsAreIdempotent(r: Race, moves: seq<Move>)
    requires RaceOk(r)
    ensures var e := Play(r, moves);
            && RaceOk(e)
            && (forall c, d | c in e.calls && d in e.calls && e.calls[c].pc.Done? && e.calls[d].pc.Done?
                              && e.calls[c].pc.result.Ok? && e.calls[d].pc.result.Ok?
                              && e.calls[c].req.key != "" && e.calls[c].req.key == e.calls[d].req.key
                              && e.calls[c].req.user == e.calls[d].req.user ::
                  e.calls[c].pc.result == e.calls[d].pc.result)
            && (forall c | c in e.calls && e.calls[c].pc.Done? :: e.calls[c].pc.result != Err(ErrBookingNotFound))
    decreases |moves|
  {
    if moves == [] {
      forall c, d | c in r.calls && d in r.calls && r.calls[c].pc.Done? && r.calls[d].pc.Done?
                    && r.calls[c].pc.result.Ok? && r.calls[d].pc.result.Ok?
                    && r.calls[c].req.key != "" && r.calls[c].req.key == r.calls[d].req.key
                    && r.calls[c].req.user == r.calls[d].req.user
        ensures r.calls[c].pc.result == r.calls[d].pc.result
      {
        assert CallOk(r.store, r.calls[c]) && CallOk(r.store, r.calls[d]);
      }
    } else {
      NextKeepsRaceOk(r, moves[0]);
      HoldsAreIdempotent(Next(r, moves[0]), moves[1..]);
    }
  }

  lemma RacesStartOk(s: State)
    requires Valid(s)
    ensures RaceOk(Race(s, map[]))
  {
  }

  /** In particular over every race that starts from valid tables: every finished
      call that names a key and succeeded returned the one booking with it. */
  lemma WinnersAgreeWithTheTables(s: State, moves: seq<Move>, c: nat)
    requires Valid(s)
    requires var e := Play(Race(s, map[]), moves);
             c in e.calls && e.calls[c].pc.Done? && e.calls[c].pc.result.Ok? && e.calls[c].req.key != ""
    ensures var e := Play(Race(s, map[]), moves);
            e.calls[c].pc.result == ByKey(e.store.bookings, e.calls[c].req.user, e.calls[c].req.key)
  {
    RacesStartOk(s);
    HoldsAreIdempotent(Race(s, map[]), moves);
    var e := Play(Race(s, map[]), moves);
    assert CallOk(e.store, e.calls[c]);
    assert OneBookingPerKey(e.store);
  }

  /** A call nothing interrupts: the earlier booking under its key, or all its
      seats, or a refusal that changes nothing. */
  lemma HoldAlone(r: Race, c: nat, id: BookingId)
    requires c in r.calls && r.calls[c].pc.Looking?
    ensures var req, s := r.calls[c].req, r.store;
            var e := Next(Next(r, Lookup(c)), Attempt(c, id, false));
            && c in e.calls
            && if HasKey(s, req.user, req.key) then
                 e.store == s && e.calls[c].pc.Done? && e.calls[c].pc.result.Ok? && Owns(s, req, e.calls[c].pc.result.value)
               else if CanClaim(s, req, id) then e.store == Hold(s, req, id) && e.calls[c].pc == Done(Ok(id))
               else e.store == s && e.calls[c].pc == Done(Err(ErrSeatUnavailable))
  {
  }
}
