/** Holds that insert their seats in strictly ascending order cannot deadlock on
    each other's inserts. An insert waits while another open transaction has
    inserted the same seat of the same showtime, or has released it and not
    committed the release; every deadlock needs a wait of the second kind. */
module OrderedClaims {
  import opened Domain
  import opened Seats
  import Sums

  /** An open transaction: the seats it will insert, in order, how many it has, and
      the seats whose lapsed claims it released before. */
  datatype Tx = Tx(showtime: ShowtimeId, plan: seq<SeatId>, inserted: nat, released: set<SeatId>) {
    ghost predicate Valid() {
      && inserted <= |plan|
      && forall i, j | 0 <= i < j < |plan| :: plan[i] < plan[j]
    }

    predicate Finished() { inserted == |plan| }

    /** The index entries it has made and not committed. */
    predicate Owns(st: ShowtimeId, seat: SeatId) {
      showtime == st && inserted <= |plan| && seat in plan[..inserted]
    }
  }

  datatype Table = Table(open: map<nat, Tx>, committed: set<(ShowtimeId, SeatId)>)

  /** The next insert of `t` meets an uncommitted insert of `u`. */
  predicate OnInsert(d: Table, t: nat, u: nat) {
    && t in d.open && u in d.open && t != u
    && d.open[t].inserted < |d.open[t].plan|
    && d.open[u].Owns(d.open[t].showtime, d.open[t].plan[d.open[t].inserted])
  }

  /** The next insert of `t` meets an uncommitted release of `u`. */
  predicate OnRelease(d: Table, t: nat, u: nat) {
    && t in d.open && u in d.open && t != u
    && d.open[t].inserted < |d.open[t].plan|
    && d.open[u].showtime == d.open[t].showtime
    && d.open[t].plan[d.open[t].inserted] in d.open[u].released
  }

  predicate WaitsFor(d: Table, t: nat, u: nat) { OnInsert(d, t, u) || OnRelease(d, t, u) }

  predicate Blocked(d: Table, t: nat) {
    exists u :: u in d.open && WaitsFor(d, t, u)
  }

  function Entries(st: ShowtimeId, seats: set<SeatId>): set<(ShowtimeId, SeatId)> {
    set x | x in seats :: (st, x)
  }

  /** A transaction that is not blocked inserts its next seat, fails on a seat
      already committed that it did not release itself (and rolls back), or
      commits. */
  function Move(d: Table, t: nat): Table
    requires t in d.open && !Blocked(d, t)
  {
    var tx := d.open[t];
    if tx.inserted >= |tx.plan| then
      Table(d.open - {t},
            d.committed - Entries(tx.showtime, tx.released) + Entries(tx.showtime, set x | x in tx.plan))
    else if (tx.showtime, tx.plan[tx.inserted]) in d.committed && tx.plan[tx.inserted] !in tx.released then
      d.(open := d.open - {t})
    else d.(open := d.open[t := tx.(inserted := tx.inserted + 1)])
  }

  ghost predicate Valid(d: Table) {
    forall t | t in d.open :: d.open[t].Valid()
  }

  lemma MoveKeepsValid(d: Table, t: nat)
    requires Valid(d) && t in d.open && !Blocked(d, t)
    ensures Valid(Move(d, t))
  {
  }

  /** Two open transactions never own the same entry. */
  ghost predicate Exclusive(d: Table) {
    forall t, u, seat | t in d.open && u in d.open && t != u && d.open[t].Owns(d.open[t].showtime, seat) ::
      !d.open[u].Owns(d.open[t].showtime, seat)
  }

  lemma MoveKeepsExclusive(d: Table, t: nat)
    requires Valid(d) && Exclusive(d) && t in d.open && !Blocked(d, t)
    ensures Exclusive(Move(d, t))
  {
    var e := Move(d, t);
    var tx := d.open[t];
    forall a, b, seat | a in e.open && b in e.open && a != b && e.open[a].Owns(e.open[a].showtime, seat)
      ensures !e.open[b].Owns(e.open[a].showtime, seat)
    {
      if t in e.open {
        var next := tx.plan[tx.inserted];
        assert e.open[t].plan[..tx.inserted + 1] == tx.plan[..tx.inserted] + [next];
        assert !WaitsFor(d, t, a) && !WaitsFor(d, t, b);
      }
    }
  }

  // ------------------------------------------------------------------ acyclic

  function NextSeat(d: Table, t: nat): SeatId
    requires t in d.open && d.open[t].inserted < |d.open[t].plan|
  {
    d.open[t].plan[d.open[t].inserted]
  }

  /** Whoever has inserted the seat waited for is further along the order. */
  lemma WaitsForLaterSeat(d: Table, t: nat, u: nat)
    requires Valid(d) && OnInsert(d, t, u) && !d.open[u].Finished()
    ensures NextSeat(d, t) < NextSeat(d, u)
  {
    var tx := d.open[u];
    var i :| 0 <= i < tx.inserted && tx.plan[i] == NextSeat(d, t);
  }

  ghost predicate WaitChain(d: Table, chain: seq<nat>) {
    forall i | 0 <= i < |chain| - 1 :: WaitsFor(d, chain[i], chain[i + 1])
  }

  ghost predicate OnlyInserts(d: Table, chain: seq<nat>) {
    forall i | 0 <= i < |chain| - 1 :: OnInsert(d, chain[i], chain[i + 1])
  }

  lemma {:induction false} ChainAscends(d: Table, chain: seq<nat>)
    requires Valid(d) && |chain| >= 2 && OnlyInserts(d, chain)
    requires chain[|chain| - 1] in d.open && !d.open[chain[|chain| - 1]].Finished()
    ensures OnInsert(d, chain[0], chain[1]) && NextSeat(d, chain[0]) < NextSeat(d, chain[|chain| - 1])
    decreases |chain|
  {
    assert OnInsert(d, chain[0], chain[1]);
    if |chain| == 2 {
      WaitsForLaterSeat(d, chain[0], chain[1]);
    } else {
      var rest := chain[1..];
      forall i | 0 <= i < |rest| - 1 ensures OnInsert(d, rest[i], rest[i + 1]) {
        assert OnInsert(d, chain[i + 1], chain[i + 2]);
      }
      assert OnInsert(d, chain[1], chain[2]);
      ChainAscends(d, rest);
      WaitsForLaterSeat(d, chain[0], chain[1]);
    }
  }

  /** A transaction that waits, through any number of others, for itself does so
      through at least one uncommitted release. */
  lemma NoDeadlock(d: Table, chain: seq<nat>)
    requires Valid(d) && |chain| >= 2 && WaitChain(d, chain)
    ensures chain[0] == chain[|chain| - 1] ==>
              exists i :: 0 <= i < |chain| - 1 && OnRelease(d, chain[i], chain[i + 1])
  {
    assert WaitsFor(d, chain[0], chain[1]);
    if chain[0] == chain[|chain| - 1] && OnlyInserts(d, chain) {
      ChainAscends(d, chain);
    }
  }

  // ----------------------------------------------------------------- progress

  /** The transaction furthest along the order. */
  lemma {:induction false} FurthestAlong(d: Table, ts: set<nat>) returns (t: nat)
    requires ts != {} && ts <= d.open.Keys
    requires forall u | u in ts :: d.open[u].inserted < |d.open[u].plan|
    ensures t in ts && forall u | u in ts :: NextSeat(d, u) <= NextSeat(d, t)
    decreases ts
  {
    t :| t in ts;
    if ts != {t} {
      var rest := ts - {t};
      assert rest != {};
      var u := FurthestAlong(d, rest);
      if NextSeat(d, t) < NextSeat(d, u) {
        t := u;
      }
    }
  }

  /** While any transaction is open, one of them can move or waits for a release. */
  lemma SomeoneCanMove(d: Table) returns (t: nat)
    requires Valid(d) && d.open != map[]
    ensures t in d.open && (!Blocked(d, t) || exists u :: OnRelease(d, t, u))
  {
    assert d.open.Keys != {};
    if u :| u in d.open && d.open[u].Finished() {
      t := u;
    } else {
      t := FurthestAlong(d, d.open.Keys);
      forall u | u in d.open ensures !OnInsert(d, t, u) {
        if OnInsert(d, t, u) {
          WaitsForLaterSeat(d, t, u);
        }
      }
    }
  }

  /** No open transaction released a seat that another one wants. */
  ghost predicate ReleasesApart(d: Table) {
    forall t, u | t in d.open && u in d.open && t != u && d.open[t].showtime == d.open[u].showtime ::
      forall x | x in d.open[t].plan :: x !in d.open[u].released
  }

  lemma MoveKeepsReleasesApart(d: Table, t: nat)
    requires ReleasesApart(d) && t in d.open && !Blocked(d, t)
    ensures ReleasesApart(Move(d, t))
  {
  }

  /** A hold that started before the claim on seat 3 lapsed. */
  function EarlyHold(): Table { Table(map[0 := Tx(0, [1, 3], 0, {})], {(0, 3)}) }

  /** A hold that starts after the lapse and releases that claim. */
  function LateHold(): Tx { Tx(0, [1, 3], 0, {3}) }

  function Stuck(): Table { Table(map[0 := Tx(0, [1, 3], 1, {}), 1 := LateHold()], {(0, 3)}) }

  lemma EarlyInserts()
    ensures Valid(EarlyHold()) && !Blocked(EarlyHold(), 0)
    ensures Move(EarlyHold(), 0) == Table(map[0 := Tx(0, [1, 3], 1, {})], {(0, 3)})
  {
    assert forall u | u in EarlyHold().open :: u == 0;
    assert (0, 1) !in EarlyHold().committed;
  }

  lemma BothWait()
    ensures Valid(Stuck()) && OnRelease(Stuck(), 0, 1) && OnInsert(Stuck(), 1, 0)
    ensures forall t | t in Stuck().open :: Blocked(Stuck(), t)
  {
    assert Stuck().open[0].plan[..1] == [1];
    assert WaitsFor(Stuck(), 0, 1) && WaitsFor(Stuck(), 1, 0);
  }

  /** The early hold inserts seat 1, the late one begins: both plans ascend, the late
      one waits for seat 1 and the early one for the release of seat 3. */
  lemma ReleaseDeadlock()
    ensures Valid(EarlyHold()) && !Blocked(EarlyHold(), 0)
    ensures Stuck().open == Move(EarlyHold(), 0).open[1 := LateHold()]
    ensures Stuck().committed == Move(EarlyHold(), 0).committed
    ensures Valid(Stuck()) && OnRelease(Stuck(), 0, 1) && OnInsert(Stuck(), 1, 0)
    ensures forall t | t in Stuck().open :: Blocked(Stuck(), t)
  {
    EarlyInserts();
    BothWait();
    assert map[0 := Tx(0, [1, 3], 1, {})][1 := LateHold()] == Stuck().open;
  }

  // ------------------------------------------------------------------- finish

  ghost function Work(d: Table): map<nat, int> {
    map t | t in d.open :: |d.open[t].plan| - d.open[t].inserted + 1
  }

  /** A schedule moves transactions that are free to move. */
  ghost predicate IsSchedule(d: Table, schedule: seq<nat>)
    decreases |schedule|
  {
    schedule == [] ||
    (schedule[0] in d.open && !Blocked(d, schedule[0]) && IsSchedule(Move(d, schedule[0]), schedule[1..]))
  }

  ghost function After(d: Table, schedule: seq<nat>): Table
    requires IsSchedule(d, schedule)
    decreases |schedule|
  {
    if schedule == [] then d else After(Move(d, schedule[0]), schedule[1..])
  }

  lemma MoveSpendsWork(d: Table, t: nat)
    requires Valid(d) && t in d.open && !Blocked(d, t)
    ensures Sums.Total(Work(Move(d, t))) < Sums.Total(Work(d))
  {
    var e := Move(d, t);
    Sums.TotalRemove(Work(d), t);
    assert Work(d) - {t} == Work(Table(d.open - {t}, d.committed));
    if t in e.open {
      Sums.TotalRemove(Work(e), t);
      assert Work(e) - {t} == Work(d) - {t};
    } else {
      assert Work(e) == Work(d) - {t};
    }
  }

  /** No schedule is longer than the work there was; one that cannot be continued
      has finished every transaction or left one waiting for a release, and has
      finished them all when no release is in another's way. */
  lemma {:induction false} AllFinish(d: Table, schedule: seq<nat>)
    requires Valid(d) && Exclusive(d) && IsSchedule(d, schedule)
    ensures |schedule| <= Sums.Total(Work(d))
    ensures var e := After(d, schedule);
            && Exclusive(e)
            && ((forall t | t in e.open :: Blocked(e, t)) ==> e.open == map[] || exists t, u :: OnRelease(e, t, u))
            && (ReleasesApart(d) ==> (e.open == map[] <==> forall t | t in e.open :: Blocked(e, t)))
    decreases |schedule|
  {
    Sums.TotalNonNegative(Work(d));
    if schedule == [] {
      if d.open != map[] {
        var t := SomeoneCanMove(d);
      }
    } else {
      MoveKeepsValid(d, schedule[0]);
      MoveKeepsExclusive(d, schedule[0]);
      MoveSpendsWork(d, schedule[0]);
      if ReleasesApart(d) {
        MoveKeepsReleasesApart(d, schedule[0]);
      }
      AllFinish(Move(d, schedule[0]), schedule[1..]);
    }
  }

  /** The plan of a hold for distinct seats is strictly ascending. */
  lemma HoldPlansAscend(st: ShowtimeId, seats: seq<Seat>)
    requires Distinct(seats)
    ensures Tx(st, seq(|Sort(seats)|, i requires 0 <= i < |Sort(seats)| => Sort(seats)[i].id), 0, {}).Valid()
  {
    SortedOrder(seats, 0);
  }
}
