/** Requested seats: which are named, what they cost, and the order they are
    claimed in. */
module Seats {
  import opened Domain

  function Ids(seats: seq<Seat>): set<SeatId> {
    set x | x in seats :: x.id
  }

  predicate Distinct(seats: seq<Seat>) {
    forall i, j | 0 <= i < j < |seats| :: seats[i].id != seats[j].id
  }

  function TotalPrice(seats: seq<Seat>, base: nat): nat {
    if seats == [] then 0
    else TotalPrice(seats[..|seats| - 1], base) + seats[|seats| - 1].PriceCents(base)
  }

  /** The price of the seat with the given id; no price when there is none. */
  function PriceAt(seats: seq<Seat>, id: SeatId, base: nat): nat {
    if seats == [] then 0
    else if seats[|seats| - 1].id == id then seats[|seats| - 1].PriceCents(base)
    else PriceAt(seats[..|seats| - 1], id, base)
  }

  lemma {:induction false} PriceAtFinds(seats: seq<Seat>, x: Seat, base: nat)
    requires Distinct(seats) && x in seats
    ensures PriceAt(seats, x.id, base) == x.PriceCents(base)
  {
    var n := |seats| - 1;
    assert seats == seats[..n] + [seats[n]];
    if x != seats[n] {
      PriceAtFinds(seats[..n], x, base);
      var i :| 0 <= i < |seats| && seats[i] == x;
      assert i < n && seats[i].id != seats[n].id;
    }
  }

  function Insert(x: Seat, seats: seq<Seat>): seq<Seat> {
    if seats == [] then [x]
    else if x.id <= seats[0].id then [x] + seats
    else [seats[0]] + Insert(x, seats[1..])
  }

  /** `sort.Slice` by id. */
  function Sort(seats: seq<Seat>): seq<Seat> {
    if seats == [] then [] else Insert(seats[0], Sort(seats[1..]))
  }

  ghost predicate Ascending(seats: seq<Seat>) {
    forall i, j | 0 <= i < j < |seats| :: seats[i].id <= seats[j].id
  }

  lemma HeadKeepsAscending(x: Seat, seats: seq<Seat>)
    requires Ascending(seats) && (forall j | 0 <= j < |seats| :: x.id <= seats[j].id)
    ensures Ascending([x] + seats)
  {
  }

  lemma {:induction false} InsertKeepsMembers(x: Seat, seats: seq<Seat>)
    ensures multiset(Insert(x, seats)) == multiset(seats) + multiset{x}
  {
    if seats != [] && seats[0].id < x.id {
      InsertKeepsMembers(x, seats[1..]);
      assert seats == [seats[0]] + seats[1..];
    }
  }

  lemma NoneBefore(head: SeatId, x: Seat, seats: seq<Seat>)
    requires head <= x.id && forall j | 0 <= j < |seats| :: head <= seats[j].id
    ensures forall j | 0 <= j < |Insert(x, seats)| :: head <= Insert(x, seats)[j].id
  {
    InsertKeepsMembers(x, seats);
    forall j | 0 <= j < |Insert(x, seats)| ensures head <= Insert(x, seats)[j].id {
      assert Insert(x, seats)[j] in multiset(Insert(x, seats));
    }
  }

  lemma {:induction false} InsertFacts(x: Seat, seats: seq<Seat>)
    requires Ascending(seats)
    ensures multiset(Insert(x, seats)) == multiset(seats) + multiset{x}
    ensures Ascending(Insert(x, seats))
  {
    InsertKeepsMembers(x, seats);
    if seats == [] || x.id <= seats[0].id {
      HeadKeepsAscending(x, seats);
      assert Insert(x, seats) == [x] + seats;
    } else {
      InsertFacts(x, seats[1..]);
      NoneBefore(seats[0].id, x, seats[1..]);
      HeadKeepsAscending(seats[0], Insert(x, seats[1..]));
    }
  }

  lemma {:induction false} SortFacts(seats: seq<Seat>)
    ensures multiset(Sort(seats)) == multiset(seats)
    ensures Ascending(Sort(seats))
  {
    if seats != [] {
      SortFacts(seats[1..]);
      InsertFacts(seats[0], Sort(seats[1..]));
      assert seats == [seats[0]] + seats[1..];
    }
  }

  lemma LastIsNew(seats: seq<Seat>)
    requires seats != [] && Distinct(seats)
    ensures var init, last := seats[..|seats| - 1], seats[|seats| - 1];
            Ids(seats) == Ids(init) + {last.id} && last.id !in Ids(init) && Distinct(init)
  {
    assert seats == seats[..|seats| - 1] + [seats[|seats| - 1]];
  }

  /** Naming n different seats takes a list of length n exactly when no seat
      is named twice. */
  lemma {:induction false} DistinctIffAsManyIds(seats: seq<Seat>)
    ensures |Ids(seats)| <= |seats|
    ensures Distinct(seats) <==> |Ids(seats)| == |seats|
  {
    if seats != [] {
      var init, last := seats[..|seats| - 1], seats[|seats| - 1];
      DistinctIffAsManyIds(init);
      assert seats == init + [last];
      assert Ids(seats) == Ids(init) + {last.id};
      if Distinct(seats) {
        assert last.id !in Ids(init);
      } else if Distinct(init) {
        var i, j :| 0 <= i < j < |seats| && seats[i].id == seats[j].id;
        assert j == |init|;
        assert init[i] in init;
        assert Ids(seats) == Ids(init);
      }
    }
  }

  lemma SameMembers(a: seq<Seat>, b: seq<Seat>)
    requires multiset(a) == multiset(b)
    ensures |a| == |b| && Ids(a) == Ids(b) && (Distinct(a) <==> Distinct(b))
    ensures forall x :: x in a <==> x in b
  {
    assert |multiset(a)| == |multiset(b)|;
    forall x ensures x in a <==> x in b {
      assert x in multiset(a) <==> x in multiset(b);
    }
    DistinctIffAsManyIds(a);
    DistinctIffAsManyIds(b);
  }

  lemma MultisetWithout(seats: seq<Seat>, i: nat)
    requires i < |seats|
    ensures multiset(seats[..i] + seats[i + 1..]) == multiset(seats) - multiset{seats[i]}
  {
    assert seats == seats[..i] + [seats[i]] + seats[i + 1..];
  }

  /** The price of an order does not depend on the order of its seats. */
  lemma {:induction false} SamePrice(a: seq<Seat>, b: seq<Seat>, base: nat)
    requires multiset(a) == multiset(b)
    ensures TotalPrice(a, base) == TotalPrice(b, base)
    decreases |a|
  {
    SameMembers(a, b);
    if a != [] {
      var n := |a| - 1;
      assert a[n] in b;
      var i :| 0 <= i < |b| && b[i] == a[n];
      MultisetWithout(a, n);
      MultisetWithout(b, i);
      assert a[..n] + a[n + 1..] == a[..n];
      SamePrice(a[..n], b[..i] + b[i + 1..], base);
      PriceWithout(b, i, base);
    }
  }

  lemma {:induction false} PriceWithout(seats: seq<Seat>, i: nat, base: nat)
    requires i < |seats|
    ensures TotalPrice(seats, base) == TotalPrice(seats[..i] + seats[i + 1..], base) + seats[i].PriceCents(base)
  {
    var n := |seats| - 1;
    var rest := seats[..i] + seats[i + 1..];
    if i == n {
      assert rest == seats[..n];
    } else {
      PriceWithout(seats[..n], i, base);
      assert rest[..|rest| - 1] == seats[..n][..i] + seats[..n][i + 1..];
    }
  }

  /** What the repository iterates over: the same order, sorted, strictly
      ascending when no seat is named twice. */
  lemma SortedOrder(seats: seq<Seat>, base: nat)
    ensures Ids(Sort(seats)) == Ids(seats) && |Sort(seats)| == |seats|
    ensures forall x :: x in Sort(seats) <==> x in seats
    ensures TotalPrice(Sort(seats), base) == TotalPrice(seats, base)
    ensures Distinct(Sort(seats)) <==> Distinct(seats)
    ensures Distinct(seats) ==>
              forall i, j | 0 <= i < j < |seats| :: Sort(seats)[i].id < Sort(seats)[j].id
  {
    SortFacts(seats);
    SameMembers(Sort(seats), seats);
    SamePrice(Sort(seats), seats, base);
  }
}
