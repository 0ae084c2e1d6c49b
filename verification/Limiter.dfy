/** The per-IP rate limiter and what evicting its idle buckets changes: nothing,
    exactly when an idle bucket has had the time to refill. */
module Limiter {

  type Ip = string

  /** Seconds. */
  const BUCKET_TTL: real := 600.0

  datatype Policy = Policy(rps: real, burst: nat)

  // ------------------------------------------------- the law of a token bucket

  datatype Bucket = Bucket(tokens: real, last: real)

  datatype Decision = Decision(allowed: bool, bucket: Bucket)

  function NewBucket(p: Policy, now: real): Bucket { Bucket(p.burst as real, now) }

  function Refilled(p: Policy, b: Bucket, now: real): real {
    var elapsed := if now < b.last then 0.0 else now - b.last;
    var tokens := b.tokens + p.rps * elapsed;
    if tokens > p.burst as real then p.burst as real else tokens
  }

  /** A refused request leaves the bucket alone. */
  function Take(p: Policy, b: Bucket, now: real): Decision {
    var tokens := Refilled(p, b, now);
    if tokens >= 1.0 then Decision(true, Bucket(tokens - 1.0, now)) else Decision(false, b)
  }

  // ------------------------------------------------------------------ eviction

  datatype IpBucket = IpBucket(bucket: Bucket, seen: real)

  datatype Buckets = Buckets(of: map<Ip, IpBucket>, lastGC: real)

  datatype Request = Request(ip: Ip, at: real)

  function Collected(m: Buckets, now: real): Buckets {
    if now - m.lastGC > BUCKET_TTL then
      Buckets(map ip | ip in m.of && now - m.of[ip].seen <= BUCKET_TTL :: m.of[ip], now)
    else m
  }

  function BucketFor(p: Policy, m: Buckets, r: Request): Bucket {
    var kept := Collected(m, r.at);
    if r.ip in kept.of then kept.of[r.ip].bucket else NewBucket(p, r.at)
  }

  function Allowed(p: Policy, m: Buckets, r: Request): bool {
    Take(p, BucketFor(p, m, r), r.at).allowed
  }

  function After(p: Policy, m: Buckets, r: Request): Buckets {
    var kept := Collected(m, r.at);
    kept.(of := kept.of[r.ip := IpBucket(Take(p, BucketFor(p, m, r), r.at).bucket, r.at)])
  }

  function Answers(p: Policy, m: Buckets, rs: seq<Request>): seq<bool>
    decreases |rs|
  {
    if rs == [] then [] else [Allowed(p, m, rs[0])] + Answers(p, After(p, m, rs[0]), rs[1..])
  }

  // ---------------------------------------------- the limiter that never evicts

  function PlainFor(p: Policy, m: map<Ip, Bucket>, r: Request): Bucket {
    if r.ip in m then m[r.ip] else NewBucket(p, r.at)
  }

  function PlainAfter(p: Policy, m: map<Ip, Bucket>, r: Request): map<Ip, Bucket> {
    m[r.ip := Take(p, PlainFor(p, m, r), r.at).bucket]
  }

  function PlainAnswers(p: Policy, m: map<Ip, Bucket>, rs: seq<Request>): seq<bool>
    decreases |rs|
  {
    if rs == [] then []
    else [Take(p, PlainFor(p, m, rs[0]), rs[0].at).allowed] + PlainAnswers(p, PlainAfter(p, m, rs[0]), rs[1..])
  }

  // ------------------------------------------------------------ the limiter

  class IpLimiter {
    const policy: Policy
    var buckets: map<Ip, IpBucket>
    var lastGC: real

    constructor (rps: real, burst: int, now: real)
      ensures policy == Policy(rps, if burst <= 0 then 1 else burst)
      ensures Contents() == Buckets(map[], now)
    {
      policy := Policy(rps, if burst <= 0 then 1 else burst);
      buckets, lastGC := map[], now;
    }

    function Contents(): Buckets
      reads this
    {
      Buckets(buckets, lastGC)
    }

    /** Deletes the buckets that were not used for the last ten minutes. */
    method Collect(now: real)
      modifies this
      ensures Contents() == Collected(old(Contents()), now)
    {
      if now - lastGC > BUCKET_TTL {
        var rest := buckets.Keys;
        while rest != {}
          invariant rest <= old(buckets).Keys && lastGC == old(lastGC)
          invariant buckets == map ip | ip in old(buckets)
                                        && (ip in rest || now - old(buckets)[ip].seen <= BUCKET_TTL) :: old(buckets)[ip]
          decreases |rest|
        {
          var ip :| ip in rest;
          if now - buckets[ip].seen > BUCKET_TTL {
            buckets := buckets - {ip};
          }
          rest := rest - {ip};
        }
        lastGC := now;
      }
    }

    method Allow(ip: Ip, now: real) returns (allowed: bool)
      modifies this
      ensures allowed == Allowed(policy, old(Contents()), Request(ip, now))
      ensures Contents() == After(policy, old(Contents()), Request(ip, now))
    {
      Collect(now);
      var bucket := if ip in buckets then buckets[ip].bucket else NewBucket(policy, now);
      var decision := Take(policy, bucket, now);
      buckets := buckets[ip := IpBucket(decision.bucket, now)];
      allowed := decision.allowed;
    }
  }

  // -------------------------------------------------------------- no difference

  ghost predicate Ordered(start: real, rs: seq<Request>) {
    && (forall i | 0 <= i < |rs| :: start <= rs[i].at)
    && (forall i, j | 0 <= i < j < |rs| :: rs[i].at <= rs[j].at)
  }

  /** The same buckets, but for those idle long enough to be evicted. */
  ghost predicate SameButIdle(p: Policy, m: Buckets, plain: map<Ip, Bucket>, now: real) {
    && (forall ip | ip in plain :: 0.0 <= plain[ip].tokens)
    && (forall ip | ip in m.of ::
          ip in plain && plain[ip] == m.of[ip].bucket && plain[ip].last <= m.of[ip].seen <= now)
    && (forall ip | ip in plain && ip !in m.of :: now - plain[ip].last > BUCKET_TTL)
  }

  lemma IdleIsFull(p: Policy, b: Bucket, now: real)
    requires p.rps > 0.0 && p.burst as real <= p.rps * BUCKET_TTL
    requires 0.0 <= b.tokens && now - b.last > BUCKET_TTL
    ensures Refilled(p, b, now) == p.burst as real
  {
    assert p.rps * (now - b.last) >= p.rps * BUCKET_TTL;
  }

  lemma StepsAgree(p: Policy, m: Buckets, plain: map<Ip, Bucket>, now: real, r: Request)
    requires p.rps > 0.0 && p.burst >= 1 && p.burst as real <= p.rps * BUCKET_TTL
    requires SameButIdle(p, m, plain, now) && now <= r.at
    ensures Allowed(p, m, r) == Take(p, PlainFor(p, plain, r), r.at).allowed
    ensures SameButIdle(p, After(p, m, r), PlainAfter(p, plain, r), r.at)
  {
    var kept := Collected(m, r.at);
    assert SameButIdle(p, kept, plain, r.at);
    if r.ip in plain && r.ip !in kept.of {
      IdleIsFull(p, plain[r.ip], r.at);
      assert Refilled(p, NewBucket(p, r.at), r.at) == p.burst as real;
    }
    assert Take(p, BucketFor(p, m, r), r.at) == Take(p, PlainFor(p, plain, r), r.at);
    TakeKeeps(p, PlainFor(p, plain, r), r.at);
  }

  lemma TakeKeeps(p: Policy, b: Bucket, now: real)
    requires 0.0 <= b.tokens && b.last <= now
    ensures 0.0 <= Take(p, b, now).bucket.tokens && Take(p, b, now).bucket.last <= now
  {
  }

  lemma {:induction false} RunsAgree(p: Policy, m: Buckets, plain: map<Ip, Bucket>, now: real, rs: seq<Request>)
    requires p.rps > 0.0 && p.burst >= 1 && p.burst as real <= p.rps * BUCKET_TTL
    requires SameButIdle(p, m, plain, now) && Ordered(now, rs)
    ensures Answers(p, m, rs) == PlainAnswers(p, plain, rs)
    decreases |rs|
  {
    if rs != [] {
      StepsAgree(p, m, plain, now, rs[0]);
      RunsAgree(p, After(p, m, rs[0]), PlainAfter(p, plain, rs[0]), rs[0].at, rs[1..]);
    }
  }

  // ----------------------------------------------------------------- a difference

  function Repeat(r: Request, k: nat): seq<Request> { seq(k, _ => r) }

  ghost predicate AllTrue(answers: seq<bool>) { forall i | 0 <= i < |answers| :: answers[i] }

  function AfterAll(p: Policy, m: Buckets, rs: seq<Request>): Buckets
    decreases |rs|
  {
    if rs == [] then m else AfterAll(p, After(p, m, rs[0]), rs[1..])
  }

  function PlainAfterAll(p: Policy, m: map<Ip, Bucket>, rs: seq<Request>): map<Ip, Bucket>
    decreases |rs|
  {
    if rs == [] then m else PlainAfterAll(p, PlainAfter(p, m, rs[0]), rs[1..])
  }

  lemma {:induction false} AnswersConcat(p: Policy, m: Buckets, a: seq<Request>, b: seq<Request>)
    ensures Answers(p, m, a + b) == Answers(p, m, a) + Answers(p, AfterAll(p, m, a), b)
    decreases |a|
  {
    if a == [] {
      assert a + b == b;
    } else {
      assert (a + b)[1..] == a[1..] + b;
      AnswersConcat(p, After(p, m, a[0]), a[1..], b);
    }
  }

  lemma {:induction false} PlainConcat(p: Policy, m: map<Ip, Bucket>, a: seq<Request>, b: seq<Request>)
    ensures PlainAnswers(p, m, a + b) == PlainAnswers(p, m, a) + PlainAnswers(p, PlainAfterAll(p, m, a), b)
    decreases |a|
  {
    if a == [] {
      assert a + b == b;
    } else {
      assert (a + b)[1..] == a[1..] + b;
      PlainConcat(p, PlainAfter(p, m, a[0]), a[1..], b);
    }
  }

  lemma AfterTaking(p: Policy, b: Bucket, now: real)
    requires Refilled(p, b, now) >= 1.0 && p.rps > 0.0
    ensures Take(p, b, now).allowed
    ensures Refilled(p, Take(p, b, now).bucket, now) == Refilled(p, b, now) - 1.0
  {
  }

  /** As many requests at one instant pass as the bucket holds tokens. */
  lemma {:induction false} BurstPasses(p: Policy, m: Buckets, r: Request, k: nat)
    requires p.rps > 0.0 && Refilled(p, BucketFor(p, m, r), r.at) >= k as real
    ensures AllTrue(Answers(p, m, Repeat(r, k)))
    ensures var n := AfterAll(p, m, Repeat(r, k));
            k > 0 ==> r.ip in n.of && n.of[r.ip].seen == r.at && n.lastGC == Collected(m, r.at).lastGC
    decreases k
  {
    if k > 0 {
      var n := After(p, m, r);
      assert Repeat(r, k)[1..] == Repeat(r, k - 1);
      AfterTaking(p, BucketFor(p, m, r), r.at);
      assert Collected(n, r.at) == n;
      BurstPasses(p, n, r, k - 1);
    }
  }

  lemma {:induction false} PlainBurst(p: Policy, m: map<Ip, Bucket>, r: Request, k: nat)
    requires p.rps > 0.0 && Refilled(p, PlainFor(p, m, r), r.at) >= 0.0
    ensures Refilled(p, PlainFor(p, m, r), r.at) < k as real ==> !AllTrue(PlainAnswers(p, m, Repeat(r, k)))
    ensures var n := PlainAfterAll(p, m, Repeat(r, k));
            0.0 < k as real <= Refilled(p, PlainFor(p, m, r), r.at) ==>
              r.ip in n && n[r.ip] == Bucket(Refilled(p, PlainFor(p, m, r), r.at) - k as real, r.at)
    decreases k
  {
    if k > 0 {
      var n := PlainAfter(p, m, r);
      assert Repeat(r, k)[1..] == Repeat(r, k - 1);
      PlainBurst(p, n, r, k - 1);
      var answers := PlainAnswers(p, m, Repeat(r, k));
      assert answers == [Take(p, PlainFor(p, m, r), r.at).allowed] + PlainAnswers(p, n, Repeat(r, k - 1));
      if Refilled(p, PlainFor(p, m, r), r.at) >= 1.0 {
        AfterTaking(p, PlainFor(p, m, r), r.at);
        var tail := PlainAnswers(p, n, Repeat(r, k - 1));
        if i :| 0 <= i < |tail| && !tail[i] {
          assert !answers[i + 1];
        }
      } else {
        assert !answers[0];
      }
    }
  }

  /** Two bursts from one address, a little more than the TTL apart. */
  function TwoBursts(p: Policy, start: real, later: real): seq<Request> {
    Repeat(Request("", start), p.burst) + Repeat(Request("", later), p.burst)
  }

  lemma EvictionForgives(p: Policy, start: real, later: real)
    requires p.rps > 0.0 && p.burst >= 1 && later - start > BUCKET_TTL
    ensures AllTrue(Answers(p, Buckets(map[], start), TwoBursts(p, start, later)))
  {
    var m, first, second := Buckets(map[], start), Request("", start), Request("", later);
    BurstPasses(p, m, first, p.burst);
    var n := AfterAll(p, m, Repeat(first, p.burst));
    AnswersConcat(p, m, Repeat(first, p.burst), Repeat(second, p.burst));
    assert "" !in Collected(n, later).of;
    BurstPasses(p, n, second, p.burst);
  }

  lemma NoEvictionRefuses(p: Policy, start: real, later: real)
    requires p.rps > 0.0 && p.burst >= 1 && later >= start && p.rps * (later - start) < p.burst as real
    ensures !AllTrue(PlainAnswers(p, map[], TwoBursts(p, start, later)))
  {
    var m: map<Ip, Bucket>, first, second := map[], Request("", start), Request("", later);
    PlainBurst(p, m, first, p.burst);
    var n := PlainAfterAll(p, m, Repeat(first, p.burst));
    PlainConcat(p, m, Repeat(first, p.burst), Repeat(second, p.burst));
    PlainBurst(p, n, second, p.burst);
    var a, b := PlainAnswers(p, m, Repeat(first, p.burst)), PlainAnswers(p, n, Repeat(second, p.burst));
    var i :| 0 <= i < |b| && !b[i];
    assert !(a + b)[|a| + i];
  }

  lemma NotYetRefilled(p: Policy, start: real) returns (later: real)
    requires p.rps > 0.0 && p.burst as real > p.rps * BUCKET_TTL
    ensures later - start > BUCKET_TTL && p.rps * (later - start) < p.burst as real
  {
    var full := p.burst as real / p.rps;
    assert p.rps * full == p.burst as real;
    assert full > BUCKET_TTL;
    later := start + (full + BUCKET_TTL) / 2.0;
  }

  ghost predicate NeverTellsApart(p: Policy, start: real) {
    forall rs | Ordered(start, rs) :: Answers(p, Buckets(map[], start), rs) == PlainAnswers(p, map[], rs)
  }

  /** Evicting idle buckets changes no decision on any sequence of requests if and
      only if an idle bucket refills within the time it is kept. */
  lemma EvictionIsInvisible(p: Policy, start: real)
    requires p.rps > 0.0 && p.burst >= 1
    ensures NeverTellsApart(p, start) <==> p.burst as real <= p.rps * BUCKET_TTL
  {
    if p.burst as real <= p.rps * BUCKET_TTL {
      forall rs | Ordered(start, rs)
        ensures Answers(p, Buckets(map[], start), rs) == PlainAnswers(p, map[], rs)
      {
        RunsAgree(p, Buckets(map[], start), map[], start, rs);
      }
    } else {
      var later := NotYetRefilled(p, start);
      EvictionForgives(p, start, later);
      NoEvictionRefuses(p, start, later);
      assert Ordered(start, TwoBursts(p, start, later));
    }
  }
}
