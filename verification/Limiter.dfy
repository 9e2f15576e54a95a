/** The keyed token-bucket limiter with a bounded number of buckets, over exact arithmetic, and the
    limiter that never evicts. Times are seconds. */
module Limiter {
  datatype Rate = Rate(perSecond: real, burst: int) {
    predicate Valid() { 0.000001 <= perSecond <= 1000000.0 && 0 < burst <= 100000 }
    function Full(): real { burst as real }
  }

  datatype Bucket = Bucket(tokens: real, last: real)
  type Buckets = map<string, Bucket>

  function Min(a: real, b: real): real { if a < b then a else b }
  function Max(a: real, b: real): real { if a < b then b else a }
  function Ceil(x: real): int { -((-x).Floor) }

  /** A bucket idle this long has refilled. */
  function IdleSeconds(r: Rate): real
    requires r.Valid()
  {
    Max(60.0, r.Full() / r.perSecond)
  }

  /** The tokens that accrue from one time to another. */
  function Gain(r: Rate, from: real, to: real): (g: real)
    requires r.Valid() && from <= to
    ensures g >= 0.0 && (from == to ==> g == 0.0)
  {
    ProductNotNegative(to - from, r.perSecond);
    (to - from) * r.perSecond
  }

  lemma {:induction false} ProductNotNegative(a: real, b: real)
    requires a >= 0.0 && b >= 0.0
    ensures a * b >= 0.0 && (a == 0.0 ==> a * b == 0.0)
  {
  }

  lemma {:induction false} GainAdds(r: Rate, a: real, b: real, c: real)
    requires r.Valid() && a <= b <= c
    ensures Gain(r, a, c) == Gain(r, a, b) + Gain(r, b, c)
  {
    assert (c - a) * r.perSecond == (b - a) * r.perSecond + (c - b) * r.perSecond;
  }

  function Refill(r: Rate, b: Bucket, now: real): Bucket
    requires r.Valid()
  {
    if now > b.last then Bucket(Min(r.Full(), b.tokens + Gain(r, b.last, now)), now) else b
  }

  datatype Answer = Allowed | Refused(wait: int) | NoRoom

  function Wait(r: Rate, tokens: real): int
    requires r.Valid()
  {
    var w := Ceil((1.0 - tokens) / r.perSecond);
    if w < 1 then 1 else w
  }

  /** One call on one bucket. */
  function Spend(r: Rate, b: Bucket, now: real): (Bucket, Answer)
    requires r.Valid()
  {
    var b' := Refill(r, b, now);
    if b'.tokens < 1.0 then (b', Refused(Wait(r, b'.tokens))) else (b'.(tokens := b'.tokens - 1.0), Allowed)
  }

  function Evict(r: Rate, buckets: Buckets, now: real): Buckets
    requires r.Valid()
  {
    map k | k in buckets && now - buckets[k].last < IdleSeconds(r) :: buckets[k]
  }

  function Bucketed(r: Rate, buckets: Buckets, key: string, now: real): Bucket {
    if key in buckets then buckets[key] else Bucket(r.Full(), now)
  }

  /** The bounded limiter: room is made only from idle buckets, never from live ones. */
  function Bounded(r: Rate, maxKeys: int, buckets: Buckets, key: string, now: real): (Buckets, Answer)
    requires r.Valid()
  {
    var kept := if key !in buckets && |buckets| >= maxKeys then Evict(r, buckets, now) else buckets;
    if key !in kept && |kept| >= maxKeys then (kept, NoRoom)
    else
      var (b, answer) := Spend(r, Bucketed(r, kept, key, now), now);
      (kept[key := b], answer)
  }

  /** The limiter that keeps every bucket it ever made. */
  function Unbounded(r: Rate, buckets: Buckets, key: string, now: real): (Buckets, Answer)
    requires r.Valid()
  {
    var (b, answer) := Spend(r, Bucketed(r, buckets, key, now), now);
    (buckets[key := b], answer)
  }

  // ---------------------------------------------------------------- the code

  class KeyedLimiter {
    const rate: Rate
    const maxKeys: int
    var buckets: Buckets

    constructor (rate: Rate, maxKeys: int)
      ensures this.rate == rate && this.maxKeys == maxKeys && buckets == map[]
    {
      this.rate, this.maxKeys, buckets := rate, maxKeys, map[];
    }

    method EvictIdle(now: real)
      requires rate.Valid()
      modifies this
      ensures buckets == Evict(rate, old(buckets), now)
    {
      var todo := buckets.Keys;
      while todo != {}
        invariant todo <= buckets.Keys <= old(buckets).Keys
        invariant forall k :: k in buckets ==> buckets[k] == old(buckets)[k]
        invariant forall k :: k in old(buckets) && k !in todo ==>
                    (k in buckets <==> now - old(buckets)[k].last < IdleSeconds(rate))
        decreases |todo|
      {
        var k :| k in todo;
        if now - buckets[k].last >= IdleSeconds(rate) { buckets := buckets - {k}; }
        todo := todo - {k};
      }
    }

    method Allow(key: string, now: real) returns (ok: bool, retryAfter: int)
      requires rate.Valid()
      modifies this
      ensures var (after, answer) := Bounded(rate, maxKeys, old(buckets), key, now);
              && buckets == after && ok == answer.Allowed?
              && retryAfter == match answer case Allowed => 0 case Refused(w) => w case NoRoom => 60
    {
      if key !in buckets {
        if |buckets| >= maxKeys { EvictIdle(now); }
        if |buckets| >= maxKeys { return false, 60; }
      }
      var b := if key in buckets then buckets[key] else Bucket(rate.Full(), now);
      ghost var kept, found := buckets, b;
      if now > b.last {
        b := Bucket(Min(rate.Full(), b.tokens + Gain(rate, b.last, now)), now);
      }
      assert b == Refill(rate, found, now) && found == Bucketed(rate, kept, key, now);
      if b.tokens < 1.0 {
        buckets := buckets[key := b];
        var w := Ceil((1.0 - b.tokens) / rate.perSecond);
        return false, if w < 1 then 1 else w;
      }
      buckets := buckets[key := b.(tokens := b.tokens - 1.0)];
      return true, 0;
    }
  }

  // ---------------------------------------------------------------- eviction is unobservable

  datatype Request = Request(key: string, now: real)

  predicate Ordered(requests: seq<Request>) {
    forall i, j :: 0 <= i < j < |requests| ==> requests[i].now <= requests[j].now
  }

  /** A bucket no older than `t`, holding a legal number of tokens. */
  predicate Sane(r: Rate, b: Bucket, t: real) { 0.0 <= b.tokens <= r.Full() && b.last <= t }

  predicate AllSane(r: Rate, buckets: Buckets, t: real) { forall k :: k in buckets ==> Sane(r, buckets[k], t) }

  /** The two limiters agree: same live buckets, and whatever was evicted has been idle long
      enough to be full again. */
  predicate Agree(r: Rate, small: Buckets, large: Buckets, t: real)
    requires r.Valid()
  {
    && small.Keys <= large.Keys && AllSane(r, large, t)
    && (forall k :: k in small ==> small[k] == large[k])
    && (forall k :: k in large && k !in small ==> t - large[k].last >= IdleSeconds(r))
  }

  lemma {:induction false} SpendIsSane(r: Rate, b: Bucket, now: real)
    requires r.Valid() && Sane(r, b, now)
    ensures Sane(r, Spend(r, b, now).0, now)
  {
  }

  lemma {:induction false} IdleIsFull(r: Rate, b: Bucket, now: real)
    requires r.Valid() && Sane(r, b, now) && now - b.last >= IdleSeconds(r)
    ensures Refill(r, b, now) == Refill(r, Bucket(r.Full(), now), now)
  {
    QuotientBound(r.Full(), r.perSecond, now - b.last);
    assert Gain(r, b.last, now) >= r.Full();
  }

  lemma {:induction false} QuotientBound(x: real, y: real, z: real)
    requires y > 0.0
    ensures z >= x / y <==> z * y >= x
  {
    assert x / y * y == x;
    if z >= x / y { assert (z - x / y) * y >= 0.0; } else { assert (x / y - z) * y > 0.0; }
  }

  /** One call keeps the agreement; its answer is the never-evicting limiter's unless there was no
      room, in which case that limiter is not charged. */
  lemma {:induction false} CallAgrees(r: Rate, maxKeys: int, small: Buckets, large: Buckets, t: real, key: string, now: real)
    requires r.Valid() && Agree(r, small, large, t) && t <= now
    ensures var (small', answer) := Bounded(r, maxKeys, small, key, now);
            var (large', reference) := Unbounded(r, large, key, now);
            && (answer.NoRoom? ==> Agree(r, small', large, now))
            && (!answer.NoRoom? ==> answer == reference && Agree(r, small', large', now))
  {
    var kept := if key !in small && |small| >= maxKeys then Evict(r, small, now) else small;
    assert Agree(r, kept, large, now);
    if !(key !in kept && |kept| >= maxKeys) {
      if key !in kept && key in large { IdleIsFull(r, large[key], now); }
      SpendIsSane(r, Bucketed(r, large, key, now), now);
    }
  }

  function RunBounded(r: Rate, maxKeys: int, requests: seq<Request>): (Buckets, seq<Answer>)
    requires r.Valid()
  {
    if requests == [] then (map[], [])
    else
      var (before, answers) := RunBounded(r, maxKeys, requests[..|requests| - 1]);
      var q := requests[|requests| - 1];
      var (after, answer) := Bounded(r, maxKeys, before, q.key, q.now);
      (after, answers + [answer])
  }

  /** The never-evicting limiter, given only the requests the bounded one had room for. */
  function RunReference(r: Rate, requests: seq<Request>, answers: seq<Answer>): (Buckets, seq<Answer>)
    requires r.Valid() && |answers| == |requests|
  {
    if requests == [] then (map[], [])
    else
      var n := |requests| - 1;
      var (before, given) := RunReference(r, requests[..n], answers[..n]);
      if answers[n].NoRoom? then (before, given + [NoRoom])
      else
        var (after, answer) := Unbounded(r, before, requests[n].key, requests[n].now);
        (after, given + [answer])
  }

  lemma {:induction false} AnswerCount(r: Rate, maxKeys: int, requests: seq<Request>)
    requires r.Valid()
    ensures |RunBounded(r, maxKeys, requests).1| == |requests|
  {
    if requests != [] { AnswerCount(r, maxKeys, requests[..|requests| - 1]); }
  }

  function LastTime(requests: seq<Request>): real
    requires requests != []
  {
    requests[|requests| - 1].now
  }

  /** Under a non-decreasing clock eviction cannot be observed, but for the refusals that say the
      limiter has no room. */
  lemma {:induction false} EvictionIsUnobservable(r: Rate, maxKeys: int, requests: seq<Request>)
    requires r.Valid() && Ordered(requests)
    ensures var (small, answers) := RunBounded(r, maxKeys, requests);
            && |answers| == |requests|
            && RunReference(r, requests, answers).1 == answers
            && (requests != [] ==> Agree(r, small, RunReference(r, requests, answers).0, LastTime(requests)))
  {
    AnswerCount(r, maxKeys, requests);
    if requests != [] {
      var n := |requests| - 1;
      var init, q := requests[..n], requests[n];
      EvictionIsUnobservable(r, maxKeys, init);
      var (before, given) := RunBounded(r, maxKeys, init);
      var (small, answers) := RunBounded(r, maxKeys, requests);
      assert answers[..n] == given;
      var large := RunReference(r, init, given).0;
      var t := if n == 0 then q.now else LastTime(init);
      assert t <= q.now;
      CallAgrees(r, maxKeys, before, large, t, q.key, q.now);
    }
  }

  // ---------------------------------------------------------------- how much a key may use

  /** The tokens a key could spend at time `t` if it stayed quiet until then. */
  function Level(r: Rate, buckets: Buckets, key: string, t: real): real
    requires r.Valid()
  {
    if key in buckets then Refill(r, buckets[key], t).tokens else r.Full()
  }

  lemma {:induction false} LevelBounds(r: Rate, buckets: Buckets, key: string, t: real)
    requires r.Valid() && AllSane(r, buckets, t)
    ensures 0.0 <= Level(r, buckets, key, t) <= r.Full()
  {
  }

  lemma {:induction false} LevelRises(r: Rate, buckets: Buckets, key: string, t: real, u: real)
    requires r.Valid() && AllSane(r, buckets, t) && t <= u
    ensures Level(r, buckets, key, u) <= Level(r, buckets, key, t) + Gain(r, t, u)
  {
    if key in buckets { GainAdds(r, buckets[key].last, t, u); }
  }

  lemma {:induction false} EvictionKeepsLevels(r: Rate, buckets: Buckets, key: string, now: real)
    requires r.Valid() && AllSane(r, buckets, now)
    ensures Level(r, Evict(r, buckets, now), key, now) == Level(r, buckets, key, now)
  {
    if key in buckets && key !in Evict(r, buckets, now) { IdleIsFull(r, buckets[key], now); }
  }

  /** A call takes one token from its own key when allowed, and nothing else from anyone. */
  lemma {:induction false} CallSpends(r: Rate, maxKeys: int, buckets: Buckets, key: string, now: real, other: string)
    requires r.Valid() && AllSane(r, buckets, now)
    ensures var (after, answer) := Bounded(r, maxKeys, buckets, key, now);
            && AllSane(r, after, now)
            && Level(r, after, other, now) == Level(r, buckets, other, now) - (if answer.Allowed? && other == key then 1.0 else 0.0)
  {
    EvictionKeepsLevels(r, buckets, other, now);
    var kept := if key !in buckets && |buckets| >= maxKeys then Evict(r, buckets, now) else buckets;
    if !(key !in kept && |kept| >= maxKeys) { SpendIsSane(r, Bucketed(r, kept, key, now), now); }
  }

  /** How often `key` was allowed from request `from` on. */
  function AllowedSince(requests: seq<Request>, answers: seq<Answer>, key: string, from: nat): nat
    requires |answers| == |requests|
  {
    if |requests| <= from then 0
    else
      var n := |requests| - 1;
      AllowedSince(requests[..n], answers[..n], key, from)
      + if answers[n].Allowed? && requests[n].key == key then 1 else 0
  }

  lemma {:induction false} RunIsSane(r: Rate, maxKeys: int, requests: seq<Request>)
    requires r.Valid() && Ordered(requests) && requests != []
    ensures AllSane(r, RunBounded(r, maxKeys, requests).0, LastTime(requests))
  {
    var n := |requests| - 1;
    if n > 0 { RunIsSane(r, maxKeys, requests[..n]); }
    var before := RunBounded(r, maxKeys, requests[..n]).0;
    CallSpends(r, maxKeys, before, requests[n].key, requests[n].now, "");
  }

  /** What was allowed since request `from`, plus what is left at the end, within a budget. */
  predicate Within(r: Rate, maxKeys: int, requests: seq<Request>, key: string, from: nat, budget: real)
    requires r.Valid() && requests != [] && |RunBounded(r, maxKeys, requests).1| == |requests|
  {
    var (after, answers) := RunBounded(r, maxKeys, requests);
    AllowedSince(requests, answers, key, from) as real + Level(r, after, key, LastTime(requests)) <= budget
  }

  /** One more request: the level may have risen by `gain` before it, and it spends what it allows. */
  lemma {:induction false} OneMore(r: Rate, maxKeys: int, requests: seq<Request>, key: string, from: nat, budget: real, gain: real)
    requires r.Valid() && Ordered(requests) && 0 <= from < |requests|
    requires |RunBounded(r, maxKeys, requests).1| == |requests|
    requires var n := |requests| - 1;
             var before := RunBounded(r, maxKeys, requests[..n]).0;
             && AllSane(r, before, requests[n].now)
             && |RunBounded(r, maxKeys, requests[..n]).1| == n
             && (if from == n then Level(r, before, key, requests[n].now) <= budget + gain
                 else && Within(r, maxKeys, requests[..n], key, from, budget)
                      && Level(r, before, key, requests[n].now) <= Level(r, before, key, LastTime(requests[..n])) + gain)
    ensures Within(r, maxKeys, requests, key, from, budget + gain)
  {
    var n := |requests| - 1;
    var (before, given) := RunBounded(r, maxKeys, requests[..n]);
    var (after, answers) := RunBounded(r, maxKeys, requests);
    assert answers[..n] == given;
    CallSpends(r, maxKeys, before, requests[n].key, requests[n].now, key);
  }

  lemma {:induction false} SpentAndLeft(r: Rate, maxKeys: int, requests: seq<Request>, key: string, from: nat)
    requires r.Valid() && Ordered(requests) && from < |requests|
    ensures |RunBounded(r, maxKeys, requests).1| == |requests|
    ensures Within(r, maxKeys, requests, key, from, r.Full() + Gain(r, requests[from].now, LastTime(requests)))
    decreases |requests|
  {
    var n := |requests| - 1;
    var init, now := requests[..n], requests[n].now;
    AnswerCount(r, maxKeys, requests);
    AnswerCount(r, maxKeys, init);
    var before := RunBounded(r, maxKeys, init).0;
    if n > 0 { RunIsSane(r, maxKeys, init); }
    assert AllSane(r, before, now);
    if from < n {
      var past := LastTime(init);
      SpentAndLeft(r, maxKeys, init, key, from);
      LevelRises(r, before, key, past, now);
      GainAdds(r, requests[from].now, past, now);
      OneMore(r, maxKeys, requests, key, from, r.Full() + Gain(r, requests[from].now, past), Gain(r, past, now));
    } else {
      LevelBounds(r, before, key, now);
      OneMore(r, maxKeys, requests, key, from, r.Full(), 0.0);
    }
  }

  /** In every window of a run a key is allowed at most the burst plus what the window refills. */
  lemma {:induction false} WindowBound(r: Rate, maxKeys: int, requests: seq<Request>, key: string, from: nat)
    requires r.Valid() && Ordered(requests) && from < |requests|
    ensures |RunBounded(r, maxKeys, requests).1| == |requests|
    ensures AllowedSince(requests, RunBounded(r, maxKeys, requests).1, key, from) as real
            <= r.Full() + Gain(r, requests[from].now, LastTime(requests))
  {
    SpentAndLeft(r, maxKeys, requests, key, from);
    RunIsSane(r, maxKeys, requests);
    LevelBounds(r, RunBounded(r, maxKeys, requests).0, key, LastTime(requests));
  }

  /** The live buckets: those eviction would leave. */
  function Live(r: Rate, buckets: Buckets, now: real): set<string>
    requires r.Valid()
  {
    set k | k in buckets && now - buckets[k].last < IdleSeconds(r)
  }

  /** There is no room exactly when the key is new and live keys alone fill the limiter; otherwise the
      call is allowed exactly when the key has a token. */
  lemma {:induction false} CallDecides(r: Rate, maxKeys: int, buckets: Buckets, key: string, now: real)
    requires r.Valid() && AllSane(r, buckets, now)
    ensures var answer := Bounded(r, maxKeys, buckets, key, now).1;
            && (answer.NoRoom? <==> key !in buckets && |buckets| >= maxKeys && |Live(r, buckets, now)| >= maxKeys)
            && (answer.Allowed? <==> !answer.NoRoom? && Level(r, buckets, key, now) >= 1.0)
  {
    assert Evict(r, buckets, now).Keys == Live(r, buckets, now);
    assert |Evict(r, buckets, now)| == |Evict(r, buckets, now).Keys|;
  }

  /** From request `from` on nothing the key could have used went to waste. */
  predicate Tight(r: Rate, maxKeys: int, requests: seq<Request>, key: string, from: nat)
    requires r.Valid() && Ordered(requests) && requests != [] && |RunBounded(r, maxKeys, requests).1| == |requests|
  {
    var (after, answers) := RunBounded(r, maxKeys, requests);
    && from < |requests|
    && AllowedSince(requests, answers, key, from) as real + Level(r, after, key, LastTime(requests))
       == r.Full() + Gain(r, requests[from].now, LastTime(requests))
  }

  lemma {:induction false} LevelRisesOrFills(r: Rate, buckets: Buckets, key: string, t: real, u: real)
    requires r.Valid() && AllSane(r, buckets, t) && t <= u
    ensures Level(r, buckets, key, u) == r.Full()
            || (Level(r, buckets, key, t) < r.Full() && Level(r, buckets, key, u) == Level(r, buckets, key, t) + Gain(r, t, u))
  {
    LevelBounds(r, buckets, key, t);
    if key in buckets { GainAdds(r, buckets[key].last, t, u); }
  }

  /** A tight stretch stays tight while the level is below the burst. */
  lemma {:induction false} TightGrows(r: Rate, maxKeys: int, requests: seq<Request>, key: string, from: nat)
    requires r.Valid() && Ordered(requests) && |requests| > 1
    requires |RunBounded(r, maxKeys, requests).1| == |requests|
    requires var n := |requests| - 1;
             var init := requests[..n];
             var before := RunBounded(r, maxKeys, init).0;
             && |RunBounded(r, maxKeys, init).1| == n && Tight(r, maxKeys, init, key, from)
             && AllSane(r, before, requests[n].now)
             && Level(r, before, key, requests[n].now) == Level(r, before, key, LastTime(init)) + Gain(r, LastTime(init), requests[n].now)
    ensures Tight(r, maxKeys, requests, key, from)
  {
    var n := |requests| - 1;
    var (before, given) := RunBounded(r, maxKeys, requests[..n]);
    var (after, answers) := RunBounded(r, maxKeys, requests);
    assert answers[..n] == given;
    CallSpends(r, maxKeys, before, requests[n].key, requests[n].now, key);
    GainAdds(r, requests[from].now, LastTime(requests[..n]), requests[n].now);
  }

  /** The first token out of a full bucket opens a tight stretch. */
  lemma {:induction false} TightOpens(r: Rate, maxKeys: int, requests: seq<Request>, key: string)
    requires r.Valid() && Ordered(requests) && requests != []
    requires |RunBounded(r, maxKeys, requests).1| == |requests|
    requires var n := |requests| - 1;
             var before := RunBounded(r, maxKeys, requests[..n]).0;
             && |RunBounded(r, maxKeys, requests[..n]).1| == n
             && AllSane(r, before, requests[n].now) && Level(r, before, key, requests[n].now) == r.Full()
    ensures Level(r, RunBounded(r, maxKeys, requests).0, key, LastTime(requests)) == r.Full()
            || Tight(r, maxKeys, requests, key, |requests| - 1)
  {
    var n := |requests| - 1;
    var (before, given) := RunBounded(r, maxKeys, requests[..n]);
    var (after, answers) := RunBounded(r, maxKeys, requests);
    assert answers[..n] == given;
    CallSpends(r, maxKeys, before, requests[n].key, requests[n].now, key);
    assert AllowedSince(requests[..n], given, key, n) == 0;
  }

  lemma {:induction false} FullOrTight(r: Rate, maxKeys: int, requests: seq<Request>, key: string)
    requires r.Valid() && Ordered(requests) && requests != []
    ensures |RunBounded(r, maxKeys, requests).1| == |requests|
    ensures Level(r, RunBounded(r, maxKeys, requests).0, key, LastTime(requests)) == r.Full()
            || exists from: nat :: Tight(r, maxKeys, requests, key, from)
  {
    var n := |requests| - 1;
    var init, now := requests[..n], requests[n].now;
    AnswerCount(r, maxKeys, requests);
    AnswerCount(r, maxKeys, init);
    var before := RunBounded(r, maxKeys, init).0;
    if n > 0 {
      RunIsSane(r, maxKeys, init);
      LevelRisesOrFills(r, before, key, LastTime(init), now);
    }
    if Level(r, before, key, now) == r.Full() {
      TightOpens(r, maxKeys, requests, key);
    } else {
      FullOrTight(r, maxKeys, init, key);
      var from: nat :| Tight(r, maxKeys, init, key, from);
      TightGrows(r, maxKeys, requests, key, from);
    }
  }

  /** The bound is the best possible: a key that is refused for its rate was, since some request,
      allowed more than the burst less one plus what was refilled. */
  lemma {:induction false} RefusalIsEarned(r: Rate, maxKeys: int, requests: seq<Request>)
    requires r.Valid() && Ordered(requests) && requests != []
    requires var answers := RunBounded(r, maxKeys, requests).1; |answers| == |requests| && answers[|answers| - 1].Refused?
    ensures var n := |requests| - 1;
            exists from: nat :: from < n
              && AllowedSince(requests, RunBounded(r, maxKeys, requests).1, requests[n].key, from) as real
                 > r.Full() - 1.0 + Gain(r, requests[from].now, requests[n].now)
  {
    var n := |requests| - 1;
    var key, now := requests[n].key, requests[n].now;
    var (after, answers) := RunBounded(r, maxKeys, requests);
    var before := RunBounded(r, maxKeys, requests[..n]).0;
    AnswerCount(r, maxKeys, requests[..n]);
    if n > 0 { RunIsSane(r, maxKeys, requests[..n]); }
    CallDecides(r, maxKeys, before, key, now);
    CallSpends(r, maxKeys, before, key, now, key);
    assert Level(r, after, key, now) < 1.0 <= r.Full();
    FullOrTight(r, maxKeys, requests, key);
    var from: nat :| Tight(r, maxKeys, requests, key, from);
    LastIsNotAllowed(r, maxKeys, requests, key, from);
  }

  lemma {:induction false} LastIsNotAllowed(r: Rate, maxKeys: int, requests: seq<Request>, key: string, from: nat)
    requires r.Valid() && Ordered(requests) && requests != [] && from < |requests|
    requires var answers := RunBounded(r, maxKeys, requests).1;
             |answers| == |requests| && !answers[|answers| - 1].Allowed? && AllowedSince(requests, answers, key, from) > 0
    ensures from < |requests| - 1
  {
  }

  /** The returned wait is the least whole number of seconds, at least one, that refills a token. */
  lemma {:induction false} WaitIsLeast(r: Rate, tokens: real, w: int, gain: real)
    requires r.Valid() && w >= 1 && gain == w as real * r.perSecond
    ensures w >= Wait(r, tokens) <==> tokens + gain >= 1.0
  {
    var x := (1.0 - tokens) / r.perSecond;
    QuotientBound(1.0 - tokens, r.perSecond, w as real);
    assert Ceil(x) as real >= x && (Ceil(x) - 1) as real < x;
    assert w >= Ceil(x) <==> w as real >= x;
  }

  /** A refused key that has a bucket is allowed after the returned wait, if no call intervenes,
      and after no smaller number of whole seconds. */
  lemma {:induction false} WaitIsExact(r: Rate, maxKeys: int, buckets: Buckets, key: string, now: real, seconds: int)
    requires r.Valid() && AllSane(r, buckets, now) && seconds >= 1
    requires Bounded(r, maxKeys, buckets, key, now).1.Refused?
    ensures var (after, answer) := Bounded(r, maxKeys, buckets, key, now);
            var later := Bounded(r, maxKeys, after, key, now + seconds as real).1;
            later.Allowed? <==> seconds >= answer.wait
  {
    var kept := if key !in buckets && |buckets| >= maxKeys then Evict(r, buckets, now) else buckets;
    var found := Bucketed(r, kept, key, now);
    var (after, answer) := Bounded(r, maxKeys, buckets, key, now);
    var b := after[key];
    SpendIsSane(r, found, now);
    assert b == Refill(r, found, now);
    var later := now + seconds as real;
    assert later - now == seconds as real;
    WaitIsLeast(r, b.tokens, seconds, Gain(r, now, later));
  }
}
