// The per-IP token bucket (backend/internal/middleware/ratelimit.go). Times
// are nanosecond readings passed in by the caller instead of `time.Now`.
module RateLimit {
  import opened Common

  const NanosPerSecond := 1_000_000_000

  /** `min`. */
  function Min(a: int, b: int): (m: int)
    ensures m <= a && m <= b
    ensures m == a || m == b
  {
    if a < b then a else b
  }

  /** The whole tokens earned since `lastSeen` at `rate` per second,
      truncated toward zero as Go's `int` conversion does. */
  function TokensToAdd(lastSeen: int, now: int, rate: int): (n: int)
    ensures now >= lastSeen && rate >= 0 ==> n >= 0 && n * NanosPerSecond <= (now - lastSeen) * rate
  {
    TruncDiv((now - lastSeen) * rate, NanosPerSecond)
  }

  /** A bucket's token count and last refill time. */
  datatype Bucket = Bucket(tokens: int, lastSeen: int)

  /** The bucket after the refill: a positive number of earned tokens is
      added up to `burst` and moves `lastSeen` to `now`; otherwise the bucket
      is left as it is. */
  function Refill(b: Bucket, now: int, rate: int, burst: int): Bucket
  {
    var add := TokensToAdd(b.lastSeen, now, rate);
    if add > 0 then Bucket(Min(b.tokens + add, burst), now) else b
  }

  /** The decision and the bucket after a request. */
  datatype Decision = Decision(allowed: bool, bucket: Bucket)

  function Decide(b: Bucket, now: int, rate: int, burst: int): Decision
  {
    var r := Refill(b, now, rate, burst);
    if r.tokens > 0 then Decision(true, r.(tokens := r.tokens - 1)) else Decision(false, r)
  }

  /** The refill caps at `burst`, never loses tokens, and moves `lastSeen`
      exactly when it adds some. */
  lemma RefillEffect(b: Bucket, now: int, rate: int, burst: int)
    requires b.tokens <= burst
    ensures var r := Refill(b, now, rate, burst);
      var add := TokensToAdd(b.lastSeen, now, rate);
      (add > 0 ==> r.tokens == Min(b.tokens + add, burst) && r.lastSeen == now) &&
      (add <= 0 ==> r == b) &&
      b.tokens <= r.tokens <= burst
  {
  }

  /** A request is allowed exactly when the refilled bucket holds a token;
      an allowed request takes exactly one, a denied one takes none. */
  lemma DecideEffect(b: Bucket, now: int, rate: int, burst: int)
    ensures var r := Refill(b, now, rate, burst);
      var d := Decide(b, now, rate, burst);
      (d.allowed <==> r.tokens > 0) &&
      (d.allowed ==> d.bucket.tokens == r.tokens - 1) &&
      (!d.allowed ==> d.bucket.tokens == r.tokens) &&
      d.bucket.lastSeen == r.lastSeen
  {
  }

  /** The range a bucket's tokens keep: [0, burst] when burst is not
      negative (a negative burst pins every bucket at burst). */
  predicate InRange(tokens: int, burst: int)
  {
    Min(0, burst) <= tokens <= burst
  }

  /** Requests keep the tokens in range. */
  lemma DecideKeepsRange(b: Bucket, now: int, rate: int, burst: int)
    requires InRange(b.tokens, burst)
    ensures InRange(Decide(b, now, rate, burst).bucket.tokens, burst)
  {
  }

  /** With burst at least 0 and tokens in [0, burst], they stay there. */
  lemma TokensStayBounded(b: Bucket, now: int, rate: int, burst: int)
    requires 0 <= b.tokens <= burst
    ensures 0 <= Decide(b, now, rate, burst).bucket.tokens <= burst
  {
    DecideKeepsRange(b, now, rate, burst);
  }

  /** Requests at the instant of the last refill earn nothing: each takes a
      token until none is left, after which the bucket stays empty. */
  lemma {:induction false} BurstThenDeny(b: Bucket, now: int, rate: int, burst: int, k: nat)
    requires b.lastSeen == now && 0 <= b.tokens
    ensures Drain(b, now, rate, burst, k).tokens == if k <= b.tokens then b.tokens - k else 0
    ensures Drain(b, now, rate, burst, k).lastSeen == now
    decreases k
  {
    if k > 0 {
      BurstThenDeny(b, now, rate, burst, k - 1);
      var d := Drain(b, now, rate, burst, k - 1);
      NothingEarnedAtOnce(now, rate);
      assert Refill(d, now, rate, burst) == d;
    }
  }

  /** No time elapsed, no token earned. */
  lemma NothingEarnedAtOnce(now: int, rate: int)
    ensures TokensToAdd(now, now, rate) == 0
  {
    assert (now - now) * rate == 0;
  }

  /** The bucket after `k` requests at the same instant. */
  function Drain(b: Bucket, now: int, rate: int, burst: int, k: nat): Bucket
  {
    if k == 0 then b else Decide(Drain(b, now, rate, burst, k - 1), now, rate, burst).bucket
  }

  /** A visitor's bucket, updated in place. */
  class Visitor {
    var lastSeen: int
    var tokens: int

    constructor(tokens: int, lastSeen: int)
      ensures this.tokens == tokens && this.lastSeen == lastSeen
    {
      this.tokens := tokens;
      this.lastSeen := lastSeen;
    }

    function State(): Bucket
      reads this
    {
      Bucket(tokens, lastSeen)
    }

    /** The body of `Allow` once the visitor is found: refill, then take a
        token if there is one. */
    method Request(now: int, rate: int, burst: int) returns (allowed: bool)
      modifies this
      ensures Decide(old(State()), now, rate, burst) == Decision(allowed, State())
    {
      var add := TruncDiv((now - lastSeen) * rate, NanosPerSecond);
      if add > 0 {
        tokens := Min(tokens + add, burst);
        lastSeen := now;
      }
      if tokens > 0 {
        tokens := tokens - 1;
        allowed := true;
      } else {
        allowed := false;
      }
    }
  }

  class RateLimiter {
    var visitors: map<string, Visitor>
    const rate: int
    const burst: int

    /** Every IP has a visitor of its own, and every bucket is in range. */
    ghost predicate Valid()
      reads this, visitors.Values
    {
      (forall ip, ip' :: ip in visitors && ip' in visitors && ip != ip' ==> visitors[ip] != visitors[ip']) &&
      (forall ip :: ip in visitors ==> InRange(visitors[ip].tokens, burst))
    }

    /** `NewRateLimiter`, without the cleanup goroutine. */
    constructor(rate: int, burst: int)
      ensures Valid() && this.rate == rate && this.burst == burst && visitors == map[]
    {
      this.rate := rate;
      this.burst := burst;
      visitors := map[];
    }

    /** `getVisitor`: the IP's visitor, created with a full bucket on first
        sight. */
    method GetVisitor(ip: string, now: int) returns (v: Visitor)
      requires Valid()
      modifies this`visitors
      ensures Valid()
      ensures ip in old(visitors) ==> v == old(visitors[ip]) && visitors == old(visitors)
      ensures ip !in old(visitors) ==>
        fresh(v) && v.tokens == burst && v.lastSeen == now && visitors == old(visitors)[ip := v]
    {
      if ip in visitors {
        v := visitors[ip];
      } else {
        v := new Visitor(burst, now);
        visitors := visitors[ip := v];
      }
    }

    /** `Allow`: refill the IP's bucket, then take a token if there is one.
        No other visitor changes. */
    method Allow(ip: string, now: int) returns (allowed: bool)
      requires Valid()
      modifies this`visitors, visitors.Values
      ensures Valid()
      ensures visitors.Keys == old(visitors.Keys) + {ip}
      ensures var start := if ip in old(visitors) then old(visitors[ip].State()) else Bucket(burst, now);
        Decide(start, now, rate, burst) == Decision(allowed, visitors[ip].State())
      ensures forall other :: other in old(visitors) && other != ip ==>
        visitors[other] == old(visitors[other]) && visitors[other].State() == old(visitors[other].State())
    {
      var v := GetVisitor(ip, now);
      ghost var start := v.State();
      allowed := v.Request(now, rate, burst);
      DecideKeepsRange(start, now, rate, burst);
    }
  }
}
