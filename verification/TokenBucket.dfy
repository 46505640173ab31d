/** TokenBucket and allowed_by_rate_limit (src/gateway.cpp:12-28, 200-204), over real tokens and
    real time. A window starts when the bucket was created, just before an earlier request, or
    now; its allowance is capacity + rate * elapsed - tokens granted in it. */
module RateLimit {

  /** A reading of the clock, and the tokens the refill rate yields from time 0 to then. */
  datatype Moment = Moment(time: real, earned: real)

  datatype Request = Request(at: Moment, taken: real)

  datatype Config = Config(capacity: real, created: Moment)

  function At(rate: real, time: real): Moment { Moment(time, time * rate) }

  function Least(a: real, b: real): real { if b < a then b else a }

  // ---------------------------------------------------------------- what the code keeps

  function Last(c: Config, reqs: seq<Request>): Moment {
    if reqs == [] then c.created else reqs[|reqs| - 1].at
  }

  /** The tokens left after these requests. */
  function Tokens(c: Config, reqs: seq<Request>): real
    decreases |reqs|, 0
  {
    if reqs == [] then c.capacity
    else
      var front, r := reqs[..|reqs| - 1], reqs[|reqs| - 1];
      Refilled(c, front, r.at) - r.taken
  }

  /** The tokens a request at `now` finds. */
  function Refilled(c: Config, reqs: seq<Request>, now: Moment): real
    decreases |reqs|, 1
  {
    Least(c.capacity, Tokens(c, reqs) + (now.earned - Last(c, reqs).earned))
  }

  // ---------------------------------------------------------------- windows

  function Taken(reqs: seq<Request>): real {
    if reqs == [] then 0.0 else Taken(reqs[..|reqs| - 1]) + reqs[|reqs| - 1].taken
  }

  /** Window 0 starts at creation, window w just before request w - 1, the last window now. */
  function WindowStart(c: Config, reqs: seq<Request>, now: Moment, w: nat): Moment
    requires w < |reqs| + 2
  {
    if w == 0 then c.created else if w == |reqs| + 1 then now else reqs[w - 1].at
  }

  /** The requests that fall into a window. */
  function Within(reqs: seq<Request>, w: nat): seq<Request>
    requires w < |reqs| + 2
  {
    if w == 0 then reqs else reqs[w - 1..]
  }

  /** The most a window may grant: the capacity, and what the rate yields over the time elapsed. */
  function Bound(c: Config, start: Moment, now: Moment): real {
    c.capacity + (now.earned - start.earned)
  }

  /** capacity + rate * elapsed, as the configuration states it. */
  function Budget(c: Config, rate: real, start: real, now: real): real {
    c.capacity + rate * (now - start)
  }

  lemma BudgetMeans(c: Config, rate: real, start: real, now: real)
    ensures Budget(c, rate, start, now) == c.capacity + (now - start) * rate
  {
  }

  lemma BoundIsBudget(c: Config, rate: real, start: Moment, now: Moment)
    requires start == At(rate, start.time) && now == At(rate, now.time)
    ensures Bound(c, start, now) == Budget(c, rate, start.time, now.time)
  {
  }

  function Allowance(c: Config, reqs: seq<Request>, now: Moment, w: nat): real
    requires w < |reqs| + 2
  {
    Bound(c, WindowStart(c, reqs, now, w), now) - Taken(Within(reqs, w))
  }

  function Allowances(c: Config, reqs: seq<Request>, now: Moment): (s: seq<real>)
    ensures |s| == |reqs| + 2
  {
    seq(|reqs| + 2, w requires 0 <= w < |reqs| + 2 => Allowance(c, reqs, now, w))
  }

  ghost predicate IsLeastOf(x: real, s: seq<real>) {
    x in s && forall i :: 0 <= i < |s| ==> x <= s[i]
  }

  ghost predicate Fits(amount: real, s: seq<real>) {
    forall i :: 0 <= i < |s| ==> amount <= s[i]
  }

  lemma FitsMeans(amount: real, s: seq<real>)
    ensures Fits(amount, s) <==> forall i :: 0 <= i < |s| ==> amount <= s[i]
  {
  }

  /** The least of a list whose elements all moved by `shift` and that got `cap` as well. */
  lemma LeastOfShifted(x: real, s: seq<real>, shift: real, cap: real, t: seq<real>)
    requires IsLeastOf(x, s) && |t| == |s| + 1 && t[|s|] == cap
    requires forall i :: 0 <= i < |s| ==> t[i] == s[i] + shift
    ensures IsLeastOf(Least(cap, x + shift), t)
  {
    var k :| 0 <= k < |s| && s[k] == x;
    assert t[k] == x + shift;
    assert t[|s|] == cap;
  }

  lemma TakenOne(reqs: seq<Request>, r: Request)
    ensures Taken(reqs + [r]) == Taken(reqs) + r.taken
  {
    assert (reqs + [r])[..|reqs|] == reqs;
  }

  /** What is taken adds up. */
  lemma {:induction false} TakenAddsUp(a: seq<Request>, b: seq<Request>, r: Request)
    ensures Taken(a + b) == Taken(a) + Taken(b) && Taken([r]) == r.taken && Taken([]) == 0.0
  {
    TakenOne([], r);
    assert [] + [r] == [r];
    if b == [] {
      assert a + b == a;
    } else {
      var front, last := b[..|b| - 1], b[|b| - 1];
      TakenAddsUp(a, front, r);
      TakenOne(a + front, last);
      assert a + b == a + front + [last];
    }
  }

  /** One more request moves every window's allowance by the same amount. */
  lemma AllowanceShifts(c: Config, reqs: seq<Request>, r: Request, now: Moment, w: nat)
    requires w < |reqs| + 2
    ensures Allowance(c, reqs + [r], now, w) == Allowance(c, reqs, r.at, w) + (now.earned - r.at.earned - r.taken)
  {
    var longer := reqs + [r];
    assert Within(longer, w) == Within(reqs, w) + [r];
    TakenOne(Within(reqs, w), r);
    assert WindowStart(c, longer, now, w) == WindowStart(c, reqs, r.at, w);
  }

  lemma AllowancesShift(c: Config, reqs: seq<Request>, r: Request, now: Moment)
    ensures var s, t := Allowances(c, reqs, r.at), Allowances(c, reqs + [r], now);
            forall w :: 0 <= w < |s| ==> t[w] == s[w] + (now.earned - r.at.earned - r.taken)
  {
    forall w: nat | w < |reqs| + 2
      ensures Allowances(c, reqs + [r], now)[w] == Allowances(c, reqs, r.at)[w] + (now.earned - r.at.earned - r.taken)
    {
      AllowanceShifts(c, reqs, r, now, w);
    }
  }

  lemma EmptyWindow(c: Config, reqs: seq<Request>, now: Moment)
    ensures Allowances(c, reqs, now)[|reqs| + 1] == c.capacity
  {
    assert Within(reqs, |reqs| + 1) == [];
  }

  lemma RefilledOne(c: Config, reqs: seq<Request>, r: Request, now: Moment)
    ensures Refilled(c, reqs + [r], now)
         == Least(c.capacity, Refilled(c, reqs, r.at) + (now.earned - r.at.earned - r.taken))
  {
    assert (reqs + [r])[..|reqs|] == reqs;
  }

  lemma UntouchedBucket(c: Config, now: Moment)
    ensures IsLeastOf(Refilled(c, [], now), Allowances(c, [], now))
  {
    EmptyWindow(c, [], now);
    var s := Allowances(c, [], now);
    assert Within([], 0) == [];
    assert s[0] == Allowance(c, [], now, 0) == Bound(c, c.created, now);
    assert s[1] == c.capacity;
  }

  /** Closed form: what a request finds is the least allowance over all windows that end now. */
  lemma {:induction false} TokensAreLeastAllowance(c: Config, reqs: seq<Request>, now: Moment)
    ensures IsLeastOf(Refilled(c, reqs, now), Allowances(c, reqs, now))
  {
    if reqs == [] {
      UntouchedBucket(c, now);
    } else {
      var front, r := reqs[..|reqs| - 1], reqs[|reqs| - 1];
      TokensAreLeastAllowance(c, front, r.at);
      assert reqs == front + [r];
      OneMoreRequest(c, front, r, now, Refilled(c, front, r.at), Allowances(c, front, r.at));
    }
  }

  /** One more request moves all allowances, and what there is to take, by the same amount. */
  lemma MovesBy(c: Config, reqs: seq<Request>, r: Request, now: Moment) returns (shift: real)
    ensures var s, t := Allowances(c, reqs, r.at), Allowances(c, reqs + [r], now);
            forall w :: 0 <= w < |s| ==> t[w] == s[w] + shift
    ensures Refilled(c, reqs + [r], now) == Least(c.capacity, Refilled(c, reqs, r.at) + shift)
  {
    shift := now.earned - r.at.earned - r.taken;
    AllowancesShift(c, reqs, r, now);
    RefilledOne(c, reqs, r, now);
  }

  lemma LeastMoves(x: real, s: seq<real>, shift: real, cap: real, y: real, t: seq<real>)
    requires IsLeastOf(x, s) && |t| == |s| + 1 && t[|s|] == cap && y == Least(cap, x + shift)
    requires forall i :: 0 <= i < |s| ==> t[i] == s[i] + shift
    ensures IsLeastOf(y, t)
  {
    LeastOfShifted(x, s, shift, cap, t);
  }

  lemma OneMoreRequest(c: Config, reqs: seq<Request>, r: Request, now: Moment, x: real, s: seq<real>)
    requires x == Refilled(c, reqs, r.at) && s == Allowances(c, reqs, r.at) && IsLeastOf(x, s)
    ensures IsLeastOf(Refilled(c, reqs + [r], now), Allowances(c, reqs + [r], now))
  {
    var y, t := Refilled(c, reqs + [r], now), Allowances(c, reqs + [r], now);
    var shift := MovesBy(c, reqs, r, now);
    EmptyWindow(c, reqs + [r], now);
    assert IsLeastOf(y, t) by { LeastMoves(x, s, shift, c.capacity, y, t); }
  }

  /** A request is granted exactly when it fits every window. */
  lemma GrantedIffItFits(c: Config, reqs: seq<Request>, now: Moment, amount: real)
    ensures amount <= Refilled(c, reqs, now) <==> Fits(amount, Allowances(c, reqs, now))
  {
    TokensAreLeastAllowance(c, reqs, now);
  }

  /** A bucket of two tokens that earns one a second: two requests at once are granted and a third is
      not, until a second later. */
  lemma BurstOfTwo(c: Config, a: Request, b: Request)
    requires c == Config(2.0, Moment(0.0, 0.0)) && a == b == Request(Moment(0.0, 0.0), 1.0)
    ensures Refilled(c, [], Moment(0.0, 0.0)) == 2.0 && Refilled(c, [a], Moment(0.0, 0.0)) == 1.0
    ensures Refilled(c, [a, b], Moment(0.0, 0.0)) == 0.0 && Refilled(c, [a, b], Moment(1.0, 1.0)) == 1.0
    ensures Refilled(c, [a, b], Moment(60.0, 60.0)) == 2.0
  {
    assert Tokens(c, []) == 2.0 && Refilled(c, [], a.at) == 2.0;
    RefilledOne(c, [], a, Moment(0.0, 0.0));
    RefilledOne(c, [a], b, Moment(0.0, 0.0));
    RefilledOne(c, [a], b, Moment(1.0, 1.0));
    RefilledOne(c, [a], b, Moment(60.0, 60.0));
    assert [] + [a] == [a] && [a] + [b] == [a, b];
  }

  // ---------------------------------------------------------------- no window is exceeded

  /** Requests as Consume records them, of a clock and a refill that never run backwards: all of
      the amount or nothing, never more than was there. */
  ghost predicate Served(c: Config, reqs: seq<Request>) {
    reqs == [] ||
    (var front, r := reqs[..|reqs| - 1], reqs[|reqs| - 1];
     && Served(c, front) && Last(c, front).earned <= r.at.earned
     && 0.0 <= r.taken && (r.taken == 0.0 || r.taken <= Refilled(c, front, r.at)))
  }

  lemma {:induction false} NeverNegative(c: Config, reqs: seq<Request>, now: Moment)
    requires Served(c, reqs) && 0.0 <= c.capacity && Last(c, reqs).earned <= now.earned
    ensures 0.0 <= Tokens(c, reqs) && 0.0 <= Refilled(c, reqs, now)
  {
    if reqs != [] { NeverNegative(c, reqs[..|reqs| - 1], reqs[|reqs| - 1].at); }
  }

  /** Rate limit: from any window start to the latest request, no more than capacity + rate *
      elapsed was granted. */
  lemma WindowBound(c: Config, reqs: seq<Request>, w: nat)
    requires Served(c, reqs) && 0.0 <= c.capacity && w < |reqs| + 2
    ensures Taken(Within(reqs, w)) <= Bound(c, WindowStart(c, reqs, Last(c, reqs), w), Last(c, reqs))
  {
    var now := Last(c, reqs);
    NeverNegative(c, reqs, now);
    TokensAreLeastAllowance(c, reqs, now);
    assert 0.0 <= Allowances(c, reqs, now)[w];
  }

  lemma {:induction false} ServedPrefix(c: Config, reqs: seq<Request>, n: nat)
    requires Served(c, reqs) && n <= |reqs|
    ensures Served(c, reqs[..n])
  {
    if n < |reqs| {
      ServedPrefix(c, reqs[..|reqs| - 1], n);
      assert reqs[..|reqs| - 1][..n] == reqs[..n];
    } else {
      assert reqs[..n] == reqs;
    }
  }

  /** No window between any two requests exceeds capacity + rate * elapsed. */
  lemma NoWindowExceeds(c: Config, reqs: seq<Request>, from: nat, to: nat)
    requires Served(c, reqs) && 0.0 <= c.capacity && from <= to < |reqs|
    ensures Taken(reqs[from..to + 1]) <= Bound(c, reqs[from].at, reqs[to].at)
  {
    var upTo := reqs[..to + 1];
    ServedPrefix(c, reqs, to + 1);
    WindowBound(c, upTo, from + 1);
    assert Within(upTo, from + 1) == reqs[from..to + 1];
    assert WindowStart(c, upTo, Last(c, upTo), from + 1) == reqs[from].at && Last(c, upTo) == reqs[to].at;
  }

  // ---------------------------------------------------------------- the classes

  /** What recording one request does to the values the bucket keeps. */
  lemma Recorded(c: Config, reqs: seq<Request>, now: Moment, amount: real, granted: bool)
    requires granted == !(Refilled(c, reqs, now) < amount)
    ensures var taken := if granted then amount else 0.0;
            var longer := reqs + [Request(now, taken)];
            && Tokens(c, longer) == Refilled(c, reqs, now) - taken && Last(c, longer) == now
            && (Served(c, reqs) && 0.0 <= amount && Last(c, reqs).earned <= now.earned ==> Served(c, longer))
    ensures granted <==> Fits(amount, Allowances(c, reqs, now))
  {
    var r := Request(now, if granted then amount else 0.0);
    assert (reqs + [r])[..|reqs|] == reqs;
    GrantedIffItFits(c, reqs, now, amount);
  }

  lemma EarnedBetween(rate: real, last: real, now: real)
    ensures (now - last) * rate == At(rate, now).earned - At(rate, last).earned
    ensures 0.0 <= rate && last <= now ==> At(rate, last).earned <= At(rate, now).earned
  {
    if 0.0 <= rate && last <= now { assert 0.0 <= (now - last) * rate; }
  }

  /** The moments of these requests are readings of a clock at this rate. */
  ghost predicate Stamped(rate: real, reqs: seq<Request>) {
    forall k {:trigger reqs[k]} :: 0 <= k < |reqs| ==> reqs[k].at == At(rate, reqs[k].at.time)
  }

  lemma WindowInTime(c: Config, rate: real, reqs: seq<Request>, from: nat, to: nat)
    requires Served(c, reqs) && Stamped(rate, reqs) && 0.0 <= c.capacity && from <= to < |reqs|
    ensures Taken(reqs[from..to + 1]) <= Budget(c, rate, reqs[from].at.time, reqs[to].at.time)
  {
    NoWindowExceeds(c, reqs, from, to);
    BoundIsBudget(c, rate, reqs[from].at, reqs[to].at);
  }

  class TokenBucket {
    const rate: real
    const config: Config
    var tokens: real
    var lastRefill: real
    ghost var requests: seq<Request>

    ghost predicate Valid()
      reads this
    {
      && tokens == Tokens(config, requests) && At(rate, lastRefill) == Last(config, requests)
      && Stamped(rate, requests)
    }

    constructor (refillPerSecond: real, capacity: real, now: real)
      ensures Valid() && rate == refillPerSecond && config == Config(capacity, At(rate, now)) && requests == []
    {
      rate, config := refillPerSecond, Config(capacity, At(refillPerSecond, now));
      tokens, lastRefill, requests := capacity, now, [];
    }

    method Refill(now: real)
      requires Valid()
      modifies this`tokens, this`lastRefill
      ensures tokens == Refilled(config, requests, At(rate, now)) && lastRefill == now
    {
      EarnedBetween(rate, lastRefill, now);
      tokens := Least(config.capacity, tokens + (now - lastRefill) * rate);
      lastRefill := now;
    }

    /** Granted exactly when it breaks no window's bound; recorded either way. */
    method Consume(amount: real, now: real) returns (granted: bool)
      requires Valid()
      modifies this
      ensures Valid() && requests == old(requests) + [Request(At(rate, now), if granted then amount else 0.0)]
      ensures var s := Allowances(config, old(requests), At(rate, now));
              granted <==> forall w :: 0 <= w < |s| ==> amount <= s[w]
      ensures Served(config, old(requests)) && 0.0 <= amount
              && Last(config, old(requests)).earned <= At(rate, now).earned ==>
                Served(config, requests)
    {
      Refill(now);
      granted := !(tokens < amount);
      Recorded(config, requests, At(rate, now), amount, granted);
      requests := requests + [Request(At(rate, now), if granted then amount else 0.0)];
      if granted {
        tokens := tokens - amount;
      }
    }
  }

  /** The gateway's table of buckets, one per client id. */
  class RateLimiter {
    const rate: real
    const burst: real
    var buckets: map<string, TokenBucket>

    ghost predicate Valid()
      reads this, buckets.Values
    {
      && (forall id {:trigger buckets[id]} :: id in buckets ==> Ours(buckets[id]))
      && (forall a, b :: a in buckets && b in buckets && a != b ==> buckets[a] != buckets[b])
    }

    ghost predicate Ours(bucket: TokenBucket)
      reads bucket
    {
      bucket.Valid() && bucket.rate == rate && bucket.config.capacity == burst
    }

    /** What this client has asked for so far. */
    ghost function Requests(client: string): seq<Request>
      reads this, buckets.Values
    {
      if client in buckets then buckets[client].requests else []
    }

    constructor (rate: real, burst: real)
      ensures Valid() && Steady(0.0) && this.rate == rate && this.burst == burst && buckets == map[]
    {
      this.rate, this.burst, buckets := rate, burst, map[];
    }

    /** Every client's requests were made in order, the last of them by `now`. */
    ghost predicate Steady(now: real)
      reads this, buckets.Values
    {
      forall id {:trigger buckets[id]} :: id in buckets ==> InStep(buckets[id], now)
    }

    static ghost predicate InStep(bucket: TokenBucket, now: real)
      reads bucket
    {
      Served(bucket.config, bucket.requests) && bucket.lastRefill <= now
    }

    /** No client is ever granted more than burst + rate * elapsed between two of its requests. */
    lemma NoClientExceeds(now: real, client: string, from: nat, to: nat)
      requires Valid() && Steady(now) && 0.0 <= burst && from <= to < |Requests(client)|
      ensures var reqs := Requests(client);
              Taken(reqs[from..to + 1]) <= Budget(buckets[client].config, rate, reqs[from].at.time, reqs[to].at.time)
      ensures buckets[client].config.capacity == burst
    {
      var bucket := buckets[client];
      assert Ours(bucket) && InStep(bucket, now);
      WindowInTime(bucket.config, rate, bucket.requests, from, to);
    }

    /** try_emplace: the client has a bucket, and nobody has asked for more. */
    method AddBucket(client: string, now: real)
      requires Valid()
      modifies this
      ensures Valid() && buckets.Keys == old(buckets).Keys + {client} && fresh(buckets.Values - old(buckets.Values))
      ensures forall id :: id in old(buckets) ==> buckets[id] == old(buckets)[id]
      ensures client !in old(buckets) ==>
                buckets[client].requests == [] && buckets[client].config == Config(burst, At(rate, now))
      ensures old(Steady(now)) ==> Steady(now)
    {
      if client !in buckets {
        var bucket := new TokenBucket(rate, burst, now);
        buckets := buckets[client := bucket];
      }
    }

    method ConsumeOne(bucket: TokenBucket, now: real) returns (ok: bool)
      requires Ours(bucket)
      modifies bucket
      ensures Ours(bucket)
              && bucket.requests == old(bucket.requests) + [Request(At(rate, now), if ok then 1.0 else 0.0)]
      ensures ok <==> Fits(1.0, Allowances(bucket.config, old(bucket.requests), At(rate, now)))
      ensures 0.0 <= rate && old(InStep(bucket, now)) ==> InStep(bucket, now)
    {
      EarnedBetween(rate, bucket.lastRefill, now);
      ok := bucket.Consume(1.0, now);
    }

    /** The client's bucket grants a token or not; no other bucket is touched. */
    method Draw(client: string, now: real) returns (ok: bool)
      requires Valid() && client in buckets
      modifies buckets[client]
      ensures Valid()
      ensures var b := buckets[client];
              && b.requests == old(b.requests) + [Request(At(rate, now), if ok then 1.0 else 0.0)]
              && (ok <==> Fits(1.0, Allowances(b.config, old(b.requests), At(rate, now))))
      ensures 0.0 <= rate && old(Steady(now)) ==> Steady(now)
    {
      ok := ConsumeOne(buckets[client], now);
    }

    /** Consumes one token of the client's bucket: the decision depends on this client's requests
        alone, and no other client's record changes. */
    method Allowed(client: string, now: real) returns (ok: bool)
      requires Valid()
      modifies this, buckets.Values
      ensures Valid() && buckets.Keys == old(buckets).Keys + {client} && fresh(buckets.Values - old(buckets.Values))
      ensures client in buckets
      ensures var c, was := buckets[client].config, old(Requests(client));
              && (client !in old(buckets) ==> c == Config(burst, At(rate, now)))
              && (client in old(buckets) ==> c == old(buckets[client].config))
              && Requests(client) == was + [Request(At(rate, now), if ok then 1.0 else 0.0)]
              && (ok <==> Fits(1.0, Allowances(c, was, At(rate, now))))
      ensures forall other :: other != client ==> Requests(other) == old(Requests(other))
      ensures 0.0 <= rate && old(Steady(now)) ==> Steady(now)
    {
      AddBucket(client, now);
      ok := Draw(client, now);
    }
  }
}
