/** Gateway::execute_with_resilience (src/gateway.cpp:218-256): the retry loop in front of the
    cluster, with other clients' calls running between its attempts. Times are parameters. */
module Gateways {
  import opened Log
  import opened Shards
  import opened Hashing
  import opened Breaker
  import opened Clusters
  import opened Partition

  /** What other requests do meanwhile: calls on the cluster, and dealings with the breakers. */
  datatype Traffic =
    | Client(operation: string, key: Bytes, value: Bytes)
    | Fail(shard: nat, id: string)
    | Recover(shard: nat, id: string)
    | Elect(shard: nat)
    | Asked(shard: nat, time: real)
    | Succeeded(shard: nat)
    | Failed(shard: nat, time: real)

  datatype Request = Request(operation: string, key: Bytes, value: Bytes)

  const GET := "GET"

  /** What a request writes: "GET" nothing, "PUT" the value; anything else erases. */
  function Written(operation: string, key: Bytes, value: Bytes): seq<Command> {
    if operation == GET then []
    else if operation == PUT then [Command(PUT, key, value)]
    else [Command(DELETE, key, [])]
  }

  function WrittenBy(t: Traffic): seq<Command> {
    if t.Client? then Written(t.operation, t.key, t.value) else []
  }

  function WrittenIn(traffic: seq<Traffic>): seq<Command> {
    if traffic == [] then [] else WrittenIn(traffic[..|traffic| - 1]) + WrittenBy(traffic[|traffic| - 1])
  }

  /** xs is ys with some elements left out. */
  predicate Sublist(xs: seq<Command>, ys: seq<Command>) {
    xs == [] ||
    (ys != [] &&
     (Sublist(xs, ys[..|ys| - 1]) || (xs[|xs| - 1] == ys[|ys| - 1] && Sublist(xs[..|xs| - 1], ys[..|ys| - 1]))))
  }

  lemma {:induction false} SublistReflexive(xs: seq<Command>)
    ensures Sublist(xs, xs)
  {
    if xs != [] { SublistReflexive(xs[..|xs| - 1]); }
  }

  lemma {:induction false} SublistConcat(a: seq<Command>, b: seq<Command>, x: seq<Command>, y: seq<Command>)
    requires Sublist(a, b) && Sublist(x, y)
    ensures Sublist(a + x, b + y)
    decreases |y|
  {
    if y == [] {
      assert a + x == a && b + y == b;
    } else {
      var front := y[..|y| - 1];
      assert (b + y)[..|b + y| - 1] == b + front;
      if Sublist(x, front) {
        SublistConcat(a, b, x, front);
      } else if x == [] {
        assert false;
      } else {
        SublistConcat(a, b, x[..|x| - 1], front);
        assert (a + x)[..|a + x| - 1] == a + x[..|x| - 1];
      }
    }
  }

  /** Round by round, some of what the others asked for in that round. */
  ghost predicate OthersOnly(rounds: seq<seq<Command>>, others: seq<seq<Traffic>>) {
    && |rounds| <= |others|
    && forall k {:trigger Sublist(rounds[k], WrittenIn(others[k]))} :: 0 <= k < |rounds| ==>
        Sublist(rounds[k], WrittenIn(others[k]))
  }

  lemma OneMoreRound(rounds: seq<seq<Command>>, others: seq<seq<Traffic>>, more: seq<Command>)
    requires OthersOnly(rounds, others) && |rounds| < |others| && Sublist(more, WrittenIn(others[|rounds|]))
    ensures OthersOnly(rounds + [more], others) && Flat(rounds + [more]) == Flat(rounds) + more
  {
    assert (rounds + [more])[..|rounds|] == rounds;
  }

  lemma Regroup(a: seq<Command>, b: seq<Command>, c: seq<Command>, d: seq<Command>)
    ensures a + b + c == a + (b + c) && a + b + c + d == a + (b + c) + d
  {
  }

  function ReportedBy(t: Traffic, shard: nat): seq<Outcome> {
    match t
    case Succeeded(i) => if i == shard then [Success] else []
    case Failed(i, time) => if i == shard then [Failure(time)] else []
    case _ => []
  }

  /** What other requests report to a shard's breaker. */
  function ReportedIn(traffic: seq<Traffic>, shard: nat): seq<Outcome> {
    if traffic == [] then []
    else ReportedIn(traffic[..|traffic| - 1], shard) + ReportedBy(traffic[|traffic| - 1], shard)
  }

  /** The outcomes of n failed attempts, each after what others reported. */
  function FailedAttempts(others: seq<seq<Traffic>>, times: seq<real>, shard: nat, n: nat): seq<Outcome>
    requires n <= |others| == |times|
  {
    if n == 0 then []
    else FailedAttempts(others, times, shard, n - 1) + (ReportedIn(others[n - 1], shard) + [Failure(times[n - 1])])
  }

  predicate Timed(t: Traffic) { t.Asked? || t.Failed? }

  /** The times in this traffic lie between these two, in order. */
  predicate Timely(traffic: seq<Traffic>, from: real, to: real) {
    if traffic == [] then from <= to
    else
      var front, t := traffic[..|traffic| - 1], traffic[|traffic| - 1];
      if Timed(t) then Timely(front, from, t.time) && t.time <= to else Timely(front, from, to)
  }

  lemma Regrouped(a: seq<Outcome>, b: seq<Outcome>, c: seq<Outcome>, d: seq<Outcome>)
    ensures a + b + c == a + (b + c) && a + b + c + d == a + (b + (c + d))
  {
  }

  /** When the attempt before attempt k was over. */
  function Before(times: seq<real>, asked: real, k: nat): real
    requires k <= |times|
  {
    if k == 0 then asked else times[k - 1]
  }

  /** Attempt k is over at times[k]; others[k] happens since the attempt before it. */
  predicate InOrder(others: seq<seq<Traffic>>, times: seq<real>, asked: real) {
    |others| == |times| && InOrderUpTo(others, times, asked, |times|)
  }

  predicate InOrderUpTo(others: seq<seq<Traffic>>, times: seq<real>, asked: real, n: nat)
    requires n <= |others| == |times|
  {
    n == 0 || (InOrderUpTo(others, times, asked, n - 1)
        && Timely(others[n - 1], Before(times, asked, n - 1), times[n - 1]))
  }

  lemma {:induction false} InOrderAt(others: seq<seq<Traffic>>, times: seq<real>, asked: real, n: nat, k: nat)
    requires k < n <= |others| == |times| && InOrderUpTo(others, times, asked, n)
    ensures Timely(others[k], Before(times, asked, k), times[k])
  {
    if k < n - 1 { InOrderAt(others, times, asked, n - 1, k); }
  }

  /** What an answer below 500 means, by the name of the operation: a "PUT" answered 201 is the last
      command of the log and its value is there; a "GET" says what the map says; anything else is
      answered 200, is the last command, and the key is gone. */
  predicate Fulfilled(operation: string, key: Bytes, value: Bytes, result: OperationResult, log: seq<Command>) {
    && (operation == "PUT" ==>
          && result.status == 201 && log != [] && log[|log| - 1] == Command("PUT", key, value)
          && key in MapOf(log) && MapOf(log)[key] == value)
    && (operation == "GET" ==>
          && (result.status == 200 || result.status == 404)
          && (result.status == 200 ==> key in MapOf(log) && MapOf(log)[key] == result.value)
          && (result.status == 404 ==> key !in MapOf(log)))
    && (operation != "PUT" && operation != "GET" ==>
          && result.status == 200 && log != [] && log[|log| - 1] == Command("DELETE", key, [])
          && key !in MapOf(log))
  }

  /** A get writes nothing, a "PUT" its value, anything else the deletion. */
  lemma WrittenMeans(operation: string, key: Bytes, value: Bytes)
    ensures Written("GET", key, value) == []
    ensures Written("PUT", key, value) == [Command("PUT", key, value)]
    ensures operation != "PUT" && operation != "GET" ==> Written(operation, key, value) == [Command("DELETE", key, [])]
  {
  }

  class Gateway {
    const cluster: Cluster
    const breakers: seq<CircuitBreaker>
    const maxRetries: nat

    ghost predicate Apart() {
      && (forall i, j :: 0 <= i < j < |breakers| ==> breakers[i] != breakers[j])
      && (forall i {:trigger breakers[i]} :: 0 <= i < |breakers| ==> breakers[i] as object !in cluster.repr)
    }

    /** The breakers are sound and have seen nothing later than `now`. */
    ghost predicate Watching(now: real)
      reads breakers
    {
      forall i {:trigger breakers[i]} :: 0 <= i < |breakers| ==> breakers[i].Valid() && breakers[i].clock <= now
    }

    ghost predicate Valid(now: real)
      reads cluster, cluster.repr, breakers
    {
      cluster.Valid() && Apart() && |breakers| == |cluster.shards| && Watching(now)
    }

    /** One breaker per shard: three failures open it, for five seconds. */
    static method NewBreakers(n: nat) returns (breakers: seq<CircuitBreaker>)
      ensures |breakers| == n && fresh(breakers)
      ensures forall i {:trigger breakers[i]} :: 0 <= i < n ==> NewBreaker(breakers[i])
      ensures forall i, j :: 0 <= i < j < n ==> breakers[i] != breakers[j]
    {
      breakers := [];
      while |breakers| < n
        invariant |breakers| <= n && fresh(breakers)
        invariant forall i {:trigger breakers[i]} :: 0 <= i < |breakers| ==> NewBreaker(breakers[i])
        invariant forall i, j :: 0 <= i < j < |breakers| ==> breakers[i] != breakers[j]
        decreases n - |breakers|
      {
        var breaker := new CircuitBreaker(3, 5.0);
        breakers := breakers + [breaker];
      }
    }

    static ghost predicate NewBreaker(b: CircuitBreaker)
      reads b
    {
      b.Valid() && b.outcomes == [] && b.clock == 0.0 && b.threshold == 3 && b.openDuration == 5.0
    }

    constructor (cluster: Cluster, maxRetries: nat)
      requires cluster.Valid()
      ensures Valid(0.0) && this.cluster == cluster && this.maxRetries == maxRetries
      ensures forall i {:trigger breakers[i]} :: 0 <= i < |breakers| ==> NewBreaker(breakers[i])
    {
      var parts := NewBreakers(|cluster.shards|);
      this.cluster, this.maxRetries, breakers := cluster, maxRetries, parts;
    }

    // ---------------------------------------------------------------- calls on the cluster

    /** The cluster's log went from `was` to this by storing exactly these; only told of a cluster
        whose shards are all settled. */
    ghost predicate Logged(was: seq<Command>, stored: seq<Command>)
      reads cluster
    {
      cluster.exact ==> cluster.log == was + stored
    }

    /** One attempt at the request. */
    method Attempt(operation: string, key: Bytes, value: Bytes) returns (result: OperationResult)
      requires cluster.Valid()
      modifies cluster`log, cluster.repr
      ensures cluster.Valid() && (result.status < 500 || result.status == 503)
      ensures Logged(old(cluster.log), if result.status < 500 then Written(operation, key, value) else [])
      ensures result.status < 500 ==> Fulfilled(operation, key, value, result, cluster.log)
    {
      ghost var was := cluster.log;
      if operation == GET {
        result := cluster.Get(key);
      } else if operation == PUT {
        result := cluster.Put(key, value);
      } else {
        result := cluster.Erase(key);
      }
      assert was + [] == was;
    }

    method OtherCall(t: Traffic) returns (ghost kept: seq<Command>)
      requires cluster.Valid()
      modifies cluster`log, cluster.repr
      ensures cluster.Valid() && Logged(old(cluster.log), kept) && Sublist(kept, WrittenBy(t))
    {
      kept := [];
      assert cluster.log + [] == cluster.log;
      match t
      case Client(operation, key, value) =>
        var result := Attempt(operation, key, value);
        kept := if result.status < 500 then Written(operation, key, value) else [];
        SublistReflexive(Written(operation, key, value));
      case Fail(shard, id) => var _ := cluster.FailReplica(shard, id);
      case Recover(shard, id) => var _ := cluster.RecoverReplica(shard, id);
      case Elect(shard) => var _ := cluster.Elect(shard);
      case _ =>
    }

    // ---------------------------------------------------------------- dealings with the breakers

    method OtherReport(t: Traffic, ghost before: real, ghost now: real)
      requires Apart() && Watching(before) && before <= now && (Timed(t) ==> before == t.time)
      modifies breakers
      ensures Watching(now)
      ensures forall i {:trigger breakers[i]} :: 0 <= i < |breakers| ==>
                breakers[i].outcomes == old(breakers[i].outcomes) + ReportedBy(t, i)
    {
      match t
      case Asked(shard, time) => if shard < |breakers| { var _ := breakers[shard].AllowRequest(time); }
      case Succeeded(shard) => if shard < |breakers| { breakers[shard].RecordSuccess(); }
      case Failed(shard, time) => if shard < |breakers| { breakers[shard].RecordFailure(time); }
      case _ =>
    }

    /** Everything other requests do in one gap. */
    method Others(traffic: seq<Traffic>, ghost from: real, ghost to: real) returns (ghost kept: seq<Command>)
      requires Valid(from) && Timely(traffic, from, to)
      modifies cluster`log, cluster.repr, breakers
      ensures Valid(to) && Logged(old(cluster.log), kept) && Sublist(kept, WrittenIn(traffic))
      ensures forall i {:trigger breakers[i]} :: 0 <= i < |breakers| ==>
                breakers[i].outcomes == old(breakers[i].outcomes) + ReportedIn(traffic, i)
    {
      if traffic == [] {
        kept := [];
        assert cluster.log + [] == cluster.log;
        assert forall i :: 0 <= i < |breakers| ==> breakers[i].outcomes + [] == breakers[i].outcomes;
        return;
      }
      var front, t := traffic[..|traffic| - 1], traffic[|traffic| - 1];
      ghost var mid := if Timed(t) then t.time else to;
      ghost var before := Others(front, from, mid);
      ghost var more := Other(t, mid, to);
      SublistConcat(before, WrittenIn(front), more, WrittenBy(t));
      Regroup(old(cluster.log), before, more, []);
      forall i | 0 <= i < |breakers|
        ensures breakers[i].outcomes == old(breakers[i].outcomes) + ReportedIn(traffic, i)
      {
        Regrouped(old(breakers[i].outcomes), ReportedIn(front, i), ReportedBy(t, i), []);
      }
      kept := before + more;
    }

    method Other(t: Traffic, ghost before: real, ghost now: real) returns (ghost kept: seq<Command>)
      requires Valid(before) && before <= now && (Timed(t) ==> before == t.time)
      modifies cluster`log, cluster.repr, breakers
      ensures Valid(now) && Logged(old(cluster.log), kept) && Sublist(kept, WrittenBy(t))
      ensures forall i {:trigger breakers[i]} :: 0 <= i < |breakers| ==>
                breakers[i].outcomes == old(breakers[i].outcomes) + ReportedBy(t, i)
    {
      kept := OtherCall(t);
      OtherReport(t, before, now);
    }

    // ---------------------------------------------------------------- the retry loop

    /** Other requests, then one attempt, whose outcome goes to the breaker. */
    method Try(operation: string, key: Bytes, value: Bytes, shard: nat, traffic: seq<Traffic>, ghost from: real,
               now: real)
      returns (result: OperationResult, ghost kept: seq<Command>)
      requires Valid(from) && shard < |breakers| && Timely(traffic, from, now)
      modifies cluster`log, cluster.repr, breakers
      ensures Valid(now) && (result.status < 500 || result.status == 503) && Sublist(kept, WrittenIn(traffic))
      ensures breakers[shard].outcomes
           == old(breakers[shard].outcomes) + ReportedIn(traffic, shard)
               + [if result.status < 500 then Success else Failure(now)]
      ensures result.status < 500 ==> Logged(old(cluster.log) + kept, Written(operation, key, value))
      ensures result.status == 503 ==> Logged(old(cluster.log), kept)
      ensures result.status < 500 ==> Fulfilled(operation, key, value, result, cluster.log)
    {
      kept := Others(traffic, from, now);
      result := Attempt(operation, key, value);
      Report(shard, result.status < 500, now);
    }

    method Report(shard: nat, ok: bool, now: real)
      requires Apart() && Watching(now) && shard < |breakers|
      modifies breakers[shard]
      ensures Watching(now)
      ensures breakers[shard].outcomes == old(breakers[shard].outcomes) + [if ok then Success else Failure(now)]
    {
      if ok {
        breakers[shard].RecordSuccess();
      } else {
        breakers[shard].RecordFailure(now);
      }
    }

    method Admit(shard: nat, now: real) returns (allowed: bool)
      requires Apart() && Watching(now) && shard < |breakers|
      modifies breakers[shard]
      ensures Watching(now) && breakers[shard].outcomes == old(breakers[shard].outcomes)
      ensures var b := breakers[shard]; allowed <==> !Refuses(b.threshold, b.openDuration, b.outcomes, now)
    {
      allowed := breakers[shard].AllowRequest(now);
    }

    /** n attempts have failed since the log and the shard's breaker were at these values: what was
        logged is other clients', and the breaker has one failure for each. */
    ghost predicate FailedSoFar(shard: nat, log: seq<Command>, outcomes: seq<Outcome>, n: nat,
                                rounds: seq<seq<Command>>, others: seq<seq<Traffic>>, times: seq<real>)
      reads cluster, breakers
    {
      && shard < |breakers| && n <= |times| == |others| && |rounds| == n && OthersOnly(rounds, others)
      && Logged(log, Flat(rounds)) && breakers[shard].outcomes == outcomes + FailedAttempts(others, times, shard, n)
    }

    /** Attempt n was answered below 500, after n - 1 that failed: what was logged is other clients',
        and at its end, once, what this request writes; the breaker has a success after the failures. */
    ghost predicate Answered(request: Request, result: OperationResult, shard: nat, log: seq<Command>,
                             outcomes: seq<Outcome>, n: nat,
                             rounds: seq<seq<Command>>, others: seq<seq<Traffic>>, times: seq<real>)
      reads cluster, breakers
    {
      && result.status < 500 && shard < |breakers| && 1 <= n <= |times| == |others| && |rounds| == n
          && OthersOnly(rounds, others)
      && Logged(log + Flat(rounds), Written(request.operation, request.key, request.value))
      && breakers[shard].outcomes
         == outcomes + FailedAttempts(others, times, shard, n - 1) + ReportedIn(others[n - 1], shard) + [Success]
      && Fulfilled(request.operation, request.key, request.value, result, cluster.log)
    }

    /** Attempt n + 1, after n that failed. */
    method TryNext(request: Request, shard: nat, others: seq<seq<Traffic>>, times: seq<real>, n: nat, ghost asked: real,
                   ghost log: seq<Command>, ghost outcomes: seq<Outcome>, ghost before: seq<seq<Command>>)
      returns (result: OperationResult, ghost rounds: seq<seq<Command>>)
      requires n < |others| && InOrder(others, times, asked) && Valid(Before(times, asked, n))
      requires FailedSoFar(shard, log, outcomes, n, before, others, times)
      modifies cluster`log, cluster.repr, breakers
      ensures Valid(Before(times, asked, n + 1)) && (result.status < 500 || result.status == 503)
      ensures result.status < 500 ==> Answered(request, result, shard, log, outcomes, n + 1, rounds, others, times)
      ensures result.status == 503 ==> FailedSoFar(shard, log, outcomes, n + 1, rounds, others, times)
    {
      InOrderAt(others, times, asked, |times|, n);
      ghost var more;
      result, more := Try(request.operation, request.key, request.value, shard, others[n], Before(times, asked, n),
          times[n]);
      OneMoreRound(before, others, more);
      Regrouped(outcomes, FailedAttempts(others, times, shard, n), ReportedIn(others[n], shard), [Failure(times[n])]);
      Regroup(log, Flat(before), more, Written(request.operation, request.key, request.value));
      rounds := before + [more];
    }

    /** The attempts: at most maxRetries + 1, stopping at the first answer below 500. */
    method Retry(request: Request, shard: nat, others: seq<seq<Traffic>>, times: seq<real>, ghost asked: real)
      returns (result: OperationResult, attempts: nat, ghost rounds: seq<seq<Command>>)
      requires Valid(asked) && shard < |breakers| && |times| == maxRetries + 1 && InOrder(others, times, asked)
      modifies cluster`log, cluster.repr, breakers
      ensures 1 <= attempts <= maxRetries + 1 && Valid(Before(times, asked, attempts))
      ensures result.status < 500 || (result.status == 503 && attempts == maxRetries + 1)
      ensures result.status < 500 ==>
                Answered(request, result, shard, old(cluster.log), old(breakers[shard].outcomes), attempts, rounds,
                    others, times)
      ensures result.status == 503 ==>
                FailedSoFar(shard, old(cluster.log), old(breakers[shard].outcomes), attempts, rounds, others, times)
    {
      ghost var log, outcomes := cluster.log, breakers[shard].outcomes;
      assert FailedSoFar(shard, log, outcomes, 0, [], others, times)
          by { assert log + [] == log && outcomes + [] == outcomes; }
      result := OperationResult(false, 500, [], "");
      attempts, rounds := 0, [];
      while attempts <= maxRetries
        invariant attempts <= maxRetries + 1 && Valid(Before(times, asked, attempts))
        invariant FailedSoFar(shard, log, outcomes, attempts, rounds, others, times)
        invariant attempts == 0 || result.status == 503
      {
        result, rounds := TryNext(request, shard, others, times, attempts, asked, log, outcomes, rounds);
        attempts := attempts + 1;
        if result.status < 500 {
          return;
        }
      }
    }

    /** execute_with_resilience. Turned away by an open circuit, a request does nothing. Otherwise a
        write is in the log exactly once, as its last command, if it is answered below 500, and not
        at all if it is answered 503; the rest of what was logged meanwhile is other clients'. The
        breaker gets one outcome for each attempt, among those other requests report. */
    method Execute(request: Request, asked: real, others: seq<seq<Traffic>>, times: seq<real>)
      returns (result: OperationResult, attempts: nat, ghost rounds: seq<seq<Command>>)
      requires Valid(asked) && |times| == maxRetries + 1 && InOrder(others, times, asked)
      modifies cluster`log, cluster.repr, breakers
      ensures attempts <= maxRetries + 1 && Valid(Before(times, asked, attempts))
      ensures result.status < 500 || result.status == 503
      ensures request.operation == "PUT" && result.status < 500 ==>
                && result.status == 201 && cluster.log != []
                && cluster.log[|cluster.log| - 1] == Command("PUT", request.key, request.value)
                && request.key in MapOf(cluster.log) && MapOf(cluster.log)[request.key] == request.value
      ensures request.operation == "DELETE" && result.status < 500 ==>
                result.status == 200 && request.key !in MapOf(cluster.log)
      ensures request.operation == "GET" && result.status < 500 && cluster.exact ==>
                cluster.log == old(cluster.log) + Flat(rounds)
      ensures var b := breakers[ShardOf(request.key, |breakers|)];
              attempts == 0 <==> Refuses(b.threshold, b.openDuration, old(b.outcomes), asked)
      ensures result.status < 500 ==>
                Answered(request, result, ShardOf(request.key, |breakers|), old(cluster.log),
                         old(breakers[ShardOf(request.key, |breakers|)].outcomes), attempts, rounds, others, times)
      ensures result.status == 503 ==>
                && (attempts == 0 || attempts == maxRetries + 1)
                && FailedSoFar(ShardOf(request.key, |breakers|), old(cluster.log),
                               old(breakers[ShardOf(request.key, |breakers|)].outcomes), attempts, rounds,
                               others, times)
    {
      var shard := cluster.ShardForKey(request.key);
      var allowed := Admit(shard, asked);
      if !allowed {
        assert cluster.log + [] == cluster.log && breakers[shard].outcomes + [] == breakers[shard].outcomes;
        return OperationResult(false, 503, [], ""), 0, [];
      }
      result, attempts, rounds := Retry(request, shard, others, times, asked);
      assert old(cluster.log) + Flat(rounds) + [] == old(cluster.log) + Flat(rounds);
    }
  }
}
