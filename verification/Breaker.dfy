/** CircuitBreaker (src/gateway.cpp:30-60) over a clock that does not run backwards. What it does
    is a function of the outcomes recorded so far, whatever allow_request was asked in between. */
module Breaker {

  datatype CircuitState = Closed | Open | HalfOpen

  datatype Outcome = Success | Failure(time: real)

  /** Failures recorded since the last success. */
  function Failures(outcomes: seq<Outcome>): nat {
    if outcomes == [] || outcomes[|outcomes| - 1].Success? then 0
    else Failures(outcomes[..|outcomes| - 1]) + 1
  }

  /** The run of failures that breaks the circuit: a threshold of 0 acts like one of 1. */
  function Limit(threshold: nat): nat {
    if threshold == 0 then 1 else threshold
  }

  /** Too many failures since the last success, the latest of them too recent. */
  predicate Refuses(threshold: nat, openDuration: real, outcomes: seq<Outcome>, now: real) {
    && Limit(threshold) <= Failures(outcomes)
    && now - outcomes[|outcomes| - 1].time < openDuration
  }

  /** n failures since the last success means: the last n outcomes are failures. */
  lemma {:induction false} FailuresAreTrailing(outcomes: seq<Outcome>, n: nat)
    ensures n <= Failures(outcomes) <==>
            n <= |outcomes| && forall i :: |outcomes| - n <= i < |outcomes| ==> outcomes[i].Failure?
  {
    if n != 0 && outcomes != [] {
      var front := outcomes[..|outcomes| - 1];
      FailuresAreTrailing(front, n - 1);
      assert forall i :: 0 <= i < |front| ==> front[i] == outcomes[i];
    }
  }

  /** Refusal in full: the last `threshold` outcomes are all failures, the latest of them too recent. */
  lemma RefusesMeans(threshold: nat, openDuration: real, outcomes: seq<Outcome>, now: real)
    ensures threshold >= 1 ==>
              (Refuses(threshold, openDuration, outcomes, now) <==>
                 && threshold <= |outcomes|
                 && (forall i :: |outcomes| - threshold <= i < |outcomes| ==> outcomes[i].Failure?)
                 && now - outcomes[|outcomes| - 1].time < openDuration)
    ensures Refuses(0, openDuration, outcomes, now) <==> Refuses(1, openDuration, outcomes, now)
  {
    FailuresAreTrailing(outcomes, threshold);
  }

  /** The gateway's breakers, three failures and five seconds. */
  lemma ThreeFailuresOpen(a: real, b: real, c: real, now: real)
    ensures Refuses(3, 5.0, [Failure(a), Failure(b), Failure(c)], now) <==> now < c + 5.0
    ensures !Refuses(3, 5.0, [Failure(a), Failure(b)], now)
    ensures !Refuses(3, 5.0, [Failure(a), Success, Failure(b), Failure(c)], now)
  {
    RefusesMeans(3, 5.0, [Failure(a), Failure(b), Failure(c)], now);
    RefusesMeans(3, 5.0, [Failure(a), Failure(b)], now);
    RefusesMeans(3, 5.0, [Failure(a), Success, Failure(b), Failure(c)], now);
    assert [Failure(a), Success, Failure(b), Failure(c)][1] == Success;
  }

  class CircuitBreaker {
    const threshold: nat
    const openDuration: real
    var state: CircuitState
    var consecutiveFailures: nat
    var openedAt: real
    ghost var outcomes: seq<Outcome>
    ghost var clock: real // the latest time the breaker has seen

    ghost predicate Valid()
      reads this
    {
      && consecutiveFailures == Failures(outcomes)
      && (state == Closed <==> Failures(outcomes) < Limit(threshold))
      && (state != Closed ==> openedAt == outcomes[|outcomes| - 1].time)
      && (state == HalfOpen ==> clock - openedAt >= openDuration)
    }

    constructor (threshold: nat, openDuration: real)
      ensures Valid() && outcomes == [] && clock == 0.0
      ensures this.threshold == threshold && this.openDuration == openDuration
    {
      this.threshold, this.openDuration := threshold, openDuration;
      state, consecutiveFailures, openedAt := Closed, 0, 0.0;
      outcomes, clock := [], 0.0;
    }

    /** Refuses exactly as the closed form says; leaves the circuit closed if it was. */
    method AllowRequest(now: real) returns (allowed: bool)
      requires Valid() && clock <= now
      modifies this
      ensures Valid() && clock == now && outcomes == old(outcomes)
      ensures state == if old(state) == Open && allowed then HalfOpen else old(state)
      ensures allowed <==> !Refuses(threshold, openDuration, outcomes, now)
      ensures threshold >= 1 ==>
                (!allowed <==>
                   && threshold <= |outcomes|
                   && (forall i :: |outcomes| - threshold <= i < |outcomes| ==> outcomes[i].Failure?)
                   && now - outcomes[|outcomes| - 1].time < openDuration)
    {
      RefusesMeans(threshold, openDuration, outcomes, now);
      clock := now;
      if state == Closed {
        return true;
      }
      if state == Open {
        var elapsed := now - openedAt;
        if elapsed >= openDuration {
          state := HalfOpen;
          return true;
        }
        return false;
      }
      return true;
    }

    method RecordSuccess()
      requires Valid()
      modifies this
      ensures Valid() && clock == old(clock) && outcomes == old(outcomes) + [Success]
      ensures state == Closed
    {
      consecutiveFailures := 0;
      state := Closed;
      outcomes := outcomes + [Success];
      assert Failures(outcomes) == 0;
    }

    method RecordFailure(now: real)
      requires Valid() && clock <= now
      modifies this
      ensures Valid() && clock == now && outcomes == old(outcomes) + [Failure(now)]
      ensures threshold >= 1 ==>
                (state == Closed <==>
                   !(&& threshold <= |outcomes|
                     && forall i :: |outcomes| - threshold <= i < |outcomes| ==> outcomes[i].Failure?))
      ensures state == Closed || (state == Open && openedAt == now)
    {
      FailuresAreTrailing(outcomes + [Failure(now)], threshold);
      assert (outcomes + [Failure(now)])[..|outcomes|] == outcomes;
      outcomes, clock := outcomes + [Failure(now)], now;
      consecutiveFailures := consecutiveFailures + 1;
      if state == HalfOpen || consecutiveFailures >= threshold {
        state := Open;
        openedAt := now;
      }
    }
  }
}
