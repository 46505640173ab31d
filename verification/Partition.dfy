/** The cluster as one map split over shards (src/cluster.cpp:313-335): any interleaving of the
    shards' runs, each operation on a key going to the shard its hash names. */
module Partition {
  import opened Log
  import opened Protocol
  import opened Safety
  import opened Runs
  import opened Theorems
  import opened SingleReplica
  import opened Provenance
  import opened Hashing

  /** Step `step` of shard `shard`. */
  datatype Event = Event(shard: nat, step: Step)

  predicate OnKey(op: Op) { op.Put? || op.Erase? || op.Get? }

  /** Operations on keys go where shard_for_key says. */
  predicate Routed(e: Event, n: nat)
    requires n > 0
  {
    e.shard < n && ((e.step.Do? || e.step.StopIn?) && OnKey(e.step.op) ==> ShardOf(e.step.op.key, n) == e.shard)
  }

  ghost predicate AllRouted(events: seq<Event>, n: nat)
    requires n > 0
  {
    forall k :: 0 <= k < |events| ==> Routed(events[k], n)
  }

  /** One shard's part of an interleaved run. */
  function StepsOf(events: seq<Event>, i: nat): seq<Step> {
    if events == [] then []
    else
      var e := events[|events| - 1];
      StepsOf(events[..|events| - 1], i) + (if e.shard == i then [e.step] else [])
  }

  predicate Inside(names: seq<seq<string>>, events: seq<Event>) {
    forall k :: 0 <= k < |events| ==> events[k].shard < |names|
  }

  /** What event k made its shard keep; shard i's replicas are names[i]. */
  function AddedBy(names: seq<seq<string>>, events: seq<Event>, k: nat): seq<Command>
    requires Inside(names, events) && k < |events|
  {
    var e := events[k];
    Appended(StateAfter(names[e.shard], StepsOf(events[..k], e.shard)), e.step)
  }

  function Adds(names: seq<seq<string>>, events: seq<Event>): (adds: seq<seq<Command>>)
    requires Inside(names, events)
    ensures |adds| == |events|
  {
    seq(|events|, k requires 0 <= k < |events| => AddedBy(names, events, k))
  }

  function Flat(adds: seq<seq<Command>>): seq<Command> {
    if adds == [] then [] else Flat(adds[..|adds| - 1]) + adds[|adds| - 1]
  }

  /** The commands all shards kept, in the order of the whole run. */
  function AllKept(names: seq<seq<string>>, events: seq<Event>): seq<Command>
    requires Inside(names, events)
  {
    Flat(Adds(names, events))
  }

  function AllAcknowledged(names: seq<seq<string>>, events: seq<Event>): seq<Command>
    requires Inside(names, events)
  {
    if events == [] then []
    else
      var front, e := events[..|events| - 1], events[|events| - 1];
      AllAcknowledged(names, front)
      + (if AnswerTo(StateAfter(names[e.shard], StepsOf(front, e.shard)), e.step) == Stored
            && e.step.Do? && IsWrite(e.step.op)
         then [CommandOf(e.step.op)] else [])
  }

  // ---------------------------------------------------------------- tables split by hash

  /** The part of a table that belongs to shard i. */
  function Part(t: Table, n: nat, i: nat): (part: Table)
    requires n > 0
    ensures forall key :: key in part <==> key in t && ShardOf(key, n) == i
    ensures forall key :: key in part ==> part[key] == t[key]
  {
    map key | key in t && ShardOf(key, n) == i :: t[key]
  }

  /** A command changes its own shard's part as it changes the whole, and no other part. */
  lemma PartOfApply(t: Table, c: Command, n: nat, i: nat)
    requires n > 0
    ensures Part(Apply(t, c), n, i) == if ShardOf(c.key, n) == i then Apply(Part(t, n, i), c) else Part(t, n, i)
  {
  }

  lemma PartOfNothing(n: nat, i: nat)
    requires n > 0
    ensures Part(MapOf([]), n, i) == MapOf([])
  {
  }

  lemma PartOfMore(cs: seq<Command>, more: seq<Command>, n: nat, home: nat, i: nat, part: seq<Command>)
    requires n > 0 && Part(MapOf(cs), n, i) == MapOf(part) && OneAtHome(more, n, home)
    ensures Part(MapOf(cs + more), n, i) == MapOf(if home == i then part + more else part)
  {
    if more == [] {
      assert cs + more == cs && part + more == part;
    } else {
      assert more == [more[0]];
      MapOne(cs, more[0]);
      MapOne(part, more[0]);
      PartOfApply(MapOf(cs), more[0], n, i);
    }
  }

  lemma StepsOfOne(events: seq<Event>, i: nat)
    requires events != []
    ensures var front, e := events[..|events| - 1], events[|events| - 1];
            StepsOf(events, i) == if e.shard == i then StepsOf(front, i) + [e.step] else StepsOf(front, i)
  {
  }

  lemma KeptOne(ids: seq<string>, steps: seq<Step>, step: Step)
    ensures Kept(ids, steps + [step]) == Kept(ids, steps) + Appended(StateAfter(ids, steps), step)
  {
    assert (steps + [step])[..|steps|] == steps;
  }

  ghost predicate Home(cs: seq<Command>, n: nat, i: nat)
    requires n > 0
  {
    forall k :: 0 <= k < |cs| ==> ShardOf(cs[k].key, n) == i
  }

  /** Nothing, or one command on a key of shard i. */
  predicate OneAtHome(more: seq<Command>, n: nat, i: nat)
    requires n > 0
  {
    more == [] || (|more| == 1 && ShardOf(more[0].key, n) == i)
  }

  lemma AppendedAtHome(sys: System, e: Event, n: nat)
    requires WellShaped(sys) && n > 0 && Routed(e, n)
    ensures OneAtHome(Appended(sys, e.step), n, e.shard)
  {
  }

  function FlatAt(adds: seq<seq<Command>>, events: seq<Event>, i: nat): seq<Command>
    requires |adds| == |events|
  {
    if adds == [] then []
    else
      var last := |adds| - 1;
      FlatAt(adds[..last], events[..last], i) + (if events[last].shard == i then adds[last] else [])
  }

  /** Each event adds at most one command, on a key of its own shard. */
  lemma AddsAtHome(names: seq<seq<string>>, events: seq<Event>, k: nat)
    requires names != [] && AllRouted(events, |names|) && k < |events|
    ensures OneAtHome(AddedBy(names, events, k), |names|, events[k].shard)
  {
    var e := events[k];
    AppendedAtHome(StateAfter(names[e.shard], StepsOf(events[..k], e.shard)), e, |names|);
  }

  lemma AddsFront(names: seq<seq<string>>, events: seq<Event>)
    requires Inside(names, events) && events != []
    ensures Adds(names, events)[..|events| - 1] == Adds(names, events[..|events| - 1])
  {
    var front := events[..|events| - 1];
    forall k: nat | k < |front| ensures AddedBy(names, events, k) == AddedBy(names, front, k) {
      assert events[..k] == front[..k];
    }
  }

  /** Shard i keeps what its own events added. */
  lemma {:induction false} KeptIsOwn(names: seq<seq<string>>, events: seq<Event>, i: nat)
    requires i < |names| && Inside(names, events)
    ensures Kept(names[i], StepsOf(events, i)) == FlatAt(Adds(names, events), events, i)
  {
    if events != [] {
      var front, e := events[..|events| - 1], events[|events| - 1];
      KeptIsOwn(names, front, i);
      StepsOfOne(events, i);
      if e.shard == i { KeptOne(names[i], StepsOf(front, i), e.step); }
      AddsFront(names, events);
    }
  }

  lemma {:induction false} PartOfFlat(adds: seq<seq<Command>>, events: seq<Event>, n: nat, i: nat)
    requires n > 0 && |adds| == |events| && forall k :: 0 <= k < |adds| ==> OneAtHome(adds[k], n, events[k].shard)
    ensures Part(MapOf(Flat(adds)), n, i) == MapOf(FlatAt(adds, events, i))
  {
    if adds == [] {
      PartOfNothing(n, i);
    } else {
      var last := |adds| - 1;
      PartOfFlat(adds[..last], events[..last], n, i);
      var part := FlatAt(adds[..last], events[..last], i);
      PartOfMore(Flat(adds[..last]), adds[last], n, events[last].shard, i, part);
      assert part + [] == part;
    }
  }

  /** Partition: what shard i keeps is shard i's part of what the cluster keeps, in every
      interleaved run. Hence shards hold disjoint keys, each hashing to its shard, and their union
      is the one map all the commands build. */
  lemma ShardKeepsItsPart(names: seq<seq<string>>, events: seq<Event>, i: nat)
    requires i < |names| && AllRouted(events, |names|)
    ensures Part(MapOf(AllKept(names, events)), |names|, i) == MapOf(Kept(names[i], StepsOf(events, i)))
  {
    forall k: nat | k < |events| ensures OneAtHome(AddedBy(names, events, k), |names|, events[k].shard) {
      AddsAtHome(names, events, k);
    }
    KeptIsOwn(names, events, i);
    PartOfFlat(Adds(names, events), events, |names|, i);
  }

  // ---------------------------------------------------------------- the cluster refines one map

  /** Replica names of every shard: distinct within it, and at least one. */
  ghost predicate Named(names: seq<seq<string>>) {
    names != [] && forall i :: 0 <= i < |names| ==> names[i] != [] && Distinct(names[i])
  }

  ghost predicate CleanFor(events: seq<Event>) {
    forall k :: 0 <= k < |events| ==> Clean(events[k].step)
  }

  lemma KeptAnswers(ids: seq<string>, steps: seq<Step>, key: Bytes)
    requires Distinct(ids) && ids != [] && NothingLate(ids, steps)
    ensures var sys := StateAfter(ids, steps);
            sys.Up? && Read(sys.s, key) != Unavailable ==>
              Read(sys.s, key) == AnswerFor(Lookup(MapOf(Kept(ids, steps)), key))
  {
    RunSafe(ids, steps);
    RunIsExact(ids, steps);
    ReplayIsMap(History(ids, steps));
    var sys := StateAfter(ids, steps);
    if sys.Up? { ReadAgrees(sys.s, History(ids, steps), key); }
  }

  /** A key's shard answers from the one global map, whatever happens in the other shards, if no
      write of a lone replica in the key's own shard started over a tail. */
  lemma ClusterRefinesMap(names: seq<seq<string>>, events: seq<Event>, key: Bytes)
    requires Named(names) && AllRouted(events, |names|)
    requires var i := ShardOf(key, |names|); NothingLate(names[i], StepsOf(events, i))
    ensures var i := ShardOf(key, |names|);
            var sys := StateAfter(names[i], StepsOf(events, i));
            sys.Up? && Read(sys.s, key) != Unavailable ==>
              Read(sys.s, key) == AnswerFor(Lookup(MapOf(AllKept(names, events)), key))
  {
    var i := ShardOf(key, |names|);
    ShardKeepsItsPart(names, events, i);
    KeptAnswers(names[i], StepsOf(events, i), key);
  }

  lemma CleanAppends(sys: System, step: Step)
    requires WellShaped(sys) && Clean(step)
    ensures Appended(sys, step)
         == if AnswerTo(sys, step) == Stored && step.Do? && IsWrite(step.op) then [CommandOf(step.op)] else []
  {
  }

  /** With stops between operations only, the one map is that of the acknowledged writes. */
  lemma {:induction false} CleanClusterKeepsAcknowledged(names: seq<seq<string>>, events: seq<Event>)
    requires Named(names) && AllRouted(events, |names|) && CleanFor(events)
    ensures AllKept(names, events) == AllAcknowledged(names, events)
  {
    if events != [] {
      var front, e := events[..|events| - 1], events[|events| - 1];
      CleanClusterKeepsAcknowledged(names, front);
      AddsFront(names, events);
      CleanAppends(StateAfter(names[e.shard], StepsOf(front, e.shard)), e.step);
    }
  }

  lemma {:induction false} RoutedSteps(events: seq<Event>, n: nat, i: nat)
    requires n > 0 && AllRouted(events, n)
    ensures forall k :: 0 <= k < |StepsOf(events, i)| ==> Routed(Event(i, StepsOf(events, i)[k]), n)
  {
    if events != [] {
      var front, e := events[..|events| - 1], events[|events| - 1];
      RoutedSteps(front, n, i);
      StepsOfOne(events, i);
      assert Routed(e, n);
      if e.shard == i {
        assert e == Event(i, e.step);
        assert StepsOf(events, i)[..|StepsOf(front, i)|] == StepsOf(front, i);
      }
    }
  }

  lemma {:induction false} KeyWasWritten(log: seq<Entry>, key: Bytes) returns (k: nat)
    requires key in Replay(log)
    ensures k < |log| && log[k].command.key == key
  {
    var last := |log| - 1;
    if log[last].command.key == key {
      k := last;
    } else {
      k := KeyWasWritten(log[..last], key);
    }
  }

  /** Commands on keys of shard i. */
  ghost function Homes(n: nat, i: nat): iset<Command>
    requires n > 0
  {
    iset c: Command | ShardOf(c.key, n) == i
  }

  lemma RoutedAsks(e: Event, n: nat)
    requires n > 0 && Routed(e, n)
    ensures Asks(e.step, Homes(n, e.shard))
  {
  }

  /** In every run, stops anywhere included, whatever is in any log of a shard hashes to it. */
  lemma ShardLogsAtHome(names: seq<seq<string>>, events: seq<Event>, i: nat)
    requires i < |names| && AllRouted(events, |names|)
    ensures AllFrom(Replicas(StateAfter(names[i], StepsOf(events, i))), Homes(|names|, i))
  {
    var n, steps := |names|, StepsOf(events, i);
    RoutedSteps(events, n, i);
    forall k | 0 <= k < |steps| ensures Asks(steps[k], Homes(n, i)) {
      RoutedAsks(Event(i, steps[k]), n);
    }
    NothingInvented(names[i], steps, Homes(n, i));
  }

  /** Whatever any replica of a shard has applied, its keys hash to that shard. */
  lemma ReplicaKeysHashHome(names: seq<seq<string>>, events: seq<Event>, i: nat, r: Replica, key: Bytes)
    requires Named(names) && AllRouted(events, |names|) && i < |names|
    requires r in Replicas(StateAfter(names[i], StepsOf(events, i))) && key in r.kv
    ensures ShardOf(key, |names|) == i
  {
    RunSafe(names[i], StepsOf(events, i));
    ShardLogsAtHome(names, events, i);
    AppliedAtHome(StateAfter(names[i], StepsOf(events, i)), History(names[i], StepsOf(events, i)), |names|, i, r, key);
  }

  lemma AppliedAtHome(sys: System, H: seq<Entry>, n: nat, i: nat, r: Replica, key: Bytes)
    requires SystemSafe(sys, H) && n > 0 && AllFrom(Replicas(sys), Homes(n, i)) && r in Replicas(sys) && key in r.kv
    ensures ShardOf(key, n) == i
  {
    var j :| 0 <= j < |Replicas(sys)| && Replicas(sys)[j] == r;
    assert ReplicaSafe(Replicas(sys)[j], H);
    assert r.kv == Replay(r.log[..r.commit]);
    var k := KeyWasWritten(r.log[..r.commit], key);
    assert r.log[k].command in Homes(n, i);
  }
}
