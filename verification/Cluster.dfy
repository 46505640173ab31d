/** Cluster (src/cluster.cpp:300-335): shards over separate databases, each key served by the shard
    its hash names. The ghost field `log` lists every stored command in the order of the cluster's
    calls; the map it builds is what the cluster shows its clients. */
module Clusters {
  import opened Log
  import opened Protocol
  import opened Store
  import opened Raft
  import opened Safety
  import opened Runs
  import opened SingleReplica
  import opened Provenance
  import opened Shards
  import opened Hashing
  import opened Partition

  /** A shard whose writes store themselves only: two replicas or more, or no tail left by a stop. */
  ghost predicate Settled(reps: seq<Replica>) {
    |reps| >= 2 || NoTails(reps)
  }

  /** The commands on keys of shard i. */
  function AtHome(log: seq<Command>, n: nat, i: nat): seq<Command>
    requires n > 0
  {
    if log == [] then []
    else
      var c := log[|log| - 1];
      AtHome(log[..|log| - 1], n, i) + if ShardOf(c.key, n) == i then [c] else []
  }

  /** Shard i's history is the cluster's log restricted to its keys. */
  ghost predicate Serves(H: seq<Entry>, log: seq<Command>, n: nat, i: nat)
    requires n > 0
  {
    Commands(H) == AtHome(log, n, i)
  }

  lemma {:induction false} AtHomeMore(log: seq<Command>, more: seq<Command>, n: nat, home: nat, i: nat)
    requires n > 0 && Home(more, n, home)
    ensures AtHome(log + more, n, i) == if home == i then AtHome(log, n, i) + more else AtHome(log, n, i)
  {
    if more == [] {
      assert log + more == log && AtHome(log, n, i) + more == AtHome(log, n, i);
    } else {
      var front, c := more[..|more| - 1], more[|more| - 1];
      AtHomeMore(log, front, n, home, i);
      assert (log + more)[..|log + more| - 1] == log + front && (log + more)[|log + more| - 1] == c;
      assert front + [c] == more && AtHome(log, n, i) + (front + [c]) == AtHome(log, n, i) + front + [c];
    }
  }

  lemma LateAtHome(reps: seq<Replica>, n: nat, i: nat, c: Command)
    requires n > 0 && AllFrom(reps, Homes(n, i)) && ShardOf(c.key, n) == i
    ensures Home(LateCommands(reps) + [c], n, i)
  {
    var late := LateCommands(reps);
    forall k | 0 <= k < |late| ensures ShardOf(late[k].key, n) == i {
      var e := reps[0].log[reps[0].commit + k];
      assert late[k] == e.command && e.command in Homes(n, i);
    }
  }

  /** Hence the shard's table is its part of the one map: the parts are disjoint, and together they
      are the whole of it. */
  lemma {:induction false} TableIsPart(log: seq<Command>, n: nat, i: nat)
    requires n > 0
    ensures MapOf(AtHome(log, n, i)) == Part(MapOf(log), n, i)
  {
    if log == [] {
      PartOfNothing(n, i);
    } else {
      var front, c := log[..|log| - 1], log[|log| - 1];
      TableIsPart(front, n, i);
      PartOfApply(MapOf(front), c, n, i);
      MapOne(AtHome(front, n, i), c);
      assert AtHome(front, n, i) + [] == AtHome(front, n, i);
    }
  }

  lemma ShardTells(H: seq<Entry>, log: seq<Command>, n: nat, key: Bytes)
    requires n > 0 && Serves(H, log, n, ShardOf(key, n))
    ensures Lookup(Replay(H), key) == Lookup(MapOf(log), key)
  {
    ReplayIsMap(H);
    TableIsPart(log, n, ShardOf(key, n));
  }

  /** Commands of shard i's keys only, and settled if so asked. */
  ghost predicate Homely(reps: seq<Replica>, asked: iset<Command>, exact: bool) {
    AllFrom(reps, asked) && (exact ==> Settled(reps))
  }

  /** What an earlier process, or none, left in one shard's databases, and its history. */
  datatype Left = Left(disks: seq<Disk>, hist: seq<Entry>)

  ghost predicate Openable(stores: seq<SqliteStore>, left: Left, asked: iset<Command>, exact: bool)
    reads set store | store in stores
  {
    && 1 <= |stores| && OnDisk(stores, left.disks) && CrashSafe(ReplicasOf(left.disks), left.hist)
    && Homely(ReplicasOf(left.disks), asked, exact)
  }

  lemma OpenedHomely(ids: seq<string>, disks: seq<Replica>, after: ShardState, asked: iset<Command>, exact: bool)
    requires |ids| == |disks| && Homely(disks, asked, exact) && (NoTails(disks) ==> NoTails(after.reps))
    requires after == After(Loaded(ids, disks), EnsureLeader(Loaded(ids, disks)))
    ensures Homely(after.reps, asked, exact)
  {
    EnsureFrom(Loaded(ids, disks), asked);
  }

  class Cluster {
    const shards: seq<Shard>
    ghost const repr: set<object>
    ghost const exact: bool // every shard is settled
    ghost var log: seq<Command>

    ghost function Footprint(i: nat): set<object>
      requires i < |shards|
    {
      Owned(shards[i])
    }

    /** The shards share nothing, and everything they own is in repr. */
    ghost predicate Apart() {
      && (forall i: nat, j: nat {:trigger Footprint(i), Footprint(j)} :: i < j < |shards| ==>
          Footprint(i) !! Footprint(j))
      && (forall i: nat {:trigger Footprint(i)} :: i < |shards| ==> Footprint(i) <= repr)
      && this !in repr
    }

    ghost predicate Good(i: nat)
      requires i < |shards|
      reads Footprint(i)
    {
      shards[i].Valid() && Homely(shards[i].reps, Homes(|shards|, i), exact)
    }

    ghost predicate Valid()
      reads this, repr
    {
      && shards != [] && Apart()
      && (forall i: nat {:trigger Served(i, log)} :: i < |shards| ==> Served(i, log))
    }

    static ghost predicate Opened(shard: Shard, H: seq<Entry>, asked: iset<Command>, exact: bool)
      reads shard, shard.nodes
    {
      shard.Valid() && Homely(shard.reps, asked, exact) && shard.hist == H
    }

    static ghost function Owned(shard: Shard): set<object> { {shard} + shard.nodes }

    static lemma NoClusterInside(shard: Shard)
      requires forall o :: o in shard.nodes ==> o is RaftReplica || o is SqliteStore
      ensures forall o :: o in Owned(shard) ==> !(o is Cluster)
    {
      forall o | o in Owned(shard) ensures !(o is Cluster) {
        assert o is Shard || o is RaftReplica || o is SqliteStore;
      }
    }

    static method OpenHomely(i: nat, stores: seq<SqliteStore>, ghost left: Left, ghost asked: iset<Command>,
                             ghost exact: bool)
      returns (shard: Shard)
      requires Openable(stores, left, asked, exact)
      modifies set store | store in stores
      ensures fresh(shard) && Opened(shard, left.hist, asked, exact)
      ensures forall o :: o in shard.nodes ==> fresh(o) || o in Databases(stores)
      ensures forall o :: o in shard.nodes ==> o is RaftReplica || o is SqliteStore
    {
      ghost var disks := ReplicasOf(left.disks);
      shard := new Shard(i, stores, left.disks, left.hist);
      assert Homely(shard.State().reps, asked, exact) by {
        OpenedHomely(shard.Ids(), disks, shard.State(), asked, exact);
      }
    }

    static method OpenShard(i: nat, stores: seq<SqliteStore>, ghost left: Left, ghost asked: iset<Command>,
                            ghost exact: bool)
      returns (shard: Shard)
      requires Openable(stores, left, asked, exact)
      modifies set store | store in stores
      ensures fresh(shard) && Opened(shard, left.hist, asked, exact)
      ensures forall o :: o in Owned(shard) ==> fresh(o) || o in Databases(stores)
      ensures forall o :: o in Owned(shard) ==> !(o is Cluster)
    {
      shard := OpenHomely(i, stores, left, asked, exact);
      NoClusterInside(shard);
    }

    /** Everything these shards own is here, and no cluster. */
    static ghost predicate Holds(objects: set<object>, shards: seq<Shard>) {
      && (forall i {:trigger shards[i]} :: 0 <= i < |shards| ==> Owned(shards[i]) <= objects)
      && (forall o :: o in objects ==> !(o is Cluster))
    }

    static lemma HoldsMore(objects: set<object>, shards: seq<Shard>, shard: Shard)
      requires Holds(objects, shards) && forall o :: o in Owned(shard) ==> !(o is Cluster)
      ensures Holds(objects + Owned(shard), shards + [shard])
    {
    }

    /** The first shards are open and own nothing of each other or of the databases still to open. */
    static ghost predicate Progress(shards: seq<Shard>, stores: seq<seq<SqliteStore>>) {
      && |shards| <= |stores|
      && (forall i, j :: 0 <= i < j < |shards| ==> Owned(shards[i]) !! Owned(shards[j]))
      && (forall i, j :: 0 <= i < |shards| <= j < |stores| ==> Owned(shards[i]) !! Databases(stores[j]))
      && (forall i, j :: |shards| <= i < j < |stores| ==> Databases(stores[i]) !! Databases(stores[j]))
    }

    static method OpenApart(shards: seq<Shard>, stores: seq<seq<SqliteStore>>, ghost left: Left,
                            ghost asked: iset<Command>, ghost exact: bool, ghost objects: set<object>)
      returns (shard: Shard)
      requires |shards| < |stores| && Progress(shards, stores) && Holds(objects, shards)
               && Openable(stores[|shards|], left, asked, exact)
      modifies set store | store in stores[|shards|]
      ensures fresh(shard) && Opened(shard, left.hist, asked, exact) && Progress(shards + [shard], stores)
      ensures forall o :: o in Owned(shard) ==> !(o is Cluster)
    {
      shard := OpenShard(|shards|, stores[|shards|], left, asked, exact);
      forall i, o | 0 <= i < |shards| && o in Owned(shard) ensures o !in Owned(shards[i]) {
        assert Owned(shards[i]) <= objects && Owned(shards[i]) !! Databases(stores[|shards|]);
        assert o in objects ==> !fresh(o);
      }
      forall j, o | |shards| < j < |stores| && o in Owned(shard) ensures o !in Databases(stores[j]) {
        assert Databases(stores[|shards|]) !! Databases(stores[j]);
        assert o in Databases(stores[j]) ==> !fresh(o);
      }
    }

    /** The first shards are open, the other databases as they were left. */
    static ghost predicate OpenedSoFar(shards: seq<Shard>, stores: seq<seq<SqliteStore>>, left: seq<Left>, exact: bool)
      reads set shard | shard in shards
      reads set shard, o | shard in shards && o in shard.nodes :: o
      reads set i, store | 0 <= i < |stores| && store in stores[i] :: store
    {
      && |shards| <= |stores| == |left| && stores != []
      && (forall k: nat {:trigger shards[k]} :: k < |shards| ==>
          Opened(shards[k], left[k].hist, Homes(|stores|, k), exact))
      && (forall k: nat {:trigger stores[k]} :: |shards| <= k < |stores| ==>
          Openable(stores[k], left[k], Homes(|stores|, k), exact))
    }

    /** Opens shard |shards|; the open ones and the databases still to come are as they were. */
    static method OpenNext(shards: seq<Shard>, stores: seq<seq<SqliteStore>>, ghost left: seq<Left>, ghost exact: bool,
                           ghost objects: set<object>) returns (shard: Shard)
      requires Holds(objects, shards) && |shards| < |stores| && Progress(shards, stores)
               && OpenedSoFar(shards, stores, left, exact)
      modifies set store | store in stores[|shards|]
      ensures fresh(shard) && Progress(shards + [shard], stores) && OpenedSoFar(shards + [shard], stores, left, exact)
      ensures forall o :: o in Owned(shard) ==> !(o is Cluster)
    {
      var i, n := |shards|, |stores|;
      shard := OpenApart(shards, stores, left[i], Homes(n, i), exact, objects);
      forall k: nat | k < i ensures Opened(shards[k], left[k].hist, Homes(n, k), exact) {
        assert old(Opened(shards[k], left[k].hist, Homes(n, k), exact)) && Owned(shards[k]) !! Databases(stores[i]);
      }
      forall k: nat | i < k < n ensures Openable(stores[k], left[k], Homes(n, k), exact) {
        assert old(Openable(stores[k], left[k], Homes(n, k), exact)) && Databases(stores[i]) !! Databases(stores[k]);
        assert forall store :: store in stores[k] ==> store as object in Databases(stores[k]);
      }
    }

    static method OpenShards(stores: seq<seq<SqliteStore>>, ghost left: seq<Left>, ghost exact: bool)
      returns (shards: seq<Shard>, ghost objects: set<object>)
      requires OpenedSoFar([], stores, left, exact) && Progress([], stores)
      modifies set i, store | 0 <= i < |stores| && store in stores[i] :: store
      ensures |shards| == |stores| && Progress(shards, stores) && Holds(objects, shards)
      ensures OpenedSoFar(shards, stores, left, exact)
    {
      shards, objects := [], {};
      while |shards| < |stores|
        invariant Progress(shards, stores) && Holds(objects, shards) && OpenedSoFar(shards, stores, left, exact)
        decreases |stores| - |shards|
      {
        var shard := OpenNext(shards, stores, left, exact, objects);
        HoldsMore(objects, shards, shard);
        shards, objects := shards + [shard], objects + Owned(shard);
      }
    }

    /** Opens every shard over what its databases hold. The histories must be the parts of one log:
        empty databases are, and so is whatever an earlier cluster left. */
    constructor (stores: seq<seq<SqliteStore>>, ghost left: seq<Left>, ghost commands: seq<Command>, ghost exact: bool)
      requires OpenedSoFar([], stores, left, exact) && Progress([], stores)
      requires forall i {:trigger left[i]} :: 0 <= i < |stores| ==> Serves(left[i].hist, commands, |stores|, i)
      modifies set i, store | 0 <= i < |stores| && store in stores[i] :: store
      ensures Valid() && |shards| == |stores| && log == commands && this.exact == exact
    {
      var parts: seq<Shard>;
      ghost var objects: set<object>;
      parts, objects := OpenShards(stores, left, exact);
      shards := parts;
      this.exact, log, repr := exact, commands, objects;
      new;
      assert Apart();
      forall i: nat | i < |shards| ensures Served(i, log) {
        assert Opened(shards[i], left[i].hist, Homes(|shards|, i), exact);
      }
    }

    /** The C++ constructor throws for no shards, or for shards of no replicas. */
    static method Create(stores: seq<seq<SqliteStore>>, replicasPerShard: nat, ghost left: seq<Left>,
                         ghost commands: seq<Command>,
                         ghost exact: bool) returns (cluster: Option<Cluster>)
      requires forall i :: 0 <= i < |stores| ==> |stores[i]| == replicasPerShard
      requires stores != [] && replicasPerShard >= 1 ==>
                 && OpenedSoFar([], stores, left, exact) && Progress([], stores)
                 && forall i {:trigger left[i]} :: 0 <= i < |stores| ==> Serves(left[i].hist, commands, |stores|, i)
      modifies set i, store | 0 <= i < |stores| && store in stores[i] :: store
      ensures cluster.None? <==> stores == [] || replicasPerShard < 1
      ensures cluster.Some? ==>
                cluster.value.Valid() && cluster.value.log == commands && |cluster.value.shards| == |stores|
    {
      if |stores| < 1 || replicasPerShard < 1 {
        return None;
      }
      var made := new Cluster(stores, left, commands, exact);
      return Some(made);
    }

    /** Shard i stopped between two of its calls, with history H. */
    ghost predicate Stopped(i: nat, H: seq<Entry>)
      requires i < |shards|
      reads Footprint(i)
    {
      && shards[i].Linked() && 1 <= |shards[i].replicas| && CrashSafe(shards[i].reps, H)
      && Homely(shards[i].reps, Homes(|shards|, i), exact)
    }

    ghost function Files(): (stores: seq<seq<SqliteStore>>)
      ensures |stores| == |shards|
    {
      seq(|shards|, i requires 0 <= i < |shards| => shards[i].Files())
    }

    lemma FilesOwned(i: nat)
      requires i < |shards| && shards[i].Linked()
      ensures Databases(Files()[i]) <= Footprint(i)
    {
      forall o | o in Databases(Files()[i]) ensures o in Footprint(i) {
        var k :| 0 <= k < |shards[i].replicas| && o == shards[i].replicas[k].store;
        shards[i].StoresAt(k);
      }
    }

    lemma StopLeavesShard(i: nat, left: Left)
      requires i < |shards| && Stopped(i, left.hist) && left.disks == Shard.DisksOf(shards[i].reps)
      ensures Openable(shards[i].Files(), left, Homes(|shards|, i), exact)
    {
      shards[i].StopLeavesDisks(left.hist);
    }

    /** Stopped anywhere, a cluster leaves databases that the constructor opens. */
    lemma StopLeavesFiles(left: seq<Left>)
      requires shards != [] && Apart() && |left| == |shards|
      requires forall i: nat {:trigger left[i]} :: i < |shards| ==>
                 Stopped(i, left[i].hist) && left[i].disks == Shard.DisksOf(shards[i].reps)
      ensures OpenedSoFar([], Files(), left, exact) && Progress([], Files())
    {
      forall i: nat | i < |shards| ensures Openable(Files()[i], left[i], Homes(|shards|, i), exact) {
        StopLeavesShard(i, left[i]);
      }
      forall i: nat, j: nat | i < j < |shards| ensures Databases(Files()[i]) !! Databases(Files()[j]) {
        assert Stopped(i, left[i].hist) && Stopped(j, left[j].hist);
        FilesOwned(i);
        FilesOwned(j);
        assert Footprint(i) !! Footprint(j);
      }
    }

    /** shard_for_key */
    method ShardForKey(key: Bytes) returns (i: nat)
      requires shards != []
      ensures i < |shards| && i == ShardOf(key, |shards|)
      ensures exists q: int :: HashFrom(START, key) == q * |shards| + i
    {
      var hash := Fnv1a64(key);
      i := hash % |shards|;
    }

    /** No stop has left a tail on any replica of the shard. */
    ghost predicate Tailless(i: nat)
      requires i < |shards|
      reads Footprint(i)
    {
      NoTails(shards[i].reps)
    }

    ghost predicate Majority(i: nat)
      requires i < |shards|
      reads Footprint(i)
    {
      2 * |OnlineSet(shards[i].reps)| > |shards[i].replicas|
    }

    /** The shard can answer reads: it has a leader or can elect one. */
    ghost predicate Reachable(i: nat)
      requires i < |shards|
      reads Footprint(i)
    {
      |shards[i].reps| == |shards[i].replicas|
          && (CurrentLeader(shards[i].State()) >= 0 || 2 * |OnlineSet(shards[i].reps)| > |shards[i].replicas|)
    }

    ghost predicate Served(j: nat, log: seq<Command>)
      requires j < |shards|
      reads Footprint(j)
    {
      Good(j) && Serves(shards[j].hist, log, |shards|, j)
    }

    /** Shard i has stored `more`; the others serve their parts as before. */
    ghost method Record(i: nat, more: seq<Command>)
      requires i < |shards| && Apart() && Home(more, |shards|, i) && Served(i, log + more)
      requires forall j: nat {:trigger Served(j, log)} :: j < |shards| && j != i ==> Served(j, log)
      modifies this`log
      ensures Valid() && log == old(log) + more
    {
      forall j: nat | j < |shards| && j != i ensures Served(j, log + more) {
        assert Served(j, log);
        AtHomeMore(log, more, |shards|, i, j);
      }
      log := log + more;
    }

    /** What shard i, if it has one replica only, would store together with its next write. */
    ghost function Pending(i: nat): seq<Command>
      requires i < |shards|
      reads Footprint(i)
    {
      LateCommands(shards[i].reps)
    }

    /** What storing c did to shard i, in values. */
    lemma Stored(s: ShardState, c: Command, after: ShardState, H: seq<Entry>, longer: seq<Entry>, log: seq<Command>,
                 i: nat, stored: bool)
      requires i < |shards| && |s.ids| == |s.reps| && Homely(s.reps, Homes(|shards|, i), exact)
               && ShardOf(c.key, |shards|) == i
      requires Known(c) && after == After(s, Write(s, c)) && (NoTails(s.reps) ==> NoTails(after.reps))
      requires if stored then Commands(longer) == Commands(H) + LateCommands(s.reps) + [c] else longer == H
      requires Serves(H, log, |shards|, i)
      ensures Homely(after.reps, Homes(|shards|, i), exact)
      ensures Serves(longer, log + (if stored then LateCommands(s.reps) + [c] else []), |shards|, i)
    {
      WriteBrings(s, c, Homes(|shards|, i));
      RunFrom(s.reps, Write(s, c).calls, Homes(|shards|, i));
      LateAtHome(s.reps, |shards|, i, c);
      var more := if stored then LateCommands(s.reps) + [c] else [];
      AtHomeMore(log, more, |shards|, i, i);
      assert stored ==> Commands(H) + LateCommands(s.reps) + [c] == Commands(H) + more;
      assert Commands(H) + [] == Commands(H);
    }

    method PutOn(i: nat, key: Bytes, value: Bytes) returns (result: OperationResult)
      requires i < |shards| && Served(i, log) && ShardOf(key, |shards|) == i
      modifies Footprint(i)
      ensures Served(i, old(log) + if result.status == 201 then old(Pending(i)) + [Command(PUT, key, value)] else [])
      ensures Home(old(Pending(i)) + [Command(PUT, key, value)], |shards|, i) && (exact ==> old(Pending(i)) == [])
      ensures result.status == 201 || result.status == 503
      ensures old(Tailless(i)) ==> (result.status == 201 <==> old(Majority(i)))
    {
      ghost var s, c, commands, H := shards[i].State(), Command(PUT, key, value), log, shards[i].hist;
      LateAtHome(s.reps, |shards|, i, c);
      if exact { SettledHasNoneLate(s.reps); }
      result := shards[i].Put(key, value);
      Stored(s, c, shards[i].State(), H, shards[i].hist, commands, i, result.status == 201);
    }

    method EraseOn(i: nat, key: Bytes) returns (result: OperationResult)
      requires i < |shards| && Served(i, log) && ShardOf(key, |shards|) == i
      modifies Footprint(i)
      ensures Served(i, old(log) + if result.status == 200 then old(Pending(i)) + [Command(DELETE, key, [])] else [])
      ensures Home(old(Pending(i)) + [Command(DELETE, key, [])], |shards|, i) && (exact ==> old(Pending(i)) == [])
      ensures result.status == 200 || result.status == 503
      ensures old(Tailless(i)) ==> (result.status == 200 <==> old(Majority(i)))
    {
      ghost var s, c, commands, H := shards[i].State(), Command(DELETE, key, []), log, shards[i].hist;
      LateAtHome(s.reps, |shards|, i, c);
      if exact { SettledHasNoneLate(s.reps); }
      result := shards[i].Erase(key);
      Stored(s, c, shards[i].State(), H, shards[i].hist, commands, i, result.status == 200);
    }

    /** Stored means the one log took the command as its last, after whatever a lone replica with a
        tail still had to commit; refused means it did not change. Only the key's own shard is touched. */
    method Put(key: Bytes, value: Bytes) returns (result: OperationResult)
      requires Valid()
      modifies this`log, Footprint(ShardOf(key, |shards|))
      ensures Valid() && (result.status == 201 || result.status == 503)
      ensures result.status == 201 ==>
                log == old(log) + (old(Pending(ShardOf(key, |shards|))) + [Command(PUT, key, value)])
      ensures result.status == 201 ==> key in MapOf(log) && MapOf(log)[key] == value
      ensures result.status == 503 ==> log == old(log)
      ensures exact ==> old(Pending(ShardOf(key, |shards|))) == []
      ensures old(Tailless(ShardOf(key, |shards|))) ==>
                (result.status == 201 <==> old(Majority(ShardOf(key, |shards|))))
    {
      var i := ShardForKey(key);
      assert Served(i, log);
      ghost var late := Pending(i);
      result := PutOn(i, key, value);
      forall j: nat | j < |shards| && j != i ensures Served(j, log) { assert old(Served(j, log)); }
      Record(i, if result.status == 201 then late + [Command(PUT, key, value)] else []);
      if result.status == 201 { LastCommandDecides(log, key); }
    }

    method Erase(key: Bytes) returns (result: OperationResult)
      requires Valid()
      modifies this`log, Footprint(ShardOf(key, |shards|))
      ensures Valid() && (result.status == 200 || result.status == 503)
      ensures result.status == 200 ==>
                log == old(log) + (old(Pending(ShardOf(key, |shards|))) + [Command(DELETE, key, [])])
      ensures result.status == 200 ==> key !in MapOf(log)
      ensures result.status == 503 ==> log == old(log)
      ensures exact ==> old(Pending(ShardOf(key, |shards|))) == []
      ensures old(Tailless(ShardOf(key, |shards|))) ==>
                (result.status == 200 <==> old(Majority(ShardOf(key, |shards|))))
    {
      var i := ShardForKey(key);
      assert Served(i, log);
      ghost var late := Pending(i);
      result := EraseOn(i, key);
      forall j: nat | j < |shards| && j != i ensures Served(j, log) { assert old(Served(j, log)); }
      Record(i, if result.status == 200 then late + [Command(DELETE, key, [])] else []);
      if result.status == 200 { LastCommandDecides(log, key); }
    }

    /** Answers from the one map; refused exactly when the key's shard has neither a leader nor a
        majority online, whatever the state of the other shards. */
    method Get(key: Bytes) returns (result: OperationResult)
      requires Valid()
      modifies Footprint(ShardOf(key, |shards|))
      ensures Valid() && log == old(log)
      ensures ReadAnswer(result, key, MapOf(log))
      ensures result.status == 503 <==> !old(Reachable(ShardOf(key, |shards|)))
    {
      var i := ShardForKey(key);
      assert Served(i, log);
      ShardTells(shards[i].hist, log, |shards|, key);
      result := GetOn(i, key);
      forall j: nat | j < |shards| && j != i ensures Served(j, log) { assert old(Served(j, log)); }
    }

    method GetOn(i: nat, key: Bytes) returns (result: OperationResult)
      requires i < |shards| && Good(i)
      modifies Footprint(i)
      ensures Good(i) && shards[i].hist == old(shards[i].hist)
      ensures ReadAnswer(result, key, Replay(shards[i].hist))
      ensures result.status == 503 <==> !old(Reachable(i))
    {
      ghost var s := shards[i].State();
      result := shards[i].Get(key);
      assert AllFrom(shards[i].State().reps, Homes(|shards|, i)) by { PlanBrings(s, Op.Get(key), Homes(|shards|, i)); }
    }

    method FailReplica(shardId: nat, id: string) returns (ok: bool)
      requires Valid()
      modifies if shardId < |shards| then Footprint(shardId) else {}
      ensures Valid() && log == old(log) && ok == (shardId < |shards| && id in shards[shardId].Ids())
    {
      if shardId >= |shards| {
        return false;
      }
      assert Served(shardId, log);
      ok := FailOn(shardId, id);
      forall j: nat | j < |shards| && j != shardId ensures Served(j, log) { assert old(Served(j, log)); }
    }

    method RecoverReplica(shardId: nat, id: string) returns (ok: bool)
      requires Valid()
      modifies if shardId < |shards| then Footprint(shardId) else {}
      ensures Valid() && log == old(log) && ok == (shardId < |shards| && id in shards[shardId].Ids())
    {
      if shardId >= |shards| {
        return false;
      }
      assert Served(shardId, log);
      ok := RecoverOn(shardId, id);
      forall j: nat | j < |shards| && j != shardId ensures Served(j, log) { assert old(Served(j, log)); }
    }

    method Elect(shardId: nat) returns (ok: bool)
      requires Valid()
      modifies if shardId < |shards| then Footprint(shardId) else {}
      ensures Valid() && log == old(log)
      ensures ok <==> shardId < |shards| && old(Reachable(shardId))
    {
      if shardId >= |shards| {
        return false;
      }
      assert Served(shardId, log);
      ok := ElectOn(shardId);
      forall j: nat | j < |shards| && j != shardId ensures Served(j, log) { assert old(Served(j, log)); }
    }

    method FailOn(i: nat, id: string) returns (ok: bool)
      requires i < |shards| && Good(i)
      modifies Footprint(i)
      ensures Good(i) && shards[i].hist == old(shards[i].hist) && ok == (id in shards[i].Ids())
    {
      ghost var s := shards[i].State();
      ok := shards[i].FailReplica(id);
      assert AllFrom(shards[i].State().reps, Homes(|shards|, i)) by { PlanBrings(s, Op.Fail(id), Homes(|shards|, i)); }
    }

    method RecoverOn(i: nat, id: string) returns (ok: bool)
      requires i < |shards| && Good(i)
      modifies Footprint(i)
      ensures Good(i) && shards[i].hist == old(shards[i].hist) && ok == (id in shards[i].Ids())
    {
      ghost var s := shards[i].State();
      ok := shards[i].RecoverReplica(id);
      RecoverFrom(s, id, shards[i].State(), Homes(|shards|, i));
    }

    method ElectOn(i: nat) returns (ok: bool)
      requires i < |shards| && Good(i)
      modifies Footprint(i)
      ensures Good(i) && shards[i].hist == old(shards[i].hist) && (ok <==> old(Reachable(i)))
    {
      ghost var s := shards[i].State();
      ok := shards[i].ElectLeader();
      assert AllFrom(shards[i].State().reps, Homes(|shards|, i)) by { EnsureFrom(s, Homes(|shards|, i)); }
    }
  }
}
