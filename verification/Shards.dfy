/** Shard (src/cluster.cpp): the object that drives its replicas. Ghost fields follow it: `reps`
    is what the replicas store, `calls` every mutating replica call so far in order, `hist` the
    committed history. Each method is proved to make exactly the calls of its plan. */
module Shards {
  import opened Log
  import opened Protocol
  import opened Tables
  import opened Mirror
  import opened Store
  import opened Raft
  import opened Safety
  import opened Election
  import opened Writes
  import opened Operations
  import opened Runs
  import opened SingleReplica
  import opened Names

  datatype OperationResult = OperationResult(ok: bool, status: int, value: Bytes, leader: string)

  lemma RunSnoc(reps: seq<Replica>, calls: seq<Call>, c: Call)
    ensures Run(reps, calls + [c]) == Exec(Run(reps, calls), c)
  {
    assert (calls + [c])[..|calls|] == calls;
  }

  lemma Assoc(a: seq<Call>, b: seq<Call>, c: seq<Call>)
    ensures a + b + c == a + (b + c)
  {
  }

  /** What a database holds: a replica, its last-applied mark, and how far its table really is. */
  datatype Disk = Disk(replica: Replica, applied: nat, ahead: nat)

  ghost predicate Holding(store: SqliteStore, d: Disk)
    reads store
  {
    store.Keyed() && Recoverable(store.kv, store.log, store.meta, d.replica, d.applied, d.ahead)
  }

  ghost predicate OnDisk(stores: seq<SqliteStore>, disks: seq<Disk>)
    reads set store | store in stores
  {
    && |stores| == |disks|
    && (forall i, j :: 0 <= i < j < |stores| ==> stores[i] != stores[j])
    && (forall i :: 0 <= i < |stores| ==> Holding(stores[i], disks[i]))
  }

  ghost function Databases(stores: seq<SqliteStore>): set<object> {
    set store | store in stores :: store as object
  }

  function ReplicasOf(disks: seq<Disk>): seq<Replica> {
    seq(|disks|, i requires 0 <= i < |disks| => disks[i].replica)
  }

  /** A new database is recoverable, as the empty replica. */
  lemma EmptyIsRecoverable()
    ensures Recoverable(map[], map[], map[], FRESH, 0, 0)
  {
    assert TableOf([]) == map[];
  }

  /** 200 with the key's value, 404 where there is none, or 503. */
  predicate ReadAnswer(result: OperationResult, key: Bytes, t: Table) {
    && (result.status == 200 || result.status == 404 || result.status == 503)
    && result.ok == (result.status == 200)
    && (result.status == 200 ==> key in t && result.value == t[key])
    && (result.status == 404 ==> key !in t)
  }

  class Shard {
    const replicas: seq<RaftReplica>
    ghost const nodes: set<object> // the replicas and their databases
    var leaderId: string
    ghost var reps: seq<Replica>
    ghost var calls: seq<Call>
    ghost var hist: seq<Entry>

    ghost function Ids(): (ids: seq<string>)
      ensures |ids| == |replicas|
    {
      seq(|replicas|, i requires 0 <= i < |replicas| => replicas[i].id)
    }

    ghost function State(): ShardState
      reads this`reps, this`leaderId
    {
      ShardState(Ids(), reps, leaderId)
    }

    /** The replicas are separate objects over separate databases. */
    ghost predicate Separate() {
      && this !in nodes
      && (forall i {:trigger replicas[i]} :: 0 <= i < |replicas| ==> replicas[i] in nodes && replicas[i].store in nodes)
      && (forall i, j :: 0 <= i < j < |replicas| ==>
          replicas[i] != replicas[j] && replicas[i].store != replicas[j].store)
    }

    /** reps is what the replicas store. */
    ghost predicate Linked()
      reads this`reps, nodes
    {
      && Separate() && |reps| == |replicas|
      && (forall i {:trigger Stores(replicas[i], reps[i])} :: 0 <= i < |replicas| ==> Stores(replicas[i], reps[i]))
    }

    static ghost predicate Stores(node: RaftReplica, r: Replica)
      reads node, node.store
    {
      node.Valid() && Mirrors(node.State(), r)
    }

    lemma StoresAt(i: nat)
      requires Linked() && i < |replicas|
      ensures Stores(replicas[i], reps[i])
      ensures replicas[i] in nodes && replicas[i].store in nodes
    {
    }

    ghost predicate Valid()
      reads this, nodes
    {
      Linked() && Between(State(), hist)
    }

    // ---------------------------------------------------------------- construction

    static method OpenReplica(id: string, store: SqliteStore, ghost d: Disk) returns (node: RaftReplica)
      requires Holding(store, d)
      modifies store
      ensures fresh(node) && node.store == store && node.id == id && Stores(node, Reload(d.replica))
    {
      LoadMirrors(store.kv, store.log, store.meta, d.replica, d.applied, d.ahead);
      node := new RaftReplica(id, store);
    }

    /** Node i is open over database i. */
    static ghost predicate Opened(node: RaftReplica, store: SqliteStore, id: string, d: Disk)
      reads node, node.store
    {
      node.store == store && node.id == id && Stores(node, Reload(d.replica))
    }

    /** The replicas and their databases are here, and nothing of another kind. */
    static ghost predicate Gathers(objects: set<object>, parts: seq<RaftReplica>) {
      && (forall i {:trigger parts[i]} :: 0 <= i < |parts| ==> parts[i] in objects && parts[i].store in objects)
      && (forall o :: o in objects ==> o is RaftReplica || o is SqliteStore)
    }

    static lemma GathersMore(objects: set<object>, parts: seq<RaftReplica>, node: RaftReplica)
      requires Gathers(objects, parts)
      ensures Gathers(objects + {node, node.store}, parts + [node])
    {
    }

    static lemma NotAmong(objects: set<object>, parts: seq<RaftReplica>, shard: Shard)
      requires Gathers(objects, parts)
      ensures shard !in objects
    {
    }

    /** The first databases are open, the others as they were left. */
    static ghost predicate OpenedSoFar(shardId: nat, parts: seq<RaftReplica>, stores: seq<SqliteStore>,
                                       disks: seq<Disk>)
      reads parts, set node | node in parts :: node.store, stores
    {
      && |parts| <= |stores| == |disks|
      && (forall k {:trigger parts[k]} :: 0 <= k < |parts| ==>
          Opened(parts[k], stores[k], ReplicaId(shardId, k), disks[k]))
      && (forall k {:trigger stores[k]} :: |parts| <= k < |stores| ==> Holding(stores[k], disks[k]))
    }

    static method OpenNext(shardId: nat, parts: seq<RaftReplica>, stores: seq<SqliteStore>, ghost disks: seq<Disk>)
      returns (node: RaftReplica)
      requires OpenedSoFar(shardId, parts, stores, disks) && |parts| < |stores|
      requires forall i, j :: 0 <= i < j < |stores| ==> stores[i] != stores[j]
      modifies stores[|parts|]
      ensures fresh(node) && node.store == stores[|parts|] && OpenedSoFar(shardId, parts + [node], stores, disks)
    {
      var i := |parts|;
      node := OpenReplica(ReplicaId(shardId, i), stores[i], disks[i]);
      forall k | 0 <= k < i ensures Opened(parts[k], stores[k], ReplicaId(shardId, k), disks[k]) {
        assert old(Opened(parts[k], stores[k], ReplicaId(shardId, k), disks[k]));
      }
      forall k | i < k < |stores| ensures Holding(stores[k], disks[k]) {
        assert old(Holding(stores[k], disks[k]));
      }
    }

    /** Opens one replica per database, in order. */
    static method OpenReplicas(shardId: nat, stores: seq<SqliteStore>, ghost disks: seq<Disk>) 
      returns (parts: seq<RaftReplica>, ghost objects: set<object>)
      requires OnDisk(stores, disks)
      modifies set store | store in stores
      ensures |parts| == |stores|
      ensures forall i {:trigger parts[i]} :: 0 <= i < |parts| ==>
                fresh(parts[i]) && Opened(parts[i], stores[i], ReplicaId(shardId, i), disks[i])
      ensures forall i, j :: 0 <= i < j < |parts| ==> parts[i] != parts[j]
      ensures Gathers(objects, parts) && forall o :: o in objects ==> fresh(o) || o in Databases(stores)
    {
      parts, objects := [], {};
      while |parts| < |stores|
        invariant OpenedSoFar(shardId, parts, stores, disks) && fresh(parts)
        invariant forall j, k :: 0 <= j < k < |parts| ==> parts[j] != parts[k]
        invariant Gathers(objects, parts) && forall o :: o in objects ==> fresh(o) || o in Databases(stores)
        decreases |stores| - |parts|
      {
        var node := OpenNext(shardId, parts, stores, disks);
        GathersMore(objects, parts, node);
        assert node.store in Databases(stores);
        parts, objects := parts + [node], objects + {node, node.store};
      }
    }

    /** Opens the shard over what an earlier process (or none) left on disk, and elects. */
    constructor (shardId: nat, stores: seq<SqliteStore>, ghost disks: seq<Disk>, ghost H: seq<Entry>)
      requires 1 <= |stores| && OnDisk(stores, disks) && CrashSafe(ReplicasOf(disks), H)
      modifies set store | store in stores
      ensures Valid() && hist == H && Ids() == ReplicaIds(shardId, |stores|)
      ensures var s := Loaded(Ids(), ReplicasOf(disks));
                State() == After(s, EnsureLeader(s)) && calls == EnsureLeader(s).calls
      ensures |replicas| == |stores|
      ensures forall i {:trigger replicas[i]} :: 0 <= i < |replicas| ==>
                fresh(replicas[i]) && replicas[i].store == stores[i]
      ensures forall o :: o in nodes ==> fresh(o) || o in Databases(stores)
      ensures forall o :: o in nodes ==> o is RaftReplica || o is SqliteStore
      ensures NoTails(ReplicasOf(disks)) ==> NoTails(reps)
    {
      var parts: seq<RaftReplica>;
      ghost var objects: set<object>;
      parts, objects := OpenReplicas(shardId, stores, disks);
      replicas, nodes := parts, objects;
      leaderId := "";
      reps, calls, hist := ReloadAll(ReplicasOf(disks)), [], H;
      new;
      NotAmong(nodes, replicas, this);
      Assembled(shardId, stores, disks);
      StartUp(State(), ReplicasOf(disks));
    }

    /** A shard put together from open replicas is linked to what they store. */
    lemma Assembled(shardId: nat, stores: seq<SqliteStore>, disks: seq<Disk>)
      requires 1 <= |replicas| == |stores| == |disks| && Gathers(nodes, replicas) && this !in nodes
      requires forall i {:trigger replicas[i]} :: 0 <= i < |replicas| ==>
                 Opened(replicas[i], stores[i], ReplicaId(shardId, i), disks[i])
      requires forall i, j :: 0 <= i < j < |stores| ==> replicas[i] != replicas[j] && stores[i] != stores[j]
      requires reps == ReloadAll(ReplicasOf(disks))
      ensures Linked() && Ids() == ReplicaIds(shardId, |stores|) && Shaped(ShardState(Ids(), reps, leaderId))
    {
      forall i | 0 <= i < |replicas| ensures Stores(replicas[i], reps[i]) && replicas[i].id == ReplicaId(shardId, i) {
        assert Opened(replicas[i], stores[i], ReplicaId(shardId, i), disks[i]);
      }
      assert Ids() == ReplicaIds(shardId, |stores|);
      ReplicaIdsDistinct(shardId, |stores|);
    }

    /** The constructor's election. */
    method StartUp(ghost s: ShardState, ghost disks: seq<Replica>)
      requires Linked() && State() == s == Loaded(s.ids, disks) && Shaped(s) && CrashSafe(disks, hist) && calls == []
      modifies this`leaderId, this`reps, this`calls, nodes
      ensures Linked() && Between(State(), hist) && hist == old(hist)
      ensures State() == After(s, EnsureLeader(s)) && calls == EnsureLeader(s).calls
      ensures NoTails(disks) ==> NoTails(reps)
    {
      var _ := EnsureLeaderLocked();
      assert State() == After(s, EnsureLeader(s));
      assert Between(State(), hist) && (NoTails(disks) ==> NoTails(State().reps)) by {
        BootSummary(s, disks, hist, State());
      }
    }

    /** The C++ constructor throws for a shard of no replicas. */
    static method Create(shardId: nat, stores: seq<SqliteStore>, ghost disks: seq<Disk>, ghost H: seq<Entry>)
      returns (shard: Option<Shard>)
      requires stores != [] ==> OnDisk(stores, disks) && CrashSafe(ReplicasOf(disks), H)
      modifies set store | store in stores
      ensures shard.None? <==> stores == []
      ensures shard.Some? ==>
                shard.value.Valid() && shard.value.hist == H && shard.value.Ids() == ReplicaIds(shardId, |stores|)
    {
      if |stores| < 1 {
        return None;
      }
      var made := new Shard(shardId, stores, disks, H);
      return Some(made);
    }

    // ---------------------------------------------------------------- stopping

    ghost function Files(): (stores: seq<SqliteStore>)
      ensures |stores| == |replicas|
    {
      seq(|replicas|, i requires 0 <= i < |replicas| => replicas[i].store)
    }

    /** What the databases of a shard hold when the process stops between two calls. */
    static ghost function DisksOf(reps: seq<Replica>): (disks: seq<Disk>)
      ensures |disks| == |reps| && ReplicasOf(disks) == reps
    {
      seq(|reps|, i requires 0 <= i < |reps| => Disk(reps[i], reps[i].commit, reps[i].commit))
    }

    /** Stopped between any two calls, a shard leaves databases that the constructor opens. */
    lemma StopLeavesDisks(H: seq<Entry>)
      requires Linked() && CrashSafe(reps, H)
      ensures OnDisk(Files(), DisksOf(reps))
    {
      forall i | 0 <= i < |replicas| ensures Holding(replicas[i].store, DisksOf(reps)[i]) {
        StoresAt(i);
        assert ReplicaSafe(reps[i], H);
        StoppedIsRecoverable(replicas[i].State(), reps[i]);
      }
    }

    /** So after a stop in the middle of any operation: the history is the one the run says. */
    lemma StopInLeavesDisks(s: ShardState, op: Op, k: nat, H: seq<Entry>)
      requires Linked() && Between(s, H) && s.ids == Ids() && reps == Run(s.reps, Prefix(PlanOf(s, op).calls, k))
      ensures OnDisk(Files(), DisksOf(reps)) && CrashSafe(reps, HistoryNext(Up(s), StopIn(op, k), H))
    {
      StepKeeps(Up(s), StopIn(op, k), H);
      StopLeavesDisks(HistoryNext(Up(s), StopIn(op, k), H));
    }

    /** And after a stop in the middle of the constructor's own election. */
    lemma StopInBootLeavesDisks(disks: seq<Replica>, s: ShardState, k: nat, H: seq<Entry>)
      requires Linked() && Shaped(ShardState(Ids(), disks, "")) && CrashSafe(disks, H) && s == Loaded(Ids(), disks)
      requires reps == Run(s.reps, Prefix(EnsureLeader(s).calls, k))
      ensures OnDisk(Files(), DisksOf(reps)) && CrashSafe(reps, H)
    {
      assert CrashSafe(reps, H) by { StoppedBootSafe(s, disks, k, H, reps); }
      StopLeavesDisks(H);
    }

    // ---------------------------------------------------------------- one replica call each

    method SetOnline(i: nat, up: bool)
      requires Linked() && i < |replicas|
      modifies this`reps, this`calls, nodes
      ensures Linked() && reps == Exec(old(reps), CallSetOnline(i, up)) && calls == old(calls) + [CallSetOnline(i, up)]
    {
      StoresAt(i);
      replicas[i].SetOnline(up);
      reps, calls := Exec(reps, CallSetOnline(i, up)), calls + [CallSetOnline(i, up)];
    }

    method SetRole(i: nat, role: Role)
      requires Linked() && i < |replicas|
      modifies this`reps, this`calls, nodes
      ensures Linked() && reps == Exec(old(reps), CallSetRole(i, role)) && calls == old(calls) + [CallSetRole(i, role)]
    {
      StoresAt(i);
      replicas[i].SetRole(role);
      reps, calls := Exec(reps, CallSetRole(i, role)), calls + [CallSetRole(i, role)];
    }

    method RequestVote(i: nat, term: int, candidate: string, lastIndex: int, lastTerm: int) returns (granted: bool)
      requires Linked() && i < |replicas|
      modifies this`reps, this`calls, nodes
      ensures Linked() && granted == Grants(old(reps)[i], term, candidate, lastIndex, lastTerm)
      ensures var c := CallRequestVote(i, term, candidate, lastIndex, lastTerm);
              reps == Exec(old(reps), c) && calls == old(calls) + [c]
    {
      StoresAt(i);
      RequestVoteMirrors(replicas[i].State(), reps[i], term, candidate, lastIndex, lastTerm);
      granted := replicas[i].RequestVote(term, candidate, lastIndex, lastTerm);
      var c := CallRequestVote(i, term, candidate, lastIndex, lastTerm);
      reps, calls := Exec(reps, c), calls + [c];
    }

    method AppendLocal(i: nat, command: Command) returns (entry: Option<Entry>)
      requires Linked() && i < |replicas| && Known(command)
      modifies this`reps, this`calls, nodes
      ensures Linked() && entry == if CanAppend(old(reps)[i]) then Some(NextEntry(old(reps)[i], command)) else None
      ensures CanAppend(old(reps)[i]) ==>
                reps == Exec(old(reps), CallAppendLocal(i, command))
                    && calls == old(calls) + [CallAppendLocal(i, command)]
      ensures !CanAppend(old(reps)[i]) ==> reps == old(reps) && calls == old(calls)
    {
      StoresAt(i);
      AppendLocalMirrors(replicas[i].State(), reps[i], command);
      entry := replicas[i].AppendLocal(command);
      if entry.Some? {
        reps, calls := Exec(reps, CallAppendLocal(i, command)), calls + [CallAppendLocal(i, command)];
      }
    }

    method AppendEntries(i: nat, term: int, leader: string, prevIndex: int, prevTerm: int, entries: seq<Entry>,
                         leaderCommit: int)
      returns (accepted: bool)
      requires Linked() && i < |replicas| && 0 <= prevIndex && Consecutive(entries, prevIndex + 1)
      requires forall k :: 0 <= k < |entries| ==> reps[i].commit < entries[k].index
      modifies this`reps, this`calls, nodes
      ensures Linked() && accepted == Accepts(old(reps)[i], term, prevIndex, prevTerm)
      ensures var c := CallAppendEntries(i, term, leader, prevIndex, prevTerm, entries, leaderCommit);
              reps == Exec(old(reps), c) && calls == old(calls) + [c]
    {
      StoresAt(i);
      AppendEntriesMirrors(replicas[i].State(), reps[i], term, leader, prevIndex, prevTerm, entries, leaderCommit);
      var reply := replicas[i].AppendEntries(term, leader, prevIndex, prevTerm, entries, leaderCommit);
      accepted := reply == Accepted;
      var c := CallAppendEntries(i, term, leader, prevIndex, prevTerm, entries, leaderCommit);
      reps, calls := Exec(reps, c), calls + [c];
    }

    method CommitTo(i: nat, index: int)
      requires Linked() && i < |replicas|
      modifies this`reps, this`calls, nodes
      ensures Linked() && reps == Exec(old(reps), CallCommitTo(i, index))
              && calls == old(calls) + [CallCommitTo(i, index)]
    {
      StoresAt(i);
      CommitToMirrors(replicas[i].State(), reps[i], index);
      var threw := replicas[i].CommitTo(index);
      assert !threw;
      reps, calls := Exec(reps, CallCommitTo(i, index)), calls + [CallCommitTo(i, index)];
    }

    method DiscardUncommitted(i: nat)
      requires Linked() && i < |replicas|
      modifies this`reps, this`calls, nodes
      ensures Linked() && reps == Exec(old(reps), CallDiscard(i)) && calls == old(calls) + [CallDiscard(i)]
    {
      StoresAt(i);
      DiscardMirrors(replicas[i].State(), reps[i]);
      replicas[i].DiscardUncommitted();
      reps, calls := Exec(reps, CallDiscard(i)), calls + [CallDiscard(i)];
    }

    method ExportSnapshot(l: nat) returns (snapshot: RawSnapshot)
      requires Linked() && l < |replicas|
      ensures var snap := Export(reps[l]);
                snapshot == RawSnapshot(snap.term, snap.commit, snap.log) && Indexed(snap.log)
    {
      StoresAt(l);
      snapshot := replicas[l].ExportSnapshot();
      ghost var rows :| AreRowsFrom(rows, replicas[l].store.log, 1) && snapshot.log == Cut(rows, replicas[l].commit);
      ExportMirrors(replicas[l].State(), reps[l], rows);
    }

    method InstallSnapshot(i: nat, snapshot: RawSnapshot, ghost snap: Snapshot)
      requires Linked() && i < |replicas| && snapshot == RawSnapshot(snap.term, snap.commit, snap.log)
               && Indexed(snap.log)
      modifies this`reps, this`calls, nodes
      ensures Linked() && reps == Exec(old(reps), CallInstall(i, snap)) && calls == old(calls) + [CallInstall(i, snap)]
    {
      StoresAt(i);
      InstallMirrors(replicas[i].State(), reps[i], snap);
      var threw := replicas[i].InstallSnapshot(snapshot);
      assert !threw;
      reps, calls := Exec(reps, CallInstall(i, snap)), calls + [CallInstall(i, snap)];
    }

    /** sync_follower_locked: send the leader's snapshot to an online follower. */
    method SyncFollower(f: nat, l: nat)
      requires Linked() && f < |replicas| && l < |replicas|
      modifies this`reps, this`calls, nodes
      ensures Linked()
      ensures var sync := if old(reps)[f].online then [CallInstall(f, Export(old(reps)[l]))] else [];
              reps == Run(old(reps), sync) && calls == old(calls) + sync
    {
      StoresAt(f);
      if !replicas[f].online {
        return;
      }
      var snapshot := ExportSnapshot(l);
      RunOne(reps, CallInstall(f, Export(reps[l])));
      InstallSnapshot(f, snapshot, Export(reps[l]));
    }

    // ---------------------------------------------------------------- ensure_leader_locked

    method FindLeader() returns (l: int)
      requires Linked()
      ensures l == CurrentLeader(State())
    {
      var i := 0;
      while i < |replicas|
        invariant i <= |replicas| && CurrentLeaderFrom(State(), i) == CurrentLeader(State())
      {
        StoresAt(i);
        if replicas[i].id == leaderId && replicas[i].online {
          return i;
        }
        i := i + 1;
      }
      return -1;
    }

    method CollectOnline() returns (on: seq<nat>)
      requires Linked()
      ensures on == Online(reps)
    {
      on := [];
      var i := 0;
      while i < |replicas|
        invariant i <= |replicas| && on == OnlineUpTo(reps, i)
      {
        StoresAt(i);
        if replicas[i].online {
          on := on + [i];
        }
        i := i + 1;
      }
    }

    method LogEnd(i: nat) returns (lastIndex: int, lastTerm: int)
      requires Linked() && i < |replicas|
      ensures lastIndex == |reps[i].log| && lastTerm == LastTerm(reps[i].log)
    {
      StoresAt(i);
      LastOfTable(reps[i].log);
      lastIndex := replicas[i].store.LastLogIndex();
      lastTerm := replicas[i].store.LastLogTerm();
    }

    method IsLess(a: nat, b: nat) returns (less: bool)
      requires Linked() && a < |replicas| && b < |replicas|
      ensures less == Less(reps[a], reps[b])
    {
      StoresAt(a);
      StoresAt(b);
      if replicas[a].commit != replicas[b].commit {
        return replicas[a].commit < replicas[b].commit;
      }
      var indexA, termA := LogEnd(a);
      var indexB, termB := LogEnd(b);
      return if termA != termB then termA < termB else indexA < indexB;
    }

    method PickCandidate(on: seq<nat>) returns (c: nat)
      requires Linked() && on != [] && forall k :: 0 <= k < |on| ==> on[k] < |replicas|
      ensures c == Best(reps, on)
    {
      c := on[0];
      var k := 1;
      assert on[..1] == [on[0]];
      while k < |on|
        invariant 1 <= k <= |on| && c < |replicas| && c == Best(reps, on[..k])
      {
        assert on[..k + 1][..k] == on[..k];
        var less := IsLess(c, on[k]);
        if less {
          c := on[k];
        }
        k := k + 1;
      }
      assert on[..k] == on;
    }

    method HighestTerm() returns (next: int)
      requires Linked()
      ensures next == NextTerm(reps)
    {
      next := 1;
      var i := 0;
      while i < |replicas|
        invariant i <= |replicas| && next == NextTermUpTo(reps, i)
      {
        StoresAt(i);
        next := Max(next, replicas[i].term + 1);
        i := i + 1;
      }
    }

    method CollectVotes(on: seq<nat>, term: int, candidate: string, li: int, lt: int) returns (votes: nat)
      requires Linked() && forall k :: 0 <= k < |on| ==> on[k] < |replicas|
      requires forall j, k :: 0 <= j < k < |on| ==> on[j] < on[k]
      modifies this`reps, this`calls, nodes
      ensures Linked() && votes == Votes(old(reps), on, |on|, term, candidate, li, lt)
      ensures reps == Run(old(reps), VoteCalls(on, term, candidate, li, lt))
      ensures calls == old(calls) + VoteCalls(on, term, candidate, li, lt)
    {
      ghost var was, before, all, done := reps, calls, VoteCalls(on, term, candidate, li, lt), [];
      votes := 0;
      var k := 0;
      while k < |on|
        invariant k <= |on| && Linked() && votes == Votes(was, on, k, term, candidate, li, lt)
        invariant done == all[..k] && reps == Run(was, done) && calls == before + done
      {
        NextVoter(was, on, all, k);
        Assoc(before, done, [all[k]]);
        var granted := RequestVote(on[k], term, candidate, li, lt);
        if granted {
          votes := votes + 1;
        }
        done := done + [all[k]];
        k := k + 1;
      }
      assert all[..k] == all;
    }

    method Crown(c: nat)
      requires Linked() && c < |replicas|
      modifies this`reps, this`calls, nodes
      ensures Linked() && reps == Run(old(reps), CrownCalls(|replicas|, c))
              && calls == old(calls) + CrownCalls(|replicas|, c)
    {
      ghost var all := RoleCalls(|replicas|);
      var i := 0;
      while i < |replicas|
        invariant i <= |replicas| && Linked()
        invariant reps == Run(old(reps), all[..i]) && calls == old(calls) + all[..i]
      {
        RunSnoc(old(reps), all[..i], all[i]);
        assert all[..i + 1] == all[..i] + [all[i]];
        SetRole(i, Follower);
        i := i + 1;
      }
      assert all[..i] == all;
      RunSnoc(old(reps), all, CallSetRole(c, Leader));
      SetRole(c, Leader);
    }

    method SyncOthers(on: seq<nat>, c: nat)
      requires Linked() && c < |replicas| && forall k :: 0 <= k < |on| ==> on[k] < |replicas| && reps[on[k]].online
      requires forall j, k :: 0 <= j < k < |on| ==> on[j] < on[k]
      modifies this`reps, this`calls, nodes
      ensures Linked()
      ensures var sync := SyncCalls(on, c, Export(old(reps)[c]));
                reps == Run(old(reps), sync) && calls == old(calls) + sync
    {
      ghost var was, before, done, snap := reps, calls, [], Export(reps[c]);
      var k := 0;
      while k < |on|
        invariant k <= |on| && Linked()
        invariant done == SyncCalls(on[..k], c, snap) && reps == Run(was, done) && calls == before + done
      {
        ghost var turn := InstallUnless(on[k], c, snap);
        NotYetSynced(was, on, c, snap, k, reps);
        NextSync(was, on, c, snap, k);
        Assoc(before, done, turn);
        if on[k] != c {
          SyncFollower(on[k], c);
        }
        done := done + turn;
        k := k + 1;
      }
      assert on[..k] == on;
    }

    /** set_role(Candidate) and the votes. */
    method HoldVote(c: nat, on: seq<nat>, nextTerm: int) returns (votes: nat)
      requires Linked() && c < |replicas| && on == Online(reps) && nextTerm == NextTerm(reps)
      modifies this`reps, this`calls, nodes
      ensures Linked() && reps == Run(old(reps), VotingCalls(old(State()), c))
              && calls == old(calls) + VotingCalls(old(State()), c)
      ensures var r := old(reps)[c];
              votes == Votes(Exec(old(reps), CallSetRole(c, Candidate)), on, |on|, nextTerm, Ids()[c], |r.log|,
                  LastTerm(r.log))
    {
      ghost var s := State();
      ghost var first := CallSetRole(c, Candidate);
      SetRole(c, Candidate);
      var lastIndex, lastTerm := LogEnd(c);
      RunConcat(s.reps, [first], VoteCalls(on, nextTerm, s.ids[c], lastIndex, lastTerm));
      RunOne(s.reps, first);
      votes := CollectVotes(on, nextTerm, replicas[c].id, lastIndex, lastTerm);
    }

    /** A won vote: roles, leader id, snapshots to the other online replicas. */
    method Inaugurate(c: nat, on: seq<nat>)
      requires Linked() && c < |replicas| && on == Online(reps)
      modifies this`leaderId, this`reps, this`calls, nodes
      ensures Linked() && leaderId == Ids()[c]
      ensures reps == Run(old(reps), InaugurateCalls(old(reps), on, c))
      ensures calls == old(calls) + InaugurateCalls(old(reps), on, c)
    {
      CrownedOnline(reps, c);
      ghost var crown := CrownCalls(|replicas|, c);
      ghost var sync := SyncCalls(on, c, Export(Run(reps, crown)[c]));
      RunConcat(reps, crown, sync);
      Assoc(calls, crown, sync);
      Crown(c);
      leaderId := replicas[c].id;
      SyncOthers(on, c);
    }

    method ContestElection(c: nat, on: seq<nat>) returns (ok: bool)
      requires Linked() && c < |replicas| && on == Online(reps)
      modifies this`leaderId, this`reps, this`calls, nodes
      ensures Linked()
      ensures var p := Contest(old(State()), c);
              State() == After(old(State()), p) && calls == old(calls) + p.calls && ok == (p.status == Done)
    {
      ghost var s := State();
      ghost var voting := VotingCalls(s, c);
      var nextTerm := HighestTerm();
      var votes := HoldVote(c, on, nextTerm);
      if votes < |replicas| / 2 + 1 {
        RunSnoc(s.reps, voting, CallSetRole(c, Follower));
        Assoc(old(calls), voting, [CallSetRole(c, Follower)]);
        SetRole(c, Follower);
        leaderId := "";
        return false;
      }
      VotedOnline(s, c);
      RunConcat(s.reps, voting, InaugurateCalls(reps, on, c));
      Assoc(old(calls), voting, InaugurateCalls(reps, on, c));
      Inaugurate(c, on);
      return true;
    }

    method EnsureLeaderLocked() returns (ok: bool)
      requires Linked()
      modifies this`leaderId, this`reps, this`calls, nodes
      ensures Linked()
      ensures var p := EnsureLeader(old(State()));
              State() == After(old(State()), p) && calls == old(calls) + p.calls && ok == (p.status == Done)
    {
      var l := FindLeader();
      if l >= 0 {
        return true;
      }
      var on := CollectOnline();
      if |on| < |replicas| / 2 + 1 {
        leaderId := "";
        return false;
      }
      var c := PickCandidate(on);
      ok := ContestElection(c, on);
    }

    // ---------------------------------------------------------------- replicate_command_locked

    /** Bring one follower into step if its indexes say it is not. */
    method PrepareFollower(f: nat, l: nat)
      requires Linked() && f < |replicas| && l < |replicas| && f != l && reps[f].online
      modifies this`reps, this`calls, nodes
      ensures Linked() && calls == old(calls) + PrepareCalls(f, old(reps)[f], old(reps)[l])
      ensures reps == old(reps)[f := Prepared(old(reps)[f], old(reps)[l])]
      ensures reps == Run(old(reps), PrepareCalls(f, old(reps)[f], old(reps)[l]))
    {
      StoresAt(f);
      StoresAt(l);
      var lastIndex, _ := LogEnd(f);
      if replicas[f].commit != replicas[l].commit || lastIndex != replicas[l].commit {
        RunOne(reps, CallInstall(f, Export(reps[l])));
        SyncFollower(f, l);
      }
    }

    /** append_entries with the one new entry, to a follower brought into step. */
    method SendEntry(f: nat, l: nat, e: Entry, prevTerm: int) returns (accepted: bool)
      requires Linked() && f < |replicas| && l < |replicas|
      requires Known(e.command) && e.index == |reps[l].log| && prevTerm == Protocol.TermAt(reps[l], e.index - 1)
      requires 0 < e.index && reps[f].commit < e.index
      modifies this`reps, this`calls, nodes
      ensures Linked() && accepted == Accepts(old(reps)[f], old(reps)[l].term, e.index - 1, prevTerm)
      ensures var send := Send(f, old(reps)[l], Ids()[l], e);
                reps == Exec(old(reps), send) && calls == old(calls) + [send]
    {
      StoresAt(l);
      accepted := AppendEntries(f, replicas[l].term, replicas[l].id, e.index - 1, prevTerm, [e], replicas[l].commit);
    }

    method SendToFollower(f: nat, l: nat, e: Entry, prevTerm: int) returns (accepted: bool)
      requires Linked() && f < |replicas| && l < |replicas| && f != l && reps[f].online
      requires Known(e.command) && e.index == |reps[l].log| && prevTerm == Protocol.TermAt(reps[l], e.index - 1)
      requires reps[l].commit < e.index
      modifies this`reps, this`calls, nodes
      ensures Linked() && accepted == Acks(old(reps)[f], old(reps)[l], e)
      ensures var send := FollowerCalls(f, old(reps)[f], old(reps)[l], Ids()[l], e);
              reps == Run(old(reps), send) && calls == old(calls) + send
    {
      ghost var prepare := PrepareCalls(f, reps[f], reps[l]);
      ghost var send := Send(f, reps[l], Ids()[l], e);
      PreparedCommit(reps[f], reps[l]);
      PrepareFollower(f, l);
      RunSnoc(old(reps), prepare, send);
      Assoc(old(calls), prepare, [send]);
      accepted := SendEntry(f, l, e, prevTerm);
    }

    /** One pass of the loop; the ids are distinct, so comparing positions is comparing ids. */
    method ReplicateTo(f: nat, l: nat, e: Entry, prevTerm: int) returns (acked: bool)
      requires Linked() && f < |replicas| && l < |replicas|
      requires Known(e.command) && e.index == |reps[l].log| && prevTerm == Protocol.TermAt(reps[l], e.index - 1)
      requires reps[l].commit < e.index
      modifies this`reps, this`calls, nodes
      ensures Linked() && acked == (IsFollower(old(reps), l, f) && Acks(old(reps)[f], old(reps)[l], e))
      ensures var turn := TurnOf(old(reps), Ids()[l], l, e, f);
                reps == Run(old(reps), turn) && calls == old(calls) + turn
    {
      StoresAt(f);
      if f == l || !replicas[f].online {
        return false;
      }
      acked := SendToFollower(f, l, e, prevTerm);
    }

    /** The loop has served the first f replicas since the state `was`. */
    ghost predicate Replicated(was: seq<Replica>, before: seq<Call>, l: nat, e: Entry, f: nat)
      requires l < |replicas| && f <= |replicas|
      reads this`reps, this`calls
    {
      && |was| == |replicas| && reps == Run(was, ReplicateCalls(was, Ids()[l], l, e, f))
      && calls == before + ReplicateCalls(was, Ids()[l], l, e, f)
    }

    method ReplicateNext(f: nat, l: nat, e: Entry, prevTerm: int, acked: seq<nat>,
                         ghost was: seq<Replica>, ghost before: seq<Call>) returns (more: seq<nat>)
      requires Linked() && f < |replicas| && l < |replicas| && Replicated(was, before, l, e, f)
               && acked == Acked(was, l, e, f)
      requires Known(e.command) && e.index == |was[l].log| && prevTerm == Protocol.TermAt(was[l], e.index - 1)
      requires was[l].commit < e.index
      modifies this`reps, this`calls, nodes
      ensures Linked() && Replicated(was, before, l, e, f + 1) && more == Acked(was, l, e, f + 1)
    {
      NextFollower(was, Ids()[l], l, e, f, reps);
      Assoc(before, ReplicateCalls(was, Ids()[l], l, e, f), TurnOf(reps, Ids()[l], l, e, f));
      var accepted := ReplicateTo(f, l, e, prevTerm);
      more := if accepted then acked + [f] else acked;
    }

    /** The replication loop: the followers that acknowledged, in order. */
    method ReplicateToFollowers(l: nat, e: Entry) returns (acked: seq<nat>)
      requires Linked() && l < |replicas| && Known(e.command) && e.index == |reps[l].log| && reps[l].commit < e.index
      modifies this`reps, this`calls, nodes
      ensures Linked() && acked == Acked(old(reps), l, e, |replicas|)
      ensures var spread := ReplicateCalls(old(reps), Ids()[l], l, e, |replicas|);
              reps == Run(old(reps), spread) && calls == old(calls) + spread
    {
      ghost var was, before := reps, calls;
      var prevTerm := TermAt(l, e.index - 1);
      acked := [];
      var f := 0;
      while f < |replicas|
        invariant f <= |replicas| && Linked() && acked == Acked(was, l, e, f) && Replicated(was, before, l, e, f)
      {
        acked := ReplicateNext(f, l, e, prevTerm, acked, was, before);
        f := f + 1;
      }
    }

    method TermAt(i: nat, index: int) returns (t: int)
      requires Linked() && i < |replicas|
      ensures t == Protocol.TermAt(reps[i], index)
    {
      StoresAt(i);
      t := replicas[i].TermAt(index);
    }

    method DiscardAll(fs: seq<nat>)
      requires Linked() && forall k :: 0 <= k < |fs| ==> fs[k] < |replicas|
      modifies this`reps, this`calls, nodes
      ensures Linked() && reps == Run(old(reps), DiscardCalls(fs)) && calls == old(calls) + DiscardCalls(fs)
    {
      ghost var all := DiscardCalls(fs);
      var k := 0;
      while k < |fs|
        invariant k <= |fs| && Linked() && reps == Run(old(reps), all[..k]) && calls == old(calls) + all[..k]
      {
        RunSnoc(old(reps), all[..k], all[k]);
        assert all[..k + 1] == all[..k] + [all[k]];
        DiscardUncommitted(fs[k]);
        k := k + 1;
      }
      assert all[..k] == all;
    }

    method Heartbeat(fs: seq<nat>, l: nat, e: Entry)
      requires Linked() && l < |replicas| && 0 <= e.index && l !in fs
      requires forall k :: 0 <= k < |fs| ==> fs[k] < |replicas|
      modifies this`reps, this`calls, nodes
      ensures Linked()
      ensures var beats := HeartbeatCalls(fs, old(reps)[l].term, Ids()[l], e);
              reps == Run(old(reps), beats) && calls == old(calls) + beats
    {
      ghost var all := HeartbeatCalls(fs, reps[l].term, Ids()[l], e);
      var k := 0;
      while k < |fs|
        invariant k <= |fs| && Linked() && reps == Run(old(reps), all[..k]) && calls == old(calls) + all[..k]
        invariant reps[l] == old(reps)[l]
      {
        RunSnoc(old(reps), all[..k], all[k]);
        assert all[..k + 1] == all[..k] + [all[k]];
        StoresAt(l);
        var _ := AppendEntries(fs[k], replicas[l].term, replicas[l].id, e.index, e.term, [], e.index);
        k := k + 1;
      }
      assert all[..k] == all;
    }

    /** The first half: append on the leader, replicate, count. */
    method Spread(l: nat, command: Command) returns (e: Entry, acked: seq<nat>)
      requires Linked() && l < |replicas| && Known(command) && CanAppend(reps[l])
      modifies this`reps, this`calls, nodes
      ensures Linked() && e == NextEntry(old(reps)[l], command)
      ensures acked == Acked(Exec(old(reps), CallAppendLocal(l, command)), l, e, |replicas|)
      ensures reps == Run(old(reps), SpreadCalls(old(State()), l, command))
      ensures calls == old(calls) + SpreadCalls(old(State()), l, command)
    {
      ghost var first := CallAppendLocal(l, command);
      StoresAt(l);
      var entry := AppendLocal(l, command);
      e := entry.value;
      ghost var spread := ReplicateCalls(reps, Ids()[l], l, e, |replicas|);
      RunOne(old(reps), first);
      RunConcat(old(reps), [first], spread);
      Assoc(old(calls), [first], spread);
      acked := ReplicateToFollowers(l, e);
    }

    /** A majority did not acknowledge: cut the entry off again. */
    method Withdraw(l: nat, acked: seq<nat>)
      requires Linked() && l < |replicas| && forall k :: 0 <= k < |acked| ==> acked[k] < |replicas|
      modifies this`reps, this`calls, nodes
      ensures Linked() && reps == Run(old(reps), RefuseCalls(l, acked)) && calls == old(calls) + RefuseCalls(l, acked)
    {
      RunConcat(reps, [CallDiscard(l)], DiscardCalls(acked));
      RunOne(reps, CallDiscard(l));
      Assoc(calls, [CallDiscard(l)], DiscardCalls(acked));
      DiscardUncommitted(l);
      DiscardAll(acked);
    }

    /** A majority acknowledged: commit on the leader, then tell the followers. */
    method Commit(l: nat, acked: seq<nat>, e: Entry)
      requires Linked() && l < |replicas| && 0 <= e.index && l !in acked
      requires forall k :: 0 <= k < |acked| ==> acked[k] < |replicas|
      modifies this`reps, this`calls, nodes
      ensures Linked()
      ensures var commits := [CallCommitTo(l, e.index)] + HeartbeatCalls(acked, old(reps)[l].term, Ids()[l], e);
              reps == Run(old(reps), commits) && calls == old(calls) + commits
    {
      ghost var beats := HeartbeatCalls(acked, reps[l].term, Ids()[l], e);
      RunConcat(reps, [CallCommitTo(l, e.index)], beats);
      RunOne(reps, CallCommitTo(l, e.index));
      Assoc(calls, [CallCommitTo(l, e.index)], beats);
      CommitTo(l, e.index);
      Heartbeat(acked, l, e);
    }

    /** replicate_command_locked once the leader is known; Threw where append_local throws. */
    method ReplicateVia(l: nat, command: Command) returns (status: Status)
      requires Linked() && l < |replicas| && Known(command)
      modifies this`reps, this`calls, nodes
      ensures Linked() && leaderId == old(leaderId)
      ensures var w := WriteVia(old(State()), l, command);
              State() == After(old(State()), w) && calls == old(calls) + w.calls && status == w.status
    {
      ghost var s := State();
      StoresAt(l);
      if !replicas[l].online || replicas[l].role != Leader {
        return Threw;
      }
      var e, acked := Spread(l, command);
      ghost var spread, mid := SpreadCalls(s, l, command), State();
      WriteViaUnfolds(s, l, command, mid);
      if 1 + |acked| < |replicas| / 2 + 1 {
        Assoc(old(calls), spread, RefuseCalls(l, acked));
        Withdraw(l, acked);
        return Refused;
      }
      Assoc(old(calls), spread, [CallCommitTo(l, e.index)] + HeartbeatCalls(acked, mid.reps[l].term, mid.ids[l], e));
      Commit(l, acked, e);
      return Done;
    }

    /** The write itself, once ensure_leader_locked has been asked. */
    method WriteThroughLeader(command: Command) returns (result: OperationResult)
      requires Linked() && Known(command)
      modifies this`reps, this`calls, nodes
      ensures Linked() && leaderId == old(leaderId)
      ensures var l := CurrentLeader(old(State()));
              if l < 0 then reps == old(reps) && calls == old(calls) && !result.ok && result.status == 503
              else
                var w := WriteVia(old(State()), l, command);
                && State() == After(old(State()), w) && calls == old(calls) + w.calls
                && result.ok == (w.status == Done) && result.status == StatusCode(w.status, command)
      ensures result.leader == if CurrentLeader(old(State())) >= 0 then leaderId else ""
    {
      var l := FindLeader();
      if l < 0 {
        return OperationResult(false, 503, [], "");
      }
      var status := ReplicateVia(l, command);
      return OperationResult(status == Done, StatusCode(status, command), [], replicas[l].id);
    }

    method ReplicateCommandLocked(command: Command) returns (result: OperationResult)
      requires Linked() && Known(command)
      modifies this`leaderId, this`reps, this`calls, nodes
      ensures Linked()
      ensures var p := Write(old(State()), command);
              && State() == After(old(State()), p) && calls == old(calls) + p.calls
              && result.ok == (p.status == Done) && result.status == StatusCode(p.status, command)
      ensures result.leader == LeaderNamed(old(State()))
    {
      ghost var s := State();
      var ready := EnsureLeaderLocked();
      ghost var e, s1 := EnsureLeader(s), State();
      ghost var l := CurrentLeader(s1);
      WriteUnfolds(s, command, e, s1, l);
      if !ready {
        return OperationResult(false, 503, [], "");
      }
      Assoc(old(calls), e.calls, if l >= 0 then WriteVia(s1, l, command).calls else []);
      result := WriteThroughLeader(command);
    }

    // ---------------------------------------------------------------- the public operations

    /** put and erase: acknowledged means committed as the last entry of the history, refused means
        the history is what it was; nothing else happens, and no exception escapes. */
    method Replicate(command: Command) returns (result: OperationResult)
      requires Valid() && Known(command)
      modifies this, nodes
      ensures Linked() && Between(State(), hist)
      ensures State() == After(old(State()), Write(old(State()), command))
      ensures calls == old(calls) + Write(old(State()), command).calls
      ensures hist == HistoryAfter(old(State()), command, old(hist))
      ensures result.ok == (Write(old(State()), command).status == Done)
      ensures result.status == if result.ok then (if command.name == "DELETE" then 200 else 201) else 503
      ensures result.leader == leaderId
      ensures Extends(old(State()), command, old(hist), if result.ok then Done else Refused, hist)
      ensures result.ok ==> Commands(hist) == Commands(old(hist)) + LateCommands(old(reps)) + [command]
      ensures NoTails(old(reps)) ==> NoTails(reps) && (result.ok <==> 2 * |OnlineSet(old(reps))| > |replicas|)
    {
      ghost var s, H := State(), hist;
      result := ReplicateCommandLocked(command);
      hist := HistoryAfter(s, command, H);
      WriteSummary(s, command, H, State(), hist);
      LeaderIsNamed(s, command, H);
    }

    method Put(key: Bytes, value: Bytes) returns (result: OperationResult)
      requires Valid()
      modifies this, nodes
      ensures Valid() && State() == After(old(State()), Write(old(State()), Command(PUT, key, value)))
      ensures calls == old(calls) + Write(old(State()), Command(PUT, key, value)).calls
      ensures hist == HistoryAfter(old(State()), Command(PUT, key, value), old(hist))
      ensures result.status == 201 || result.status == 503
      ensures result.leader == leaderId
      ensures result.status == 201 ==> key in Replay(hist) && Replay(hist)[key] == value
      ensures Extends(old(State()), Command(PUT, key, value), old(hist),
                      if result.status == 201 then Done else Refused, hist)
      ensures result.status == 201 ==>
                Commands(hist) == Commands(old(hist)) + LateCommands(old(reps)) + [Command(PUT, key, value)]
      ensures NoTails(old(reps)) ==>
                NoTails(reps) && (result.status == 201 <==> 2 * |OnlineSet(old(reps))| > |replicas|)
    {
      result := Replicate(Command(PUT, key, value));
      if result.ok { LastEntryDecides(hist, key); }
    }

    method Erase(key: Bytes) returns (result: OperationResult)
      requires Valid()
      modifies this, nodes
      ensures Valid() && State() == After(old(State()), Write(old(State()), Command(DELETE, key, [])))
      ensures calls == old(calls) + Write(old(State()), Command(DELETE, key, [])).calls
      ensures hist == HistoryAfter(old(State()), Command(DELETE, key, []), old(hist))
      ensures result.status == 200 || result.status == 503
      ensures result.leader == leaderId
      ensures result.status == 200 ==> key !in Replay(hist)
      ensures Extends(old(State()), Command(DELETE, key, []), old(hist),
                      if result.status == 200 then Done else Refused, hist)
      ensures result.status == 200 ==>
                Commands(hist) == Commands(old(hist)) + LateCommands(old(reps)) + [Command(DELETE, key, [])]
      ensures NoTails(old(reps)) ==>
                NoTails(reps) && (result.status == 200 <==> 2 * |OnlineSet(old(reps))| > |replicas|)
    {
      result := Replicate(Command(DELETE, key, []));
      if result.ok { LastEntryDecides(hist, key); }
    }

    /** The read itself, once ensure_leader_locked has been asked. */
    method ReadFromLeader(key: Bytes, ready: bool) returns (result: OperationResult)
      requires Linked() && Between(State(), hist) && ready == (leaderId != "")
      ensures (result.status == 503 <==> !ready) && ReadAnswer(result, key, Replay(hist)) && result.leader == leaderId
    {
      if !ready {
        return OperationResult(false, 503, [], "");
      }
      LeaderFound(State(), hist);
      var l := FindLeader();
      StoresAt(l);
      var value := replicas[l].Get(key);
      assert ReplicaSafe(reps[l], hist);
      LeaderReads(reps[l], hist);
      if value.None? {
        return OperationResult(false, 404, [], replicas[l].id);
      }
      return OperationResult(true, 200, value.value, replicas[l].id);
    }

    /** get: answered from the replay of the whole history, whichever replica leads; refused exactly
        when neither a leader nor a majority is online. */
    method Get(key: Bytes) returns (result: OperationResult)
      requires Valid()
      modifies this`leaderId, this`reps, this`calls, nodes
      ensures Valid() && State() == After(old(State()), EnsureLeader(old(State())))
      ensures calls == old(calls) + EnsureLeader(old(State())).calls
      ensures result.status == 503 <==> CurrentLeader(old(State())) < 0 && 2 * |OnlineSet(old(reps))| <= |replicas|
      ensures ReadAnswer(result, key, Replay(hist)) && result.leader == leaderId
      ensures NoTails(old(reps)) ==> NoTails(reps)
    {
      var ready := ElectLeader();
      result := ReadFromLeader(key, ready);
    }

    method ElectLeader() returns (ok: bool)
      requires Valid()
      modifies this`leaderId, this`reps, this`calls, nodes
      ensures Valid() && State() == After(old(State()), EnsureLeader(old(State())))
      ensures calls == old(calls) + EnsureLeader(old(State())).calls
      ensures ok <==> CurrentLeader(old(State())) >= 0 || 2 * |OnlineSet(old(reps))| > |replicas|
      ensures ok <==> leaderId != ""
      ensures NoTails(old(reps)) ==> NoTails(reps)
    {
      ghost var s := State();
      ok := EnsureLeaderLocked();
      EnsureKeeps(s, hist);
    }

    method FindReplica(id: string) returns (i: int)
      ensures i == Locate(Ids(), id)
    {
      i := 0;
      while i < |replicas|
        invariant 0 <= i <= |replicas| && LocateFrom(Ids(), id, i) == Locate(Ids(), id)
      {
        if replicas[i].id == id {
          return;
        }
        i := i + 1;
      }
      return -1;
    }

    method FailReplica(id: string) returns (found: bool)
      requires Valid()
      modifies this`leaderId, this`reps, this`calls, nodes
      ensures Valid() && found == (id in Ids())
      ensures State() == After(old(State()), Protocol.Fail(old(State()), id))
      ensures calls == old(calls) + Protocol.Fail(old(State()), id).calls
      ensures NoTails(old(reps)) ==> NoTails(reps)
    {
      ghost var s := State();
      var i := FindReplica(id);
      LocateFinds(Ids(), id);
      if i >= 0 {
        TakeDown(i, id);
      }
      FailSummary(s, id, hist);
      return i >= 0;
    }

    method TakeDown(i: nat, id: string)
      requires Linked() && i == Locate(Ids(), id) && i < |replicas|
      modifies this`leaderId, this`reps, this`calls, nodes
      ensures Linked() && State() == After(old(State()), Protocol.Fail(old(State()), id))
      ensures calls == old(calls) + Protocol.Fail(old(State()), id).calls
    {
      RunOne(reps, CallSetOnline(i, false));
      SetOnline(i, false);
      if leaderId == id {
        leaderId := "";
      }
    }

    /** The leader, if there is one and it is another replica, sends replica i its snapshot. */
    method FollowLeader(i: nat, ready: bool)
      requires Linked() && i < |replicas| && Distinct(Ids())
      modifies this`reps, this`calls, nodes
      ensures Linked()
      ensures var sync := SyncFor(old(State()), i, ready, CurrentLeader(old(State())));
              reps == Run(old(reps), sync) && calls == old(calls) + sync
    {
      if ready {
        var l := FindLeader();
        if l >= 0 && replicas[l].id != replicas[i].id {
          assert Ids()[l] != Ids()[i];
          SyncFollower(i, l);
        } else {
          assert l >= 0 ==> Ids()[l] == Ids()[i];
        }
      }
    }

    /** After set_online(true): a leader if there can be one, and its snapshot to the replica. */
    method Rejoin(i: nat)
      requires Linked() && i < |replicas| && Distinct(Ids())
      modifies this`leaderId, this`reps, this`calls, nodes
      ensures Linked()
      ensures var rest := RecoverTail(old(State()), i);
              State() == After(old(State()), rest) && calls == old(calls) + rest.calls
    {
      ghost var s := State();
      var ready := EnsureLeaderLocked();
      ghost var e, s1 := EnsureLeader(s), State();
      TailUnfolds(s, i, e, s1, CurrentLeader(s1));
      Assoc(old(calls), e.calls, SyncFor(s1, i, ready, CurrentLeader(s1)));
      FollowLeader(i, ready);
    }

    method RecoverReplica(id: string) returns (found: bool)
      requires Valid()
      modifies this`leaderId, this`reps, this`calls, nodes
      ensures Valid() && found == (id in Ids())
      ensures State() == After(old(State()), Protocol.Recover(old(State()), id))
      ensures calls == old(calls) + Protocol.Recover(old(State()), id).calls
      ensures NoTails(old(reps)) ==> NoTails(reps)
    {
      ghost var s := State();
      var i := FindReplica(id);
      LocateFinds(Ids(), id);
      if i >= 0 {
        BringBack(i, id);
      }
      RecoverSummary(s, id, hist);
      return i >= 0;
    }

    method BringBack(i: nat, id: string)
      requires Linked() && i == Locate(Ids(), id) && i < |replicas| && Distinct(Ids())
      modifies this`leaderId, this`reps, this`calls, nodes
      ensures Linked() && State() == After(old(State()), Protocol.Recover(old(State()), id))
      ensures calls == old(calls) + Protocol.Recover(old(State()), id).calls
    {
      ghost var s, up := State(), CallSetOnline(i, true);
      SetOnline(i, true);
      ghost var rest := RecoverTail(State(), i).calls;
      RunConcat(s.reps, [up], rest);
      RunOne(s.reps, up);
      Assoc(old(calls), [up], rest);
      Rejoin(i);
    }
  }

  function InstallUnless(i: nat, c: nat, snap: Snapshot): seq<Call> {
    if i != c then [CallInstall(i, snap)] else []
  }

  /** A follower about to be synced, and the leader, are as they were. */
  lemma NotYetSynced(reps: seq<Replica>, on: seq<nat>, c: nat, snap: Snapshot, k: nat, now: seq<Replica>)
    requires c < |reps| && k < |on| && on[k] < |reps| && (forall i, j :: 0 <= i < j < |on| ==> on[i] < on[j])
    requires now == Run(reps, SyncCalls(on[..k], c, snap))
    ensures now[on[k]] == reps[on[k]] && now[c] == reps[c]
  {
    SyncActs(reps, on[..k], c, snap, on[k]);
    SyncActs(reps, on[..k], c, snap, c);
  }

  lemma NextSync(reps: seq<Replica>, on: seq<nat>, c: nat, snap: Snapshot, k: nat)
    requires k < |on|
    ensures SyncCalls(on[..k + 1], c, snap) == SyncCalls(on[..k], c, snap) + InstallUnless(on[k], c, snap)
    ensures Run(reps, SyncCalls(on[..k + 1], c, snap))
            == Run(Run(reps, SyncCalls(on[..k], c, snap)), InstallUnless(on[k], c, snap))
  {
    assert on[..k + 1][..k] == on[..k];
    RunConcat(reps, SyncCalls(on[..k], c, snap), InstallUnless(on[k], c, snap));
  }

  /** Voter k is asked after the k before it, none of whom it is. */
  lemma NextVoter(reps: seq<Replica>, on: seq<nat>, all: seq<Call>, k: nat)
    requires k < |on| == |all| && on[k] < |reps| && forall j :: 0 <= j < k ==> all[j].i != on[k]
    ensures all[..k + 1] == all[..k] + [all[k]]
    ensures Run(reps, all[..k] + [all[k]]) == Exec(Run(reps, all[..k]), all[k])
    ensures Run(reps, all[..k])[on[k]] == reps[on[k]]
  {
    Untouched(reps, all[..k], on[k]);
    RunSnoc(reps, all[..k], all[k]);
  }

  /** Where a write's calls come from, and the state they lead to. */
  lemma WriteUnfolds(s: ShardState, c: Command, e: Plan, s1: ShardState, l: int)
    requires |s.ids| == |s.reps| && e == EnsureLeader(s) && s1 == After(s, e) && l == CurrentLeader(s1)
    ensures e.status != Done ==> Write(s, c) == e
    ensures e.status == Done && l < 0 ==> Write(s, c) == Plan(e.calls, e.leader, Refused) && After(s, Write(s, c)) == s1
    ensures e.status == Done && l >= 0 ==>
              var w := WriteVia(s1, l, c);
                  Write(s, c) == Plan(e.calls + w.calls, w.leader, w.status) && After(s, Write(s, c)) == After(s1, w)
  {
    if l >= 0 { RunConcat(s.reps, e.calls, WriteVia(s1, l, c).calls); }
  }

  function SyncFor(s: ShardState, i: nat, ready: bool, l: int): seq<Call>
    requires i < |s.reps| && l < |s.reps|
  {
    if ready && l >= 0 && l != i && s.reps[i].online then [CallInstall(i, Export(s.reps[l]))] else []
  }

  /** What recover_replica does after set_online, and the state it leads to. */
  lemma TailUnfolds(s: ShardState, i: nat, e: Plan, s1: ShardState, l: int)
    requires |s.ids| == |s.reps| && i < |s.ids| && Distinct(s.ids) && e == EnsureLeader(s) && s1 == After(s, e)
             && l == CurrentLeader(s1)
    ensures var sync, rest := SyncFor(s1, i, e.status == Done, l), RecoverTail(s, i);
            rest.calls == e.calls + sync && rest.leader == e.leader
                && After(s, rest) == ShardState(s.ids, Run(s1.reps, sync), e.leader)
  {
    RunConcat(s.reps, e.calls, SyncFor(s1, i, e.status == Done, l));
  }

  lemma StoppedBootSafe(s: ShardState, disks: seq<Replica>, k: nat, H: seq<Entry>, reps: seq<Replica>)
    requires Shaped(ShardState(s.ids, disks, "")) && CrashSafe(disks, H) && s == Loaded(s.ids, disks)
    requires reps == Run(s.reps, Prefix(EnsureLeader(s).calls, k))
    ensures CrashSafe(reps, H)
  {
    BootKeeps(s, disks, H);
    StopKeeps(s, EnsureLeader(s).calls, k, H);
  }

  lemma BootSummary(s: ShardState, disks: seq<Replica>, H: seq<Entry>, after: ShardState)
    requires Shaped(s) && CrashSafe(disks, H) && s == Loaded(s.ids, disks) && after == After(s, EnsureLeader(s))
    ensures Between(after, H) && (NoTails(disks) ==> NoTails(after.reps))
  {
    BootKeeps(s, disks, H);
    assert NoTails(disks) ==> NoTails(s.reps);
  }

  lemma WriteSummary(s: ShardState, c: Command, H: seq<Entry>, after: ShardState, longer: seq<Entry>)
    requires Between(s, H) && Known(c) && after == After(s, Write(s, c)) && longer == HistoryAfter(s, c, H)
    ensures Between(after, longer) && (NoTails(s.reps) ==> NoTails(after.reps))
    ensures Write(s, c).status != Threw
    ensures Extends(s, c, H, Write(s, c).status, longer)
    ensures Write(s, c).status == Done ==> Commands(longer) == Commands(H) + LateCommands(s.reps) + [c]
    ensures NoTails(s.reps) ==> (Write(s, c).status == Done <==> HasQuorumOnline(s.reps))
  {
    WriteKeeps(s, c, H);
    WriteExtends(s, c, H);
    if Write(s, c).status == Done { WriteAddsLate(s, c, H, longer); }
  }

  /** The id a write's answer names: that of the leader it found, if it found one. */
  function LeaderNamed(s: ShardState): string
    requires |s.ids| == |s.reps|
  {
    var e := EnsureLeader(s);
    if e.status == Done && CurrentLeader(After(s, e)) >= 0 then e.leader else ""
  }

  lemma LeaderIsNamed(s: ShardState, c: Command, H: seq<Entry>)
    requires Between(s, H)
    ensures LeaderNamed(s) == Write(s, c).leader
  {
    EnsureKeeps(s, H);
    LeaderFound(After(s, EnsureLeader(s)), H);
  }

  lemma FailSummary(s: ShardState, id: string, H: seq<Entry>)
    requires Between(s, H)
    ensures Between(After(s, Protocol.Fail(s, id)), H)
    ensures NoTails(s.reps) ==> NoTails(After(s, Protocol.Fail(s, id)).reps)
    ensures id !in s.ids ==> After(s, Protocol.Fail(s, id)) == s && Protocol.Fail(s, id).calls == []
  {
    FailKeeps(s, id, H);
  }

  lemma RecoverSummary(s: ShardState, id: string, H: seq<Entry>)
    requires Between(s, H)
    ensures Between(After(s, Protocol.Recover(s, id)), H)
    ensures NoTails(s.reps) ==> NoTails(After(s, Protocol.Recover(s, id)).reps)
    ensures id !in s.ids ==> After(s, Protocol.Recover(s, id)) == s && Protocol.Recover(s, id).calls == []
  {
    RecoverKeeps(s, id, H);
  }

  lemma LeaderReads(r: Replica, H: seq<Entry>)
    requires Holds(r, H) && r.kv == Replay(H[..r.commit])
    ensures r.kv == Replay(H)
  {
    assert H[..|H|] == H;
  }

  /** 201 stored, 200 deleted, 503 refused; 500 is the default a thrown exception leaves. */
  function StatusCode(status: Status, command: Command): int {
    match status
    case Done => if command.name == DELETE then 200 else 201
    case Refused => 503
    case Threw => 500
  }

  lemma LeaderTermStays(s: ShardState, l: nat, c: Command)
    requires |s.ids| == |s.reps| && l < |s.reps|
    ensures Run(s.reps, SpreadCalls(s, l, c))[l].term == s.reps[l].term
  {
    var first := CallAppendLocal(l, c);
    var reps := Exec(s.reps, first);
    RunConcat(s.reps, [first], ReplicateCalls(reps, s.ids[l], l, NextEntry(s.reps[l], c), |reps|));
    RunOne(s.reps, first);
    ReplicateUntouched(reps, s.ids[l], l, NextEntry(s.reps[l], c), |reps|, l);
  }

  /** What follows the replication loop of a write, and the state it leads to. */
  lemma WriteViaUnfolds(s: ShardState, l: nat, c: Command, mid: ShardState)
    requires |s.ids| == |s.reps| && l < |s.reps| && CanAppend(s.reps[l])
    requires mid == ShardState(s.ids, Run(s.reps, SpreadCalls(s, l, c)), s.leader)
    ensures var e, w := NextEntry(s.reps[l], c), WriteVia(s, l, c);
            var acked := Acked(Exec(s.reps, CallAppendLocal(l, c)), l, e, |s.reps|);
            var refused := 1 + |acked| < Quorum(|s.reps|);
            var rest := if refused then RefuseCalls(l, acked)
                        else [CallCommitTo(l, e.index)] + HeartbeatCalls(acked, mid.reps[l].term, mid.ids[l], e);
            && w == Plan(SpreadCalls(s, l, c) + rest, s.leader, if refused then Refused else Done)
            && After(s, w) == After(mid, Plan(rest, s.leader, w.status))
  {
    LeaderTermStays(s, l, c);
    RunConcat(s.reps, SpreadCalls(s, l, c), WriteVia(s, l, c).calls[|SpreadCalls(s, l, c)|..]);
  }

  lemma PreparedCommit(f: Replica, leader: Replica)
    requires leader.commit <= |leader.log|
    ensures f.online ==> Prepared(f, leader).commit == leader.commit
  {
  }

  function TurnOf(reps: seq<Replica>, id: string, l: nat, e: Entry, f: nat): seq<Call>
    requires l < |reps| && f < |reps|
  {
    if IsFollower(reps, l, f) then FollowerCalls(f, reps[f], reps[l], id, e) else []
  }

  /** Follower f finds itself and the leader as they were when the loop began. */
  lemma NextFollower(reps: seq<Replica>, id: string, l: nat, e: Entry, f: nat, now: seq<Replica>)
    requires l < |reps| && f < |reps| && now == Run(reps, ReplicateCalls(reps, id, l, e, f))
    ensures now[f] == reps[f] && now[l] == reps[l] && TurnOf(now, id, l, e, f) == TurnOf(reps, id, l, e, f)
    ensures ReplicateCalls(reps, id, l, e, f + 1) == ReplicateCalls(reps, id, l, e, f) + TurnOf(now, id, l, e, f)
    ensures Run(reps, ReplicateCalls(reps, id, l, e, f + 1)) == Run(now, TurnOf(now, id, l, e, f))
  {
    ReplicateUntouched(reps, id, l, e, f, f);
    ReplicateUntouched(reps, id, l, e, f, l);
    RunConcat(reps, ReplicateCalls(reps, id, l, e, f), TurnOf(reps, id, l, e, f));
  }

  /** The loop has not yet touched replica i. */
  lemma ReplicateUntouched(reps: seq<Replica>, id: string, l: nat, e: Entry, n: nat, i: nat)
    requires l < |reps| && n <= |reps| && i < |reps| && (n <= i || i == l)
    ensures Run(reps, ReplicateCalls(reps, id, l, e, n))[i] == reps[i]
  {
    SpreadElsewhere(reps, id, l, e, n, i);
    Untouched(reps, ReplicateCalls(reps, id, l, e, n), i);
  }

  lemma {:induction false} SpreadElsewhere(reps: seq<Replica>, id: string, l: nat, e: Entry, n: nat, i: nat)
    requires l < |reps| && n <= |reps| && i < |reps| && (n <= i || i == l)
    ensures forall k :: 0 <= k < |ReplicateCalls(reps, id, l, e, n)| ==> ReplicateCalls(reps, id, l, e, n)[k].i != i
  {
    if n != 0 { SpreadElsewhere(reps, id, l, e, n - 1, i); }
  }

  lemma {:induction false} Untouched(reps: seq<Replica>, calls: seq<Call>, i: nat)
    requires i < |reps| && forall k :: 0 <= k < |calls| ==> calls[k].i != i
    ensures Run(reps, calls)[i] == reps[i]
  {
    if calls != [] { Untouched(reps, calls[..|calls| - 1], i); }
  }

  lemma {:induction false} SameOnlineSame(a: seq<Replica>, b: seq<Replica>, n: nat)
    requires SameOnline(a, b) && n <= |a|
    ensures OnlineUpTo(a, n) == OnlineUpTo(b, n)
  {
    if n != 0 { SameOnlineSame(a, b, n - 1); }
  }

  lemma CrownedOnline(reps: seq<Replica>, c: nat)
    ensures SameOnline(reps, Run(reps, CrownCalls(|reps|, c)))
  {
    OnlineThrough(reps, CrownCalls(|reps|, c));
  }

  lemma VotedOnline(s: ShardState, c: nat)
    requires |s.ids| == |s.reps| && c < |s.reps|
    ensures Online(Run(s.reps, VotingCalls(s, c))) == Online(s.reps)
  {
    OnlineThrough(s.reps, VotingCalls(s, c));
    SameOnlineSame(s.reps, Run(s.reps, VotingCalls(s, c)), |s.reps|);
  }

  /** Calls other than set_online leave the online flags alone. */
  lemma {:induction false} OnlineThrough(reps: seq<Replica>, calls: seq<Call>)
    requires forall k :: 0 <= k < |calls| ==> !calls[k].CallSetOnline?
    ensures SameOnline(reps, Run(reps, calls))
  {
    if calls != [] { OnlineThrough(reps, calls[..|calls| - 1]); }
  }
}
