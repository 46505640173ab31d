/** The shard as values: what each RaftReplica call does to a replica whose log is a sequence, and
    which calls each Shard operation makes, in order (src/raft.cpp, src/cluster.cpp).
    An operation is a plan: a list of calls, each changing one replica, plus the new leader id. */
module Protocol {
  import opened Log

  datatype Role = Follower | Candidate | Leader

  datatype Snapshot = Snapshot(term: int, commit: nat, log: seq<Entry>)

  datatype Replica = Replica(
    online: bool, role: Role, term: int, votedFor: string, commit: nat, kv: Table, log: seq<Entry>)

  const FRESH := Replica(true, Follower, 0, "", 0, map[], [])

  function Max(a: int, b: int): int { if a < b then b else a }
  function Min(a: int, b: int): int { if b < a then b else a }

  // ---------------------------------------------------------------- one replica

  function TermAt(r: Replica, index: int): int {
    if index == 0 then 0 else if 1 <= index <= |r.log| then r.log[index - 1].term else -1
  }

  function SetOnline(r: Replica, online: bool): Replica {
    if online then r.(online := true) else r.(online := false, role := Follower)
  }

  predicate LogIsCurrent(r: Replica, lastIndex: int, lastTerm: int) {
    lastTerm > LastTerm(r.log) || (lastTerm == LastTerm(r.log) && lastIndex >= |r.log|)
  }

  predicate Grants(r: Replica, term: int, candidate: string, lastIndex: int, lastTerm: int) {
    && r.online && term >= r.term
    && LogIsCurrent(r, lastIndex, lastTerm)
    && (term > r.term || r.votedFor == "" || r.votedFor == candidate)
  }

  function RequestVote(r: Replica, term: int, candidate: string, lastIndex: int, lastTerm: int): Replica {
    if !r.online || term < r.term then r
    else
      var r1 := if term > r.term then r.(term := term, votedFor := "", role := Follower) else r;
      if Grants(r, term, candidate, lastIndex, lastTerm) then r1.(votedFor := candidate) else r1
  }

  /** Put one received entry at its place: a different term there cuts the log first. */
  function Merge(log: seq<Entry>, e: Entry): seq<Entry> {
    if 1 <= e.index <= |log| then
      if log[e.index - 1].term != e.term then log[..e.index - 1] + [e] else log
    else log + [e]
  }

  function MergeAll(log: seq<Entry>, entries: seq<Entry>): seq<Entry> {
    if entries == [] then log
    else Merge(MergeAll(log, entries[..|entries| - 1]), entries[|entries| - 1])
  }

  function Advance(r: Replica, target: int): Replica {
    if r.commit < target <= |r.log|
    then r.(commit := target, kv := ApplyAll(r.kv, r.log[r.commit..target])) else r
  }

  predicate Matches(r: Replica, prevIndex: int, prevTerm: int) {
    prevIndex <= 0 || (prevIndex <= |r.log| && r.log[prevIndex - 1].term == prevTerm)
  }

  predicate Accepts(r: Replica, term: int, prevIndex: int, prevTerm: int) {
    r.online && term >= r.term && Matches(r, prevIndex, prevTerm)
  }

  function AppendEntries(r: Replica, term: int, leader: string, prevIndex: int, prevTerm: int,
                         entries: seq<Entry>, leaderCommit: int): Replica
  {
    if !r.online || term < r.term then r
    else
      var r1 := r.(term := term, role := Follower, votedFor := leader);
      if !Matches(r, prevIndex, prevTerm) then r1
      else
        var r2 := r1.(log := MergeAll(r.log, entries));
        Advance(r2, Min(leaderCommit, |r2.log|))
  }

  predicate CanAppend(r: Replica) { r.online && r.role == Leader }

  function NextEntry(r: Replica, c: Command): Entry { Entry(|r.log| + 1, r.term, c) }

  function AppendLocal(r: Replica, c: Command): Replica {
    if CanAppend(r) then r.(log := r.log + [NextEntry(r, c)]) else r
  }

  function CommitTo(r: Replica, index: int): Replica {
    if r.online then Advance(r, Min(index, |r.log|)) else r
  }

  function Discard(r: Replica): Replica {
    if r.commit <= |r.log| then r.(log := r.log[..r.commit]) else r
  }

  function Export(r: Replica): Snapshot {
    Snapshot(r.term, r.commit, if r.commit <= |r.log| then r.log[..r.commit] else r.log)
  }

  function Install(r: Replica, snap: Snapshot): Replica {
    if !r.online then r
    else
      var target := Min(snap.commit, |snap.log|);
      Replica(true, Follower, Max(r.term, snap.term), "", target, Replay(snap.log[..target]), snap.log)
  }

  /** A process restart: the disk stays, the role and the online flag do not. */
  function Reload(r: Replica): Replica { r.(online := true, role := Follower) }

  // ---------------------------------------------------------------- calls and plans

  datatype Call =
    | CallSetOnline(i: nat, online: bool)
    | CallSetRole(i: nat, role: Role)
    | CallRequestVote(i: nat, term: int, candidate: string, lastIndex: int, lastTerm: int)
    | CallInstall(i: nat, snap: Snapshot)
    | CallAppendLocal(i: nat, command: Command)
    | CallAppendEntries(i: nat, term: int, leader: string, prevIndex: int, prevTerm: int,
                        entries: seq<Entry>, leaderCommit: int)
    | CallCommitTo(i: nat, index: int)
    | CallDiscard(i: nat)

  function On(r: Replica, c: Call): Replica {
    match c
    case CallSetOnline(_, online) => SetOnline(r, online)
    case CallSetRole(_, role) => r.(role := role)
    case CallRequestVote(_, t, cand, li, lt) => RequestVote(r, t, cand, li, lt)
    case CallInstall(_, snap) => Install(r, snap)
    case CallAppendLocal(_, command) => AppendLocal(r, command)
    case CallAppendEntries(_, t, l, pi, pt, es, lc) => AppendEntries(r, t, l, pi, pt, es, lc)
    case CallCommitTo(_, index) => CommitTo(r, index)
    case CallDiscard(_) => Discard(r)
  }

  function Exec(reps: seq<Replica>, c: Call): (after: seq<Replica>)
    ensures |after| == |reps|
  {
    if c.i < |reps| then reps[c.i := On(reps[c.i], c)] else reps
  }

  function Run(reps: seq<Replica>, calls: seq<Call>): (after: seq<Replica>)
    ensures |after| == |reps|
  {
    if calls == [] then reps else Exec(Run(reps, calls[..|calls| - 1]), calls[|calls| - 1])
  }

  lemma {:induction false} RunConcat(reps: seq<Replica>, a: seq<Call>, b: seq<Call>)
    ensures Run(reps, a + b) == Run(Run(reps, a), b)
  {
    if b == [] {
      assert a + b == a;
    } else {
      RunConcat(reps, a, b[..|b| - 1]);
      assert (a + b)[..|a + b| - 1] == a + b[..|b| - 1];
    }
  }

  lemma RunOne(reps: seq<Replica>, c: Call)
    ensures Run(reps, [c]) == Exec(reps, c)
  {
    assert Run(reps, [c]) == Exec(Run(reps, []), c);
  }

  // ---------------------------------------------------------------- the shard

  datatype ShardState = ShardState(ids: seq<string>, reps: seq<Replica>, leader: string)

  datatype Plan = Plan(calls: seq<Call>, leader: string, status: Status)

  /** How an operation ends: done, refused (503), or an exception from append_local. */
  datatype Status = Done | Refused | Threw

  function After(s: ShardState, p: Plan): ShardState {
    ShardState(s.ids, Run(s.reps, p.calls), p.leader)
  }

  function Quorum(n: nat): nat { n / 2 + 1 }

  function OnlineUpTo(reps: seq<Replica>, n: nat): (on: seq<nat>)
    requires n <= |reps|
    ensures forall k :: 0 <= k < |on| ==> on[k] < n && reps[on[k]].online
    ensures forall j, k :: 0 <= j < k < |on| ==> on[j] < on[k]
    ensures forall i :: 0 <= i < n && reps[i].online ==> i in on
  {
    if n == 0 then [] else OnlineUpTo(reps, n - 1) + (if reps[n - 1].online then [n - 1] else [])
  }

  function Online(reps: seq<Replica>): (on: seq<nat>) { OnlineUpTo(reps, |reps|) }

  /** The first replica that carries the leader id and is online, or -1. */
  function CurrentLeaderFrom(s: ShardState, i: nat): (l: int)
    requires |s.ids| == |s.reps| && i <= |s.ids|
    ensures l == -1 || (i <= l < |s.ids| && s.ids[l] == s.leader && s.reps[l].online)
    ensures l == -1 ==> forall j :: i <= j < |s.ids| ==> !(s.ids[j] == s.leader && s.reps[j].online)
    decreases |s.ids| - i
  {
    if i == |s.ids| then -1
    else if s.ids[i] == s.leader && s.reps[i].online then i
    else CurrentLeaderFrom(s, i + 1)
  }

  function CurrentLeader(s: ShardState): int
    requires |s.ids| == |s.reps|
  {
    CurrentLeaderFrom(s, 0)
  }

  /** The candidate order: commit index, then last term, then last index. */
  predicate Less(a: Replica, b: Replica) {
    if a.commit != b.commit then a.commit < b.commit
    else if LastTerm(a.log) != LastTerm(b.log) then LastTerm(a.log) < LastTerm(b.log)
    else |a.log| < |b.log|
  }

  /** std::max_element: the first of the largest. */
  function Best(reps: seq<Replica>, on: seq<nat>): (b: nat)
    requires on != [] && forall k :: 0 <= k < |on| ==> on[k] < |reps|
    ensures b in on && forall k :: 0 <= k < |on| ==> !Less(reps[b], reps[on[k]])
  {
    if |on| == 1 then on[0]
    else
      var b := Best(reps, on[..|on| - 1]);
      var x := on[|on| - 1];
      assert forall k :: 0 <= k < |on| - 1 ==> on[k] == on[..|on| - 1][k];
      if Less(reps[b], reps[x]) then x else b
  }

  function NextTermUpTo(reps: seq<Replica>, n: nat): (t: int)
    requires n <= |reps|
    ensures 1 <= t && forall i :: 0 <= i < n ==> reps[i].term < t
  {
    if n == 0 then 1 else Max(NextTermUpTo(reps, n - 1), reps[n - 1].term + 1)
  }

  function NextTerm(reps: seq<Replica>): int { NextTermUpTo(reps, |reps|) }

  function VoteCalls(on: seq<nat>, term: int, candidate: string, li: int, lt: int): seq<Call> {
    seq(|on|, k requires 0 <= k < |on| => CallRequestVote(on[k], term, candidate, li, lt))
  }

  /** Votes collected over the first k online replicas; no vote changes what another voter answers. */
  function Votes(reps: seq<Replica>, on: seq<nat>, k: nat, term: int, candidate: string, li: int, lt: int): nat
    requires k <= |on| && forall j :: 0 <= j < |on| ==> on[j] < |reps|
  {
    if k == 0 then 0
    else Votes(reps, on, k - 1, term, candidate, li, lt)
         + (if Grants(reps[on[k - 1]], term, candidate, li, lt) then 1 else 0)
  }

  function RoleCalls(n: nat): seq<Call> { seq(n, i requires 0 <= i < n => CallSetRole(i, Follower)) }

  function SyncCalls(on: seq<nat>, leader: nat, snap: Snapshot): seq<Call> {
    if on == [] then []
    else SyncCalls(on[..|on| - 1], leader, snap)
         + (if on[|on| - 1] != leader then [CallInstall(on[|on| - 1], snap)] else [])
  }

  /** The calls of ensure_leader_locked up to and including the votes. */
  function VotingCalls(s: ShardState, c: nat): seq<Call>
    requires |s.ids| == |s.reps| && c < |s.reps|
  {
    [CallSetRole(c, Candidate)]
    + VoteCalls(Online(s.reps), NextTerm(s.reps), s.ids[c], |s.reps[c].log|, LastTerm(s.reps[c].log))
  }

  /** The calls after a won vote up to and including set_role(Leader). */
  function CrownCalls(n: nat, c: nat): seq<Call> { RoleCalls(n) + [CallSetRole(c, Leader)] }

  /** Everything after a won vote: roles, then a snapshot of the new leader to the others. */
  function InaugurateCalls(reps: seq<Replica>, on: seq<nat>, c: nat): seq<Call>
    requires c < |reps|
  {
    var crown := CrownCalls(|reps|, c);
    crown + SyncCalls(on, c, Export(Run(reps, crown)[c]))
  }

  /** The election of candidate c by the online replicas. */
  function Contest(s: ShardState, c: nat): Plan
    requires |s.ids| == |s.reps| && c < |s.reps|
  {
    var on := Online(s.reps);
    var voting := VotingCalls(s, c);
    var votes := Votes(Exec(s.reps, CallSetRole(c, Candidate)), on, |on|,
                       NextTerm(s.reps), s.ids[c], |s.reps[c].log|, LastTerm(s.reps[c].log));
    if votes < Quorum(|s.reps|) then Plan(voting + [CallSetRole(c, Follower)], "", Refused)
    else Plan(voting + InaugurateCalls(Run(s.reps, voting), on, c), s.ids[c], Done)
  }

  function EnsureLeader(s: ShardState): Plan
    requires |s.ids| == |s.reps|
  {
    var on := Online(s.reps);
    if CurrentLeader(s) >= 0 then Plan([], s.leader, Done)
    else if |on| < Quorum(|s.reps|) then Plan([], "", Refused)
    else Contest(s, Best(s.reps, on))
  }

  // ---------------------------------------------------------------- replicate_command_locked

  /** The index-only test: a follower that fails it is sent a snapshot first. */
  predicate InStep(f: Replica, leader: Replica) {
    f.commit == leader.commit && |f.log| == leader.commit
  }

  predicate IsFollower(reps: seq<Replica>, l: nat, f: nat)
    requires f < |reps|
  {
    f != l && reps[f].online
  }

  function Prepared(f: Replica, leader: Replica): Replica {
    if InStep(f, leader) then f else Install(f, Export(leader))
  }

  /** What follower f (in state r) is sent; `leader` already holds the new entry e. */
  function FollowerCalls(f: nat, r: Replica, leader: Replica, id: string, e: Entry): seq<Call> {
    (if InStep(r, leader) then [] else [CallInstall(f, Export(leader))]) + [Send(f, leader, id, e)]
  }

  function Send(f: nat, leader: Replica, id: string, e: Entry): Call {
    CallAppendEntries(f, leader.term, id, e.index - 1, TermAt(leader, e.index - 1), [e], leader.commit)
  }

  predicate Acks(r: Replica, leader: Replica, e: Entry) {
    Accepts(Prepared(r, leader), leader.term, e.index - 1, TermAt(leader, e.index - 1))
  }

  function ReplicateCalls(reps: seq<Replica>, id: string, l: nat, e: Entry, n: nat): seq<Call>
    requires l < |reps| && n <= |reps|
  {
    if n == 0 then []
    else ReplicateCalls(reps, id, l, e, n - 1)
         + (if IsFollower(reps, l, n - 1) then FollowerCalls(n - 1, reps[n - 1], reps[l], id, e) else [])
  }

  /** The acknowledging followers among the first n; no follower changes what another answers. */
  function Acked(reps: seq<Replica>, l: nat, e: Entry, n: nat): (acked: seq<nat>)
    requires l < |reps| && n <= |reps|
    ensures forall k :: 0 <= k < |acked| ==> acked[k] < n && IsFollower(reps, l, acked[k])
    ensures forall j, k :: 0 <= j < k < |acked| ==> acked[j] < acked[k]
  {
    if n == 0 then []
    else Acked(reps, l, e, n - 1)
         + (if IsFollower(reps, l, n - 1) && Acks(reps[n - 1], reps[l], e) then [n - 1] else [])
  }

  function DiscardCalls(fs: seq<nat>): seq<Call> {
    seq(|fs|, k requires 0 <= k < |fs| => CallDiscard(fs[k]))
  }

  function HeartbeatCalls(fs: seq<nat>, term: int, id: string, e: Entry): seq<Call> {
    seq(|fs|, k requires 0 <= k < |fs| => CallAppendEntries(fs[k], term, id, e.index, e.term, [], e.index))
  }

  /** The calls up to the moment the acknowledgements are counted. */
  function SpreadCalls(s: ShardState, l: nat, c: Command): seq<Call>
    requires |s.ids| == |s.reps| && l < |s.reps|
  {
    var reps := Exec(s.reps, CallAppendLocal(l, c));
    [CallAppendLocal(l, c)] + ReplicateCalls(reps, s.ids[l], l, NextEntry(s.reps[l], c), |reps|)
  }

  /** replicate_command_locked once a leader l is known. */
  function WriteVia(s: ShardState, l: nat, c: Command): Plan
    requires |s.ids| == |s.reps| && l < |s.reps|
  {
    if !CanAppend(s.reps[l]) then Plan([], s.leader, Threw)
    else
      var e := NextEntry(s.reps[l], c);
      var acked := Acked(Exec(s.reps, CallAppendLocal(l, c)), l, e, |s.reps|);
      var spread := SpreadCalls(s, l, c);
      if 1 + |acked| < Quorum(|s.reps|) then
        Plan(spread + ([CallDiscard(l)] + DiscardCalls(acked)), s.leader, Refused)
      else
        Plan(spread + ([CallCommitTo(l, e.index)] + HeartbeatCalls(acked, s.reps[l].term, s.ids[l], e)), s.leader, Done)
  }

  function Write(s: ShardState, c: Command): Plan
    requires |s.ids| == |s.reps|
  {
    var p := EnsureLeader(s);
    if p.status != Done then p
    else
      var s1 := After(s, p);
      var l := CurrentLeader(s1);
      if l < 0 then Plan(p.calls, p.leader, Refused)
      else
        var w := WriteVia(s1, l, c);
        Plan(p.calls + w.calls, w.leader, w.status)
  }

  // ---------------------------------------------------------------- fail, recover, boot

  /** The first replica with this id, or -1. */
  function LocateFrom(ids: seq<string>, id: string, i: nat): (k: int)
    requires i <= |ids|
    ensures k == -1 || (i <= k < |ids| && ids[k] == id)
    ensures k == -1 ==> id !in ids[i..]
    decreases |ids| - i
  {
    if i == |ids| then -1 else if ids[i] == id then i else LocateFrom(ids, id, i + 1)
  }

  function Locate(ids: seq<string>, id: string): int { LocateFrom(ids, id, 0) }

  function Fail(s: ShardState, id: string): Plan {
    var i := Locate(s.ids, id);
    if i < 0 then Plan([], s.leader, Refused)
    else Plan([CallSetOnline(i, false)], if s.leader == id then "" else s.leader, Done)
  }

  /** recover_replica after set_online(true). */
  function RecoverTail(s: ShardState, i: nat): Plan
    requires |s.ids| == |s.reps| && i < |s.ids|
  {
    var e := EnsureLeader(s);
    var s1 := After(s, e);
    var l := CurrentLeader(s1);
    var sync := if e.status == Done && l >= 0 && s.ids[l] != s.ids[i] && s1.reps[i].online
                then [CallInstall(i, Export(s1.reps[l]))] else [];
    Plan(e.calls + sync, e.leader, Done)
  }

  function Recover(s: ShardState, id: string): Plan
    requires |s.ids| == |s.reps|
  {
    var i := Locate(s.ids, id);
    if i < 0 then Plan([], s.leader, Refused)
    else
      var up := CallSetOnline(i, true);
      var rest := RecoverTail(ShardState(s.ids, Exec(s.reps, up), s.leader), i);
      Plan([up] + rest.calls, rest.leader, Done)
  }

  function ReloadAll(reps: seq<Replica>): seq<Replica> {
    seq(|reps|, i requires 0 <= i < |reps| => Reload(reps[i]))
  }

  /** A shard just after construction of its replicas and before the constructor's election. */
  function Loaded(ids: seq<string>, disks: seq<Replica>): ShardState { ShardState(ids, ReloadAll(disks), "") }
}
