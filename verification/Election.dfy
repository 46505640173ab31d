/** Elections (ensure_leader_locked): the candidate order and the voters' order agree, so an
    election with a majority online collects every online vote, and the winner holds all of H. */
module Election {
  import opened Log
  import opened Protocol
  import opened Safety

  // ---------------------------------------------------------------- who wins

  /** Some online replica holds the whole history; implied by quorum intersection. */
  ghost predicate OnlineHolder(reps: seq<Replica>, H: seq<Entry>) {
    exists i :: 0 <= i < |reps| && reps[i].online && Holds(reps[i], H)
  }

  lemma QuorumHasHolder(s: ShardState, H: seq<Entry>)
    requires Between(s, H) && HasQuorumOnline(s.reps)
    ensures OnlineHolder(s.reps, H)
  {
    var i := QuorumsMeet(Holders(s.reps, H), OnlineSet(s.reps), |s.reps|);
  }

  /** NotAhead is exactly what a voter checks. */
  lemma HolderIsCurrentFor(c: Replica, r: Replica, H: seq<Entry>)
    requires ReplicaSafe(c, H) && ReplicaSafe(r, H) && Holds(c, H) && !Less(c, r)
    ensures LogIsCurrent(r, |c.log|, LastTerm(c.log))
  {
    if !Holds(r, H) {
      WellFormedPrefix(c.log, c.commit);
      assert H[..|H|] == H;
      NotAheadTransitive(r.log, H, c.log);
    }
  }

  /** The two orders never disagree: whoever is best by commit index satisfies every voter. */
  lemma BestSatisfiesVoters(reps: seq<Replica>, H: seq<Entry>)
    requires CrashSafe(reps, H) && OnlineHolder(reps, H)
    ensures Online(reps) != []
    ensures var c := Best(reps, Online(reps));
            && reps[c].online && Holds(reps[c], H)
            && forall i :: 0 <= i < |reps| && reps[i].online ==>
                 LogIsCurrent(reps[i], |reps[c].log|, LastTerm(reps[c].log))
  {
    var h :| 0 <= h < |reps| && reps[h].online && Holds(reps[h], H);
    var on := Online(reps);
    assert h in on;
    var c := Best(reps, on);
    assert !Less(reps[c], reps[h]) && ReplicaSafe(reps[c], H) && ReplicaSafe(reps[h], H);
    forall i | 0 <= i < |reps| && reps[i].online
      ensures LogIsCurrent(reps[i], |reps[c].log|, LastTerm(reps[c].log))
    {
      assert i in on && ReplicaSafe(reps[i], H);
      HolderIsCurrentFor(reps[c], reps[i], H);
    }
  }

  lemma {:induction false} AllVotes(reps: seq<Replica>, on: seq<nat>, k: nat, term: int, id: string, li: int, lt: int)
    requires k <= |on| && forall j :: 0 <= j < |on| ==> on[j] < |reps|
    requires forall j :: 0 <= j < |on| ==> Grants(reps[on[j]], term, id, li, lt)
    ensures Votes(reps, on, k, term, id, li, lt) == k
  {
    if k != 0 { AllVotes(reps, on, k - 1, term, id, li, lt); }
  }

  // ---------------------------------------------------------------- what each phase leaves behind

  function Voted(r: Replica, term: int, id: string): Replica {
    if r.online then r.(term := term, votedFor := id, role := Follower) else r
  }

  lemma VoteActs(reps: seq<Replica>, on: seq<nat>, term: int, id: string, li: int, lt: int, i: nat)
    requires forall j, k :: 0 <= j < k < |on| ==> on[j] < on[k]
    requires i < |reps| && reps[i].term < term
    requires i in on ==> reps[i].online && LogIsCurrent(reps[i], li, lt)
    ensures Run(reps, VoteCalls(on, term, id, li, lt))[i]
         == if i in on then reps[i].(term := term, votedFor := id, role := Follower) else reps[i]
  {
    var votes := VoteCalls(on, term, id, li, lt);
    SweepActs(reps, votes, i);
    if i in on {
      var k :| 0 <= k < |on| && on[k] == i;
      assert votes[k].i == i;
    }
  }

  lemma VotingActs(s: ShardState, c: nat, i: nat)
    requires |s.ids| == |s.reps| && c < |s.reps| && i < |s.reps| && s.reps[c].online
    requires s.reps[i].online ==> LogIsCurrent(s.reps[i], |s.reps[c].log|, LastTerm(s.reps[c].log))
    ensures Run(s.reps, VotingCalls(s, c))[i] == Voted(s.reps[i], NextTerm(s.reps), s.ids[c])
  {
    var first := CallSetRole(c, Candidate);
    var on, term, id := Online(s.reps), NextTerm(s.reps), s.ids[c];
    var li, lt := |s.reps[c].log|, LastTerm(s.reps[c].log);
    RunConcat(s.reps, [first], VoteCalls(on, term, id, li, lt));
    RunOne(s.reps, first);
    VoteActs(Exec(s.reps, first), on, term, id, li, lt, i);
  }

  /** What the last call of a plan does to replica i. */
  lemma LastActs(reps: seq<Replica>, calls: seq<Call>, c: Call, i: nat)
    requires i < |reps|
    ensures Run(reps, calls + [c])[i] == if c.i == i then On(Run(reps, calls)[i], c) else Run(reps, calls)[i]
  {
    assert (calls + [c])[..|calls|] == calls;
  }

  lemma RoleActs(reps: seq<Replica>, i: nat)
    requires i < |reps|
    ensures Run(reps, RoleCalls(|reps|))[i] == reps[i].(role := Follower)
  {
    SweepActs(reps, RoleCalls(|reps|), i);
    assert RoleCalls(|reps|)[i].i == i;
  }

  lemma CrownActs(reps: seq<Replica>, c: nat, i: nat)
    requires c < |reps| && i < |reps|
    ensures Run(reps, CrownCalls(|reps|, c))[i] == reps[i].(role := if i == c then Leader else Follower)
  {
    RoleActs(reps, i);
    LastActs(reps, RoleCalls(|reps|), CallSetRole(c, Leader), i);
  }

  lemma {:induction false} SyncActs(reps: seq<Replica>, on: seq<nat>, l: nat, snap: Snapshot, i: nat)
    requires forall j, k :: 0 <= j < k < |on| ==> on[j] < on[k]
    requires i < |reps|
    ensures Run(reps, SyncCalls(on, l, snap))[i] == if i in on && i != l then Install(reps[i], snap) else reps[i]
  {
    if on != [] {
      var n := |on| - 1;
      var front := SyncCalls(on[..n], l, snap);
      SyncActs(reps, on[..n], l, snap, i);
      assert i in on <==> i in on[..n] || i == on[n];
      if on[n] != l {
        LastActs(reps, front, CallInstall(on[n], snap), i);
      } else {
        assert SyncCalls(on, l, snap) == front;
      }
    }
  }

  lemma {:induction false} SyncHarmless(on: seq<nat>, l: nat, snap: Snapshot, H: seq<Entry>)
    requires snap.commit == |H| && snap.log == H && LastTerm(H) <= snap.term
    ensures forall k :: 0 <= k < |SyncCalls(on, l, snap)| ==> Harmless(SyncCalls(on, l, snap)[k], H)
  {
    if on != [] { SyncHarmless(on[..|on| - 1], l, snap, H); }
  }

  // ---------------------------------------------------------------- the whole election

  /** What a replica is after the election of c at `term`. */
  function Elected(reps: seq<Replica>, ids: seq<string>, c: nat, H: seq<Entry>, i: nat): Replica
    requires |ids| == |reps| && c < |reps| && i < |reps|
  {
    var term := NextTerm(reps);
    if i == c then reps[c].(term := term, votedFor := ids[c], role := Leader)
    else if reps[i].online then Replica(true, Follower, term, "", |H|, Replay(H), H)
    else reps[i].(role := Follower)
  }

  lemma WinnerExports(r: Replica, H: seq<Entry>)
    requires Sound(r, H) && Holds(r, H)
    ensures Export(r) == Snapshot(r.term, |H|, H)
    ensures LastTerm(H) <= r.term
  {
    assert H[..|H|] == H;
    WellFormedPrefix(r.log, r.commit);
  }

  /** A majority and a holder online: the best candidate gets every online vote. */
  lemma ElectionWon(s: ShardState, H: seq<Entry>)
    requires Shaped(s) && CrashSafe(s.reps, H) && OnlineHolder(s.reps, H)
    ensures Online(s.reps) != []
    ensures var c := Best(s.reps, Online(s.reps));
            Votes(Exec(s.reps, CallSetRole(c, Candidate)), Online(s.reps), |Online(s.reps)|,
                  NextTerm(s.reps), s.ids[c], |s.reps[c].log|, LastTerm(s.reps[c].log)) == |Online(s.reps)|
  {
    BestSatisfiesVoters(s.reps, H);
    var on := Online(s.reps);
    var c := Best(s.reps, on);
    AllVotes(Exec(s.reps, CallSetRole(c, Candidate)), on, |on|, NextTerm(s.reps), s.ids[c],
             |s.reps[c].log|, LastTerm(s.reps[c].log));
  }

  /** The calls of a won election, in which every follower is sent H. */
  function ElectionCalls(s: ShardState, c: nat, H: seq<Entry>): seq<Call>
    requires |s.ids| == |s.reps| && c < |s.reps|
  {
    VotingCalls(s, c) + CrownCalls(|s.reps|, c)
    + SyncCalls(Online(s.reps), c, Snapshot(NextTerm(s.reps), |H|, H))
  }

  /** The plan of a won election, phase by phase. */
  lemma ElectionPlan(s: ShardState, H: seq<Entry>)
    requires Shaped(s) && CrashSafe(s.reps, H) && OnlineHolder(s.reps, H)
    requires CurrentLeader(s) < 0 && HasQuorumOnline(s.reps)
    ensures Online(s.reps) != []
    ensures var c := Best(s.reps, Online(s.reps));
            && s.reps[c].online && Holds(s.reps[c], H)
            && LastTerm(H) <= NextTerm(s.reps)
            && EnsureLeader(s) == Plan(ElectionCalls(s, c, H), s.ids[c], Done)
  {
    ElectionWon(s, H);
    BestSatisfiesVoters(s.reps, H);
    OnlineLength(s.reps);
    var c := Best(s.reps, Online(s.reps));
    assert ReplicaSafe(s.reps[c], H);
    ContestCalls(s, c, H);
  }

  lemma ContestCalls(s: ShardState, c: nat, H: seq<Entry>)
    requires |s.ids| == |s.reps| && c < |s.reps| && s.reps[c].online && Sound(s.reps[c], H) && Holds(s.reps[c], H)
    ensures VotingCalls(s, c) + InaugurateCalls(Run(s.reps, VotingCalls(s, c)), Online(s.reps), c)
            == ElectionCalls(s, c, H)
    ensures LastTerm(H) <= NextTerm(s.reps)
  {
    var voting, crown := VotingCalls(s, c), CrownCalls(|s.reps|, c);
    VotingActs(s, c, c);
    CrownActs(Run(s.reps, voting), c, c);
    WinnerExports(Run(Run(s.reps, voting), crown)[c], H);
    var sync := SyncCalls(Online(s.reps), c, Snapshot(NextTerm(s.reps), |H|, H));
    assert voting + (crown + sync) == voting + crown + sync;
  }

  lemma ElectionActs(s: ShardState, c: nat, H: seq<Entry>, i: nat)
    requires |s.ids| == |s.reps| && c < |s.reps| && i < |s.reps| && s.reps[c].online
    requires s.reps[i].online ==> LogIsCurrent(s.reps[i], |s.reps[c].log|, LastTerm(s.reps[c].log))
    ensures Run(s.reps, ElectionCalls(s, c, H))[i] == Elected(s.reps, s.ids, c, H, i)
  {
    var on, snap := Online(s.reps), Snapshot(NextTerm(s.reps), |H|, H);
    var voting, crown, sync := VotingCalls(s, c), CrownCalls(|s.reps|, c), SyncCalls(on, c, snap);
    RunConcat(s.reps, voting, crown);
    RunConcat(s.reps, voting + crown, sync);
    VotingActs(s, c, i);
    CrownActs(Run(s.reps, voting), c, i);
    SyncActs(Run(s.reps, voting + crown), on, c, snap, i);
    assert H[..|H|] == H;
  }

  lemma ElectionInterruptible(s: ShardState, c: nat, H: seq<Entry>)
    requires |s.ids| == |s.reps| && c < |s.reps|
    requires CrashSafe(s.reps, H) && LastTerm(H) <= NextTerm(s.reps)
    ensures AllAlong(s.reps, ElectionCalls(s, c, H), H)
  {
    SyncHarmless(Online(s.reps), c, Snapshot(NextTerm(s.reps), |H|, H), H);
    HarmlessAllAlong(s.reps, ElectionCalls(s, c, H), H);
  }

  /** An election with a majority and a holder online always succeeds, is safe to interrupt
      anywhere, and ends as Elected says. */
  lemma ElectionSucceeds(s: ShardState, H: seq<Entry>)
    requires Shaped(s) && CrashSafe(s.reps, H) && OnlineHolder(s.reps, H)
    requires CurrentLeader(s) < 0 && HasQuorumOnline(s.reps)
    ensures Online(s.reps) != []
    ensures var p, c := EnsureLeader(s), Best(s.reps, Online(s.reps));
            && p.status == Done && p.leader == s.ids[c] && Holds(s.reps[c], H) && s.reps[c].online
            && AllAlong(s.reps, p.calls, H)
            && forall i :: 0 <= i < |s.reps| ==> Run(s.reps, p.calls)[i] == Elected(s.reps, s.ids, c, H, i)
  {
    ElectionPlan(s, H);
    BestSatisfiesVoters(s.reps, H);
    var c := Best(s.reps, Online(s.reps));
    ElectionInterruptible(s, c, H);
    forall i | 0 <= i < |s.reps|
      ensures Run(s.reps, ElectionCalls(s, c, H))[i] == Elected(s.reps, s.ids, c, H, i)
    {
      ElectionActs(s, c, H, i);
    }
  }

  // ---------------------------------------------------------------- what an election keeps

  /** The online flags, which no call but set_online touches. */
  ghost predicate SameOnline(a: seq<Replica>, b: seq<Replica>) {
    |a| == |b| && forall i :: 0 <= i < |a| ==> a[i].online == b[i].online
  }

  /** A leader id names the one online leader, and current_leader_locked finds it. */
  lemma LeaderFound(s: ShardState, H: seq<Entry>)
    requires Shaped(s) && LeaderSafe(s, H)
    ensures CurrentLeader(s) >= 0 <==> s.leader != ""
    ensures CurrentLeader(s) >= 0 ==> Leads(s.reps, CurrentLeader(s), H)
  {
  }

  lemma GrewHolders(before: seq<Replica>, after: seq<Replica>, H: seq<Entry>)
    requires Grew(before, after, H)
    ensures |Holders(before, H)| <= |Holders(after, H)|
  {
    SubsetSize(Holders(before, H), Holders(after, H));
  }

  /** Everything later proofs need to know about one replica after an election at `term`. */
  ghost predicate CrownedOne(r: Replica, after: Replica, term: int, isLeader: bool, H: seq<Entry>) {
    && (after.role == Leader <==> isLeader)
    && after.online == r.online
    && r.term <= after.term <= term
    && (Holds(r, H) || r.online ==> Holds(after, H))
    && (|after.log| > |H| ==> LastTerm(after.log) < term)
    && (|r.log| == r.commit ==> |after.log| == after.commit)
  }

  lemma ElectedOne(s: ShardState, c: nat, H: seq<Entry>, i: nat)
    requires |s.ids| == |s.reps| && c < |s.reps| && i < |s.reps| && Holds(s.reps[c], H)
    requires LastTerm(s.reps[i].log) <= s.reps[i].term
    ensures CrownedOne(s.reps[i], Elected(s.reps, s.ids, c, H, i), NextTerm(s.reps), i == c, H)
  {
  }

  lemma ElectedLeads(s: ShardState, c: nat, H: seq<Entry>, after: seq<Replica>)
    requires Shaped(s) && CrashSafe(s.reps, H) && c < |s.reps| && s.reps[c].online && Holds(s.reps[c], H)
    requires |after| == |s.reps| && forall i :: 0 <= i < |after| ==> after[i] == Elected(s.reps, s.ids, c, H, i)
    ensures forall i :: 0 <= i < |after| ==> CrownedOne(s.reps[i], after[i], NextTerm(s.reps), i == c, H)
    ensures Leads(after, c, H)
  {
    forall i | 0 <= i < |after|
      ensures CrownedOne(s.reps[i], after[i], NextTerm(s.reps), i == c, H)
    {
      assert ReplicaSafe(s.reps[i], H);
      ElectedOne(s, c, H, i);
    }
    assert after[c].term == NextTerm(s.reps);
  }

  lemma CrownedKeeps(s: ShardState, c: nat, H: seq<Entry>, after: seq<Replica>, term: int)
    requires Shaped(s) && |after| == |s.reps| && c < |after| && Leads(after, c, H)
    requires forall i :: 0 <= i < |after| ==> CrownedOne(s.reps[i], after[i], term, i == c, H)
    ensures LeaderSafe(ShardState(s.ids, after, s.ids[c]), H)
    ensures Grew(s.reps, after, H) && SameOnline(s.reps, after)
    ensures NoTails(s.reps) ==> NoTails(after)
  {
  }

  lemma ElectionKeeps(s: ShardState, H: seq<Entry>)
    requires Shaped(s) && CrashSafe(s.reps, H) && OnlineHolder(s.reps, H)
    requires CurrentLeader(s) < 0 && HasQuorumOnline(s.reps)
    ensures var p := EnsureLeader(s);
            var after := Run(s.reps, p.calls);
            && p.status == Done && p.leader != ""
            && AllAlong(s.reps, p.calls, H) && CrashSafe(after, H)
            && LeaderSafe(After(s, p), H)
            && Grew(s.reps, after, H) && SameOnline(s.reps, after)
            && (forall i :: 0 <= i < |after| && s.reps[i].online ==> Holds(after[i], H))
            && (NoTails(s.reps) ==> NoTails(after))
  {
    var p := EnsureLeader(s);
    ElectionSucceeds(s, H);
    AllAlongEnds(s.reps, p.calls, H);
    var after, c := Run(s.reps, p.calls), Best(s.reps, Online(s.reps));
    ElectedLeads(s, c, H, after);
    CrownedKeeps(s, c, H, after, NextTerm(s.reps));
  }

  /** ensure_leader_locked on a running shard: it succeeds exactly when a leader is online or a
      majority is, and then the leader holds the whole committed history. */
  lemma EnsureKeeps(s: ShardState, H: seq<Entry>)
    requires Between(s, H)
    ensures var p := EnsureLeader(s);
            && (p.status == Done <==> CurrentLeader(s) >= 0 || HasQuorumOnline(s.reps))
            && (p.status == Done || p.status == Refused)
            && (p.status == Done <==> p.leader != "")
            && AllAlong(s.reps, p.calls, H)
            && Between(After(s, p), H)
            && SameOnline(s.reps, After(s, p).reps)
            && (NoTails(s.reps) ==> NoTails(After(s, p).reps))
  {
    LeaderFound(s, H);
    OnlineLength(s.reps);
    var p := EnsureLeader(s);
    if CurrentLeader(s) < 0 && HasQuorumOnline(s.reps) {
      QuorumHasHolder(s, H);
      ElectionKeeps(s, H);
      GrewHolders(s.reps, Run(s.reps, p.calls), H);
    } else {
      HarmlessAllAlong(s.reps, [], H);
    }
  }

  lemma ReloadSafe(disks: seq<Replica>, H: seq<Entry>)
    requires CrashSafe(disks, H)
    ensures CrashSafe(ReloadAll(disks), H)
  {
    var reps := ReloadAll(disks);
    forall i | 0 <= i < |reps| ensures ReplicaSafe(reps[i], H) {
      assert ReplicaSafe(disks[i], H);
    }
    var h :| 0 <= h < |disks| && Holds(disks[h], H);
    assert Holds(reps[h], H);
  }

  lemma EveryoneOnline(reps: seq<Replica>)
    requires 1 <= |reps| && forall i :: 0 <= i < |reps| ==> reps[i].online
    ensures |OnlineSet(reps)| == |reps| && HasQuorumOnline(reps)
  {
    AllBelow(OnlineSet(reps), |reps|);
  }

  lemma {:induction false} AllBelow(a: set<nat>, n: nat)
    requires forall i: nat :: i in a <==> i < n
    ensures |a| == n
  {
    if n == 0 {
      assert a == {};
    } else {
      AllBelow(a - {n - 1}, n - 1);
    }
  }

  lemma LoadedReady(ids: seq<string>, disks: seq<Replica>, H: seq<Entry>)
    requires Shaped(ShardState(ids, disks, "")) && CrashSafe(disks, H)
    ensures var s := Loaded(ids, disks);
            && Shaped(s) && CrashSafe(s.reps, H) && OnlineHolder(s.reps, H)
            && CurrentLeader(s) < 0 && HasQuorumOnline(s.reps)
  {
    var s := Loaded(ids, disks);
    ReloadSafe(disks, H);
    EveryoneOnline(s.reps);
    var h :| 0 <= h < |s.reps| && Holds(s.reps[h], H);
    assert s.reps[h].online;
  }

  lemma EveryoneHolds(reps: seq<Replica>, H: seq<Entry>)
    requires 1 <= |reps| && forall i :: 0 <= i < |reps| ==> Holds(reps[i], H)
    ensures 2 * |Holders(reps, H)| > |reps|
  {
    AllBelow(Holders(reps, H), |reps|);
  }

  /** What a restart promises about the state it starts from (s) and ends in. */
  ghost predicate Booted(s: ShardState, p: Plan, H: seq<Entry>) {
    && p.status == Done && p.leader != ""
    && AllAlong(s.reps, p.calls, H)
    && Between(After(s, p), H)
    && (forall i :: 0 <= i < |s.reps| ==> After(s, p).reps[i].online && Holds(After(s, p).reps[i], H))
    && (NoTails(s.reps) ==> NoTails(After(s, p).reps))
  }

  lemma BootedFrom(s: ShardState, p: Plan, H: seq<Entry>)
    requires Shaped(s) && p.status == Done && p.leader != ""
    requires AllAlong(s.reps, p.calls, H) && LeaderSafe(After(s, p), H)
    requires SameOnline(s.reps, Run(s.reps, p.calls))
    requires forall i :: 0 <= i < |s.reps| ==> s.reps[i].online && Holds(Run(s.reps, p.calls)[i], H)
    requires NoTails(s.reps) ==> NoTails(Run(s.reps, p.calls))
    ensures Booted(s, p, H)
  {
    AllAlongEnds(s.reps, p.calls, H);
    EveryoneHolds(Run(s.reps, p.calls), H);
  }

  lemma EveryoneElects(s: ShardState, H: seq<Entry>)
    requires Shaped(s) && CrashSafe(s.reps, H) && OnlineHolder(s.reps, H)
    requires CurrentLeader(s) < 0 && HasQuorumOnline(s.reps)
    requires forall i :: 0 <= i < |s.reps| ==> s.reps[i].online
    ensures Booted(s, EnsureLeader(s), H)
  {
    ElectionKeeps(s, H);
    BootedFrom(s, EnsureLeader(s), H);
  }

  /** Restart: from any state a stop can leave behind, the constructor's election succeeds, may
      itself be interrupted, and leaves every replica online and holding all of H. */
  lemma BootKeeps(s: ShardState, disks: seq<Replica>, H: seq<Entry>)
    requires Shaped(ShardState(s.ids, disks, "")) && CrashSafe(disks, H) && s == Loaded(s.ids, disks)
    ensures Booted(s, EnsureLeader(s), H)
  {
    LoadedReady(s.ids, disks, H);
    EveryoneElects(s, H);
  }
}
