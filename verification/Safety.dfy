/** What every call keeps, and what every completed operation keeps, stated over one committed
    history H. A stop may fall between any two calls, so the first kind of invariant has to hold
    after every prefix of a plan. */
module Safety {
  import opened Log
  import opened Protocol

  // ---------------------------------------------------------------- invariants

  /** The committed part of a replica is a piece of H, its table is that piece replayed. */
  ghost predicate Sound(r: Replica, H: seq<Entry>) {
    && r.commit <= |H| && r.commit <= |r.log|
    && r.log[..r.commit] == H[..r.commit]
    && r.kv == Replay(H[..r.commit])
    && WellFormed(r.log)
    && LastTerm(r.log) <= r.term
  }

  /** A replica that lacks some of H also looks, to voters, no better than H. */
  ghost predicate ReplicaSafe(r: Replica, H: seq<Entry>) {
    Sound(r, H) && (r.commit < |H| ==> NotAhead(r.log, H))
  }

  predicate Holds(r: Replica, H: seq<Entry>) { r.commit == |H| }

  /** Holds after every prefix of every plan; enough to restart from. */
  ghost predicate CrashSafe(reps: seq<Replica>, H: seq<Entry>) {
    && WellFormed(H)
    && (forall i {:trigger ReplicaSafe(reps[i], H)} :: 0 <= i < |reps| ==> ReplicaSafe(reps[i], H))
    && (exists i :: 0 <= i < |reps| && Holds(reps[i], H))
  }

  ghost predicate AllAlong(reps: seq<Replica>, calls: seq<Call>, H: seq<Entry>) {
    forall k {:trigger CrashSafe(Run(reps, calls[..k]), H)} :: 0 <= k <= |calls| ==> CrashSafe(Run(reps, calls[..k]), H)
  }

  ghost predicate Distinct(ids: seq<string>) {
    && (forall i :: 0 <= i < |ids| ==> ids[i] != "")
    && (forall i, j :: 0 <= i < j < |ids| ==> ids[i] != ids[j])
  }

  function Holders(reps: seq<Replica>, H: seq<Entry>): set<nat> {
    set i: nat | i < |reps| && Holds(reps[i], H)
  }

  function OnlineSet(reps: seq<Replica>): set<nat> {
    set i: nat | i < |reps| && reps[i].online
  }

  /** The number the code compares with is the least that is more than half. */
  lemma QuorumIsMajority(n: nat, k: nat)
    ensures k >= Quorum(n) <==> 2 * k > n
  {
  }

  /** More than half of the replicas. */
  predicate HasQuorumOnline(reps: seq<Replica>) { 2 * |OnlineSet(reps)| > |reps| }

  /** l leads: it is online, holds all of H, its term is maximal, and whatever any replica has
      beyond H comes from an older term. */
  ghost predicate Leads(reps: seq<Replica>, l: nat, H: seq<Entry>)
    requires l < |reps|
  {
    && reps[l].online && reps[l].role == Leader && Holds(reps[l], H) && 1 <= reps[l].term
    && (forall i :: 0 <= i < |reps| ==> reps[i].term <= reps[l].term)
    && (forall i :: 0 <= i < |reps| && |reps[i].log| > |H| ==> LastTerm(reps[i].log) < reps[l].term)
  }

  ghost predicate Shaped(s: ShardState) {
    |s.ids| == |s.reps| && 1 <= |s.reps| && Distinct(s.ids)
  }

  /** Leader id, roles and terms between operations. */
  ghost predicate LeaderSafe(s: ShardState, H: seq<Entry>)
    requires |s.ids| == |s.reps|
  {
    && (forall i :: 0 <= i < |s.reps| ==> (s.reps[i].role == Leader <==> s.ids[i] == s.leader))
    && (s.leader != "" ==> exists l :: 0 <= l < |s.reps| && s.ids[l] == s.leader && Leads(s.reps, l, H))
  }

  /** Holds between operations of a running shard. */
  ghost predicate Between(s: ShardState, H: seq<Entry>) {
    && Shaped(s)
    && CrashSafe(s.reps, H)
    && 2 * |Holders(s.reps, H)| > |s.reps|
    && LeaderSafe(s, H)
  }

  /** No replica carries anything beyond its commit index. */
  predicate NoTails(reps: seq<Replica>) {
    forall i :: 0 <= i < |reps| ==> |reps[i].log| == reps[i].commit
  }

  // ---------------------------------------------------------------- AllAlong

  lemma AllAlongEnds(reps: seq<Replica>, calls: seq<Call>, H: seq<Entry>)
    requires AllAlong(reps, calls, H)
    ensures CrashSafe(Run(reps, calls), H)
  {
    assert calls[..|calls|] == calls;
  }

  lemma AllAlongConcat(reps: seq<Replica>, a: seq<Call>, b: seq<Call>, H: seq<Entry>)
    requires AllAlong(reps, a, H) && AllAlong(Run(reps, a), b, H)
    ensures AllAlong(reps, a + b, H) && Run(reps, a + b) == Run(Run(reps, a), b)
  {
    RunConcat(reps, a, b);
    forall k | 0 <= k <= |a + b| ensures CrashSafe(Run(reps, (a + b)[..k]), H) {
      if k <= |a| {
        assert (a + b)[..k] == a[..k];
      } else {
        assert (a + b)[..k] == a + b[..k - |a|];
        RunConcat(reps, a, b[..k - |a|]);
      }
    }
  }

  lemma AllAlongSnoc(reps: seq<Replica>, calls: seq<Call>, H: seq<Entry>)
    requires calls != [] && AllAlong(reps, calls[..|calls| - 1], H)
    requires CrashSafe(Run(reps, calls), H)
    ensures AllAlong(reps, calls, H)
  {
    forall k | 0 <= k <= |calls| ensures CrashSafe(Run(reps, calls[..k]), H) {
      if k == |calls| {
        assert calls[..k] == calls;
      } else {
        assert calls[..k] == calls[..|calls| - 1][..k];
      }
    }
  }

  lemma AllAlongOne(reps: seq<Replica>, c: Call, H: seq<Entry>)
    requires CrashSafe(reps, H) && CrashSafe(Exec(reps, c), H)
    ensures AllAlong(reps, [c], H) && Run(reps, [c]) == Exec(reps, c)
  {
    assert [c][..0] == [] && [c][..1] == [c];
    RunOne(reps, c);
  }

  /** What a run of calls never takes away: what a replica holds, and its term. */
  ghost predicate Grew(before: seq<Replica>, after: seq<Replica>, H: seq<Entry>) {
    && |after| == |before|
    && (forall i :: 0 <= i < |before| && Holds(before[i], H) ==> Holds(after[i], H))
    && (forall i :: 0 <= i < |before| ==> before[i].term <= after[i].term)
  }

  /** A replica may change in any way that keeps it safe and lets it keep what it held. */
  lemma UpdateSafe(reps: seq<Replica>, i: nat, r: Replica, H: seq<Entry>)
    requires i < |reps| && CrashSafe(reps, H)
    requires ReplicaSafe(r, H) && reps[i].term <= r.term
    requires Holds(reps[i], H) ==> Holds(r, H)
    ensures CrashSafe(reps[i := r], H) && Grew(reps, reps[i := r], H)
  {
    var after := reps[i := r];
    forall k | 0 <= k < |reps| ensures ReplicaSafe(after[k], H) {
      if k != i { assert ReplicaSafe(reps[k], H); }
    }
    var h :| 0 <= h < |reps| && Holds(reps[h], H);
    assert Holds(after[h], H);
  }

  // ---------------------------------------------------------------- calls that are safe at any time

  /** Calls that keep every safe replica safe, whatever its state. */
  ghost predicate Harmless(c: Call, H: seq<Entry>) {
    match c
    case CallSetOnline(_, _) => true
    case CallSetRole(_, _) => true
    case CallRequestVote(_, _, _, _, _) => true
    case CallDiscard(_) => true
    case CallInstall(_, snap) => snap.commit == |H| && snap.log == H && LastTerm(H) <= snap.term
    case _ => false
  }

  lemma HarmlessKeeps(r: Replica, c: Call, H: seq<Entry>)
    requires WellFormed(H) && ReplicaSafe(r, H) && Harmless(c, H)
    ensures ReplicaSafe(On(r, c), H)
    ensures Holds(r, H) ==> Holds(On(r, c), H)
    ensures On(r, c).term >= r.term
  {
    match c
    case CallDiscard(_) =>
      WellFormedPrefix(r.log, r.commit);
      if r.commit < |H| { NotAheadTransitive(r.log[..r.commit], r.log, H); }
    case CallInstall(_, snap) =>
      assert H[..|H|] == H;
    case _ =>
  }

  lemma HarmlessStep(reps: seq<Replica>, c: Call, H: seq<Entry>)
    requires CrashSafe(reps, H) && Harmless(c, H)
    ensures CrashSafe(Exec(reps, c), H) && Grew(reps, Exec(reps, c), H)
  {
    if c.i < |reps| {
      HarmlessKeeps(reps[c.i], c, H);
      UpdateSafe(reps, c.i, On(reps[c.i], c), H);
    }
  }

  lemma {:induction false} HarmlessAllAlong(reps: seq<Replica>, calls: seq<Call>, H: seq<Entry>)
    requires CrashSafe(reps, H)
    requires forall k :: 0 <= k < |calls| ==> Harmless(calls[k], H)
    ensures AllAlong(reps, calls, H) && Grew(reps, Run(reps, calls), H)
  {
    if calls == [] {
      assert forall k :: 0 <= k <= 0 ==> calls[..k] == [];
    } else {
      var n := |calls| - 1;
      HarmlessAllAlong(reps, calls[..n], H);
      AllAlongEnds(reps, calls[..n], H);
      HarmlessStep(Run(reps, calls[..n]), calls[n], H);
      AllAlongSnoc(reps, calls, H);
    }
  }

  // ---------------------------------------------------------------- sweeps

  ghost predicate Sweep(calls: seq<Call>) {
    forall j, k :: 0 <= j < k < |calls| ==> calls[j].i != calls[k].i
  }

  /** A plan with at most one call per replica acts on each replica separately. */
  lemma {:induction false} SweepActs(reps: seq<Replica>, calls: seq<Call>, i: nat)
    requires Sweep(calls) && i < |reps|
    ensures forall k :: 0 <= k < |calls| && calls[k].i == i ==> Run(reps, calls)[i] == On(reps[i], calls[k])
    ensures (forall k :: 0 <= k < |calls| ==> calls[k].i != i) ==> Run(reps, calls)[i] == reps[i]
  {
    if calls != [] {
      var n := |calls| - 1;
      var front := calls[..n];
      assert forall k :: 0 <= k < n ==> front[k] == calls[k];
      SweepActs(reps, front, i);
      if calls[n].i == i {
        assert forall k :: 0 <= k < n ==> front[k].i != i;
      }
    }
  }

  /** A sweep whose every call keeps its replica safe is safe to interrupt anywhere. */
  lemma {:induction false} SweepAllAlong(reps: seq<Replica>, calls: seq<Call>, H: seq<Entry>)
    requires Sweep(calls) && CrashSafe(reps, H)
    requires forall k :: 0 <= k < |calls| ==> calls[k].i < |reps| && SafeFor(reps[calls[k].i], calls[k], H)
    ensures AllAlong(reps, calls, H)
  {
    if calls == [] {
      HarmlessAllAlong(reps, calls, H);
    } else {
      var n := |calls| - 1;
      var front, c := calls[..n], calls[n];
      SweepAllAlong(reps, front, H);
      AllAlongEnds(reps, front, H);
      SweepActs(reps, front, c.i);
      assert Run(reps, front)[c.i] == reps[c.i];
      UpdateSafe(Run(reps, front), c.i, On(reps[c.i], c), H);
      AllAlongSnoc(reps, calls, H);
    }
  }

  ghost predicate SafeFor(r: Replica, c: Call, H: seq<Entry>) {
    ReplicaSafe(On(r, c), H) && r.term <= On(r, c).term && (Holds(r, H) ==> Holds(On(r, c), H))
  }

  // ---------------------------------------------------------------- counting

  lemma SubsetSize<T>(a: set<T>, b: set<T>)
    requires a <= b
    ensures |a| <= |b|
  {
    assert b == a + (b - a);
  }

  lemma {:induction false} SizeUpTo(a: set<nat>, n: nat)
    requires forall i :: i in a ==> i < n
    ensures |a| <= n
  {
    if n == 0 {
      assert a == {};
    } else {
      SizeUpTo(a - {n - 1}, n - 1);
    }
  }

  /** Two majorities of the same n replicas share one. */
  lemma QuorumsMeet(a: set<nat>, b: set<nat>, n: nat) returns (i: nat)
    requires forall i :: i in a ==> i < n
    requires forall i :: i in b ==> i < n
    requires 2 * |a| > n && 2 * |b| > n
    ensures i in a && i in b
  {
    SizeUpTo(a + b, n);
    assert |a + b| == |a| + |b| - |a * b|;
    assert a * b != {};
    i :| i in a * b;
  }

  function OnlineBelow(reps: seq<Replica>, n: nat): set<nat>
    requires n <= |reps|
  {
    set i: nat | i < n && reps[i].online
  }

  lemma OnlineBelowStep(reps: seq<Replica>, n: nat)
    requires 0 < n <= |reps|
    ensures |OnlineBelow(reps, n)| == |OnlineBelow(reps, n - 1)| + (if reps[n - 1].online then 1 else 0)
  {
    if reps[n - 1].online {
      assert OnlineBelow(reps, n) == OnlineBelow(reps, n - 1) + {n - 1};
    } else {
      assert OnlineBelow(reps, n) == OnlineBelow(reps, n - 1);
    }
  }

  lemma {:induction false} OnlineCount(reps: seq<Replica>, n: nat)
    requires n <= |reps|
    ensures |OnlineUpTo(reps, n)| == |OnlineBelow(reps, n)|
  {
    if n != 0 {
      OnlineCount(reps, n - 1);
      OnlineBelowStep(reps, n);
    }
  }

  lemma OnlineLength(reps: seq<Replica>)
    ensures |Online(reps)| == |OnlineSet(reps)|
  {
    OnlineCount(reps, |reps|);
    assert OnlineSet(reps) == OnlineBelow(reps, |reps|);
  }
}
