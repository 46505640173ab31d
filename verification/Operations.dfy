/** What each public shard operation keeps, and what it answers (src/cluster.cpp:25-109). */
module Operations {
  import opened Log
  import opened Protocol
  import opened Safety
  import opened Election
  import opened Writes

  // ---------------------------------------------------------------- writes

  lemma OutcomeOne(s: ShardState, l: nat, H: seq<Entry>, longer: seq<Entry>, i: nat)
    requires Shaped(s) && l < |s.reps| && i < |s.reps| && Leads(s.reps, l, H) && |H| <= |longer|
    ensures var r := Outcome(s, l, longer, i);
            && r.online == s.reps[i].online
            && (r.role == Leader ==> s.reps[i].role == Leader) && (i == l ==> r.role == Leader)
            && s.reps[i].term <= r.term <= s.reps[l].term
            && (|r.log| > |longer| ==> LastTerm(r.log) < s.reps[l].term)
            && (s.reps[i].online ==> Holds(r, longer))
            && (longer == H && Holds(s.reps[i], H) ==> Holds(r, longer))
            && (s.reps[i].online || |s.reps[i].log| == s.reps[i].commit ==> |r.log| == r.commit)
  {
  }

  lemma OutcomeKeeps(s: ShardState, l: nat, H: seq<Entry>, longer: seq<Entry>, after: ShardState)
    requires Between(s, H) && l < |s.reps| && Leads(s.reps, l, H) && s.ids[l] == s.leader && H <= longer
    requires longer != H ==> HasQuorumOnline(s.reps)
    requires after.ids == s.ids && after.leader == s.leader && |after.reps| == |s.reps| && CrashSafe(after.reps, longer)
    requires forall i :: 0 <= i < |s.reps| ==> after.reps[i] == Outcome(s, l, longer, i)
    ensures Between(after, longer) && SameOnline(s.reps, after.reps)
    ensures NoTails(s.reps) ==> NoTails(after.reps)
    ensures |after.reps[l].log| == |longer| && Leads(after.reps, l, longer)
  {
    forall i | 0 <= i < |s.reps|
      ensures after.reps[i].online == s.reps[i].online && after.reps[i].term <= s.reps[l].term
      ensures after.reps[i].role == Leader <==> i == l
      ensures |after.reps[i].log| > |longer| ==> LastTerm(after.reps[i].log) < s.reps[l].term
      ensures s.reps[i].online ==> Holds(after.reps[i], longer)
      ensures longer == H && Holds(s.reps[i], H) ==> Holds(after.reps[i], longer)
      ensures NoTails(s.reps) ==> |after.reps[i].log| == after.reps[i].commit
    {
      OutcomeOne(s, l, H, longer, i);
    }
    if longer == H {
      SubsetSize(Holders(s.reps, H), Holders(after.reps, longer));
    } else {
      SubsetSize(OnlineSet(s.reps), Holders(after.reps, longer));
    }
  }

  /** The shard and leader a write works with once ensure_leader_locked is through. */
  function Ready(s: ShardState): ShardState
    requires |s.ids| == |s.reps|
  {
    After(s, EnsureLeader(s))
  }

  /** The committed history after a write. */
  function HistoryAfter(s: ShardState, c: Command, H: seq<Entry>): seq<Entry>
    requires |s.ids| == |s.reps|
  {
    var l := CurrentLeader(Ready(s));
    if Write(s, c).status == Done && l >= 0
    then Ready(s).reps[l].log + [NextEntry(Ready(s).reps[l], c)] else H
  }

  /** The number of calls after which an interrupted write counts as committed. */
  function CommitCut(s: ShardState, c: Command): nat
    requires |s.ids| == |s.reps|
  {
    var l := CurrentLeader(Ready(s));
    |EnsureLeader(s).calls| + if l >= 0 then |SpreadCalls(Ready(s), l, c)| else 0
  }

  /** How a write extends the history. */
  ghost predicate WriteGrowth(s: ShardState, c: Command, H: seq<Entry>, status: Status, longer: seq<Entry>) {
    && (status == Done || status == Refused)
    && H <= longer && (status == Refused ==> longer == H)
    && (status == Done ==> |longer| > |H| && longer[|longer| - 1].command == c)
    && (status == Done && (|s.reps| >= 2 || NoTails(s.reps)) ==> |longer| == |H| + 1)
  }

  /** When it succeeds. */
  ghost predicate WriteSuccess(s: ShardState, H: seq<Entry>, status: Status) {
    && (status == Done ==> HasQuorumOnline(s.reps))
    && (NoTails(s.reps) && HasQuorumOnline(s.reps) ==> status == Done)
    && (LeaderTailless(s, H) && HasQuorumOnline(s.reps) ==> status == Done)
  }

  ghost predicate WriteAnswer(s: ShardState, c: Command, H: seq<Entry>, status: Status, longer: seq<Entry>) {
    WriteGrowth(s, c, H, status, longer) && WriteSuccess(s, H, status)
  }

  /** The shard a write leaves behind. */
  ghost predicate WriteState(s: ShardState, after: ShardState, longer: seq<Entry>) {
    && Between(after, longer) && SameOnline(s.reps, after.reps)
    && (NoTails(s.reps) ==> NoTails(after.reps))
    && (HasQuorumOnline(s.reps) ==> LeaderTailless(after, longer))
  }

  /** The shard has a leader, and it carries nothing beyond the history. */
  ghost predicate LeaderTailless(s: ShardState, H: seq<Entry>) {
    && |s.ids| == |s.reps|
    && exists l :: 0 <= l < |s.ids| && s.ids[l] == s.leader && Leads(s.reps, l, H) && |s.reps[l].log| == |H|
  }

  lemma GrowthFrom(s: ShardState, c: Command, H: seq<Entry>, s1: ShardState, l: nat, w: Plan)
    requires Between(s, H) && Between(s1, H) && SameOnline(s.reps, s1.reps) && (NoTails(s.reps) ==> NoTails(s1.reps))
    requires s.leader != "" ==> s1 == s
    requires 0 <= l < |s1.reps| && Leads(s1.reps, l, H) && s1.ids[l] == s1.leader && Wrote(s1, l, c, H, w)
    ensures WriteGrowth(s, c, H, w.status, Longer(s1, l, c, H, w.status))
  {
    assert ReplicaSafe(s1.reps[l], H);
    assert H[..|H|] == H;
  }

  /** The leader a shard has is unique: its ids are distinct. */
  lemma TaillessIsLeader(s: ShardState, H: seq<Entry>, l: nat)
    requires Shaped(s) && l < |s.reps| && s.ids[l] == s.leader
    ensures LeaderTailless(s, H) ==> |s.reps[l].log| == |H|
  {
  }

  lemma SuccessFrom(s: ShardState, H: seq<Entry>, s1: ShardState, l: nat, status: Status)
    requires Shaped(s) && Shaped(s1) && SameOnline(s.reps, s1.reps) && (NoTails(s.reps) ==> NoTails(s1.reps))
    requires s.leader != "" ==> s1 == s
    requires 0 <= l < |s1.reps| && Holds(s1.reps[l], H) && s1.ids[l] == s1.leader
    requires status == Done <==> HasQuorumOnline(s1.reps) && (|s1.reps| == 1 || |s1.reps[l].log| == |H|)
    ensures WriteSuccess(s, H, status)
  {
    assert OnlineSet(s.reps) == OnlineSet(s1.reps);
    if s.leader != "" { TaillessIsLeader(s, H, l); }
  }

  lemma AnswerFrom(s: ShardState, c: Command, H: seq<Entry>, s1: ShardState, l: nat, w: Plan)
    requires Between(s, H) && Between(s1, H) && SameOnline(s.reps, s1.reps) && (NoTails(s.reps) ==> NoTails(s1.reps))
    requires s.leader != "" ==> s1 == s
    requires 0 <= l < |s1.reps| && Leads(s1.reps, l, H) && s1.ids[l] == s1.leader && Wrote(s1, l, c, H, w)
    ensures WriteAnswer(s, c, H, w.status, Longer(s1, l, c, H, w.status))
  {
    GrowthFrom(s, c, H, s1, l, w);
    SuccessFrom(s, H, s1, l, w.status);
  }

  lemma StateFrom(s: ShardState, c: Command, H: seq<Entry>, s1: ShardState, l: nat, w: Plan)
    requires SameOnline(s.reps, s1.reps) && (NoTails(s.reps) ==> NoTails(s1.reps)) && Between(s1, H)
    requires 0 <= l < |s1.reps| && Leads(s1.reps, l, H) && s1.ids[l] == s1.leader && Wrote(s1, l, c, H, w)
    ensures WriteState(s, After(s1, w), Longer(s1, l, c, H, w.status))
  {
    assert ReplicaSafe(s1.reps[l], H);
    assert H[..|H|] == H;
    OutcomeKeeps(s1, l, H, Longer(s1, l, c, H, w.status), After(s1, w));
  }

  /** Everything a write promises: its answer, the state it leaves, and what a stop in it leaves. */
  ghost predicate WritePromise(s: ShardState, c: Command, H: seq<Entry>, p: Plan, longer: seq<Entry>, cut: nat) {
    && WriteAnswer(s, c, H, p.status, longer)
    && WriteState(s, After(s, p), longer)
    && Turns(s.reps, p.calls, cut, H, longer)
  }

  lemma PromiseFrom(s: ShardState, c: Command, H: seq<Entry>, p: Plan, s1: ShardState, l: nat, w: Plan, q: Plan,
                    cut: nat)
    requires Between(s, H) && AllAlong(s.reps, p.calls, H) && s1 == After(s, p)
    requires Between(s1, H) && SameOnline(s.reps, s1.reps) && (NoTails(s.reps) ==> NoTails(s1.reps))
    requires s.leader != "" ==> s1 == s
    requires 0 <= l < |s1.reps| && Leads(s1.reps, l, H) && s1.ids[l] == s1.leader && Wrote(s1, l, c, H, w)
    requires q == Plan(p.calls + w.calls, w.leader, w.status) && cut == |p.calls| + |SpreadCalls(s1, l, c)|
    ensures WritePromise(s, c, H, q, Longer(s1, l, c, H, w.status), cut)
  {
    AnswerFrom(s, c, H, s1, l, w);
    StateFrom(s, c, H, s1, l, w);
    TurnsAfter(s.reps, p.calls, w.calls, |SpreadCalls(s1, l, c)|, H, Longer(s1, l, c, H, w.status));
  }

  lemma WriteWithLeader(s: ShardState, c: Command, H: seq<Entry>, p: Plan, s1: ShardState, l: nat)
    requires Between(s, H) && Known(c) && p == EnsureLeader(s) && p.status == Done
    requires s1 == After(s, p) && l == CurrentLeader(s1)
    ensures WritePromise(s, c, H, Write(s, c), HistoryAfter(s, c, H), CommitCut(s, c))
  {
    EnsureKeeps(s, H);
    LeaderFound(s1, H);
    LeaderFound(s, H);
    WriteViaKeeps(s1, l, c, H);
    var w := WriteVia(s1, l, c);
    assert Write(s, c) == Plan(p.calls + w.calls, w.leader, w.status);
    assert HistoryAfter(s, c, H) == Longer(s1, l, c, H, w.status);
    PromiseFrom(s, c, H, p, s1, l, w, Write(s, c), CommitCut(s, c));
  }

  lemma WriteKeeps(s: ShardState, c: Command, H: seq<Entry>)
    requires Between(s, H) && Known(c)
    ensures WritePromise(s, c, H, Write(s, c), HistoryAfter(s, c, H), CommitCut(s, c))
  {
    EnsureKeeps(s, H);
    var p := EnsureLeader(s);
    if p.status == Done {
      LeaderFound(After(s, p), H);
      WriteWithLeader(s, c, H, p, After(s, p), CurrentLeader(After(s, p)));
    } else {
      TurnsNever(s.reps, p.calls, CommitCut(s, c), H);
    }
  }

  /** How a write extends the history, without the rest of its promise. */
  ghost predicate Extends(s: ShardState, c: Command, H: seq<Entry>, status: Status, longer: seq<Entry>) {
    && (status == Done || status == Refused)
    && H <= longer && (status == Refused ==> longer == H)
    && (status == Done ==> |longer| > |H| && longer[|longer| - 1].command == c)
    && (|s.reps| >= 2 || NoTails(s.reps) ==> Commands(longer) == Commands(H) + (if status == Done then [c] else []))
  }

  lemma ExtendsFrom(s: ShardState, c: Command, H: seq<Entry>, status: Status, longer: seq<Entry>)
    requires WriteAnswer(s, c, H, status, longer)
    ensures Extends(s, c, H, status, longer)
  {
    if status == Done && |longer| == |H| + 1 { assert longer == H + [longer[|H|]]; }
  }

  lemma WriteExtends(s: ShardState, c: Command, H: seq<Entry>)
    requires Between(s, H) && Known(c)
    ensures Extends(s, c, H, Write(s, c).status, HistoryAfter(s, c, H))
  {
    WriteKeeps(s, c, H);
    ExtendsFrom(s, c, H, Write(s, c).status, HistoryAfter(s, c, H));
  }

  /** With a majority online, the write right after a refused one succeeds. */
  lemma NextWriteSucceeds(s: ShardState, first: Command, second: Command, H: seq<Entry>)
    requires Between(s, H) && Known(first) && Known(second) && HasQuorumOnline(s.reps)
    requires Write(s, first).status == Refused
    ensures Write(After(s, Write(s, first)), second).status == Done
  {
    WriteKeeps(s, first, H);
    var s1 := After(s, Write(s, first));
    assert OnlineSet(s.reps) == OnlineSet(s1.reps);
    WriteKeeps(s1, second, H);
  }

  // ---------------------------------------------------------------- fail and recover

  lemma LocateFinds(ids: seq<string>, id: string)
    ensures var i := Locate(ids, id); -1 <= i < |ids| && (i >= 0 ==> ids[i] == id) && (i < 0 ==> id !in ids)
  {
    assert ids[0..] == ids;
  }

  /** A single call that harms no replica. */
  lemma OneCallKeeps(reps: seq<Replica>, c: Call, H: seq<Entry>, after: seq<Replica>)
    requires CrashSafe(reps, H) && Harmless(c, H) && after == Exec(reps, c)
    ensures Run(reps, [c]) == after && AllAlong(reps, [c], H) && CrashSafe(after, H)
    ensures |Holders(reps, H)| <= |Holders(after, H)|
  {
    RunOne(reps, c);
    HarmlessAllAlong(reps, [c], H);
    AllAlongEnds(reps, [c], H);
    GrewHolders(reps, after, H);
  }

  lemma DownKeeps(s: ShardState, i: nat, H: seq<Entry>)
    requires Between(s, H) && i < |s.reps|
    ensures var down := CallSetOnline(i, false);
            && AllAlong(s.reps, [down], H) && Run(s.reps, [down]) == s.reps[i := SetOnline(s.reps[i], false)]
            && Between(ShardState(s.ids, Run(s.reps, [down]), if s.leader == s.ids[i] then "" else s.leader), H)
  {
    var down := CallSetOnline(i, false);
    OneCallKeeps(s.reps, down, H, Exec(s.reps, down));
    FailLeaderSafe(s, i, H);
  }

  /** Replica ids are distinct, so taking one down takes that one only. */
  lemma OnlineWithout(s: ShardState, i: nat)
    requires Shaped(s) && i < |s.reps|
    ensures OnlineSet(s.reps[i := SetOnline(s.reps[i], false)])
            == OnlineSet(s.reps) - (set k: nat | k < |s.ids| && s.ids[k] == s.ids[i])
  {
  }

  lemma FailKeeps(s: ShardState, id: string, H: seq<Entry>)
    requires Between(s, H)
    ensures var p := Fail(s, id);
            && (p.status == Done <==> id in s.ids)
            && AllAlong(s.reps, p.calls, H) && Between(After(s, p), H)
            && (NoTails(s.reps) ==> NoTails(After(s, p).reps))
            && OnlineSet(After(s, p).reps) == OnlineSet(s.reps) - (set i: nat | i < |s.ids| && s.ids[i] == id)
  {
    LocateFinds(s.ids, id);
    var i := Locate(s.ids, id);
    if i >= 0 {
      DownKeeps(s, i, H);
      OnlineWithout(s, i);
    } else {
      HarmlessAllAlong(s.reps, [], H);
      assert OnlineSet(s.reps) - (set i: nat | i < |s.ids| && s.ids[i] == id) == OnlineSet(s.reps);
    }
  }

  lemma FailLeaderSafe(s: ShardState, i: nat, H: seq<Entry>)
    requires Shaped(s) && LeaderSafe(s, H) && i < |s.reps|
    ensures LeaderSafe(ShardState(s.ids, s.reps[i := SetOnline(s.reps[i], false)],
                                  if s.leader == s.ids[i] then "" else s.leader), H)
  {
    var reps := s.reps[i := SetOnline(s.reps[i], false)];
    if s.leader != "" && s.leader != s.ids[i] {
      var l :| 0 <= l < |s.reps| && s.ids[l] == s.leader && Leads(s.reps, l, H);
      assert Leads(reps, l, H);
    }
  }

  lemma UpKeeps(s: ShardState, i: nat, H: seq<Entry>)
    requires Between(s, H) && i < |s.reps|
    ensures AllAlong(s.reps, [CallSetOnline(i, true)], H)
    ensures Between(ShardState(s.ids, Exec(s.reps, CallSetOnline(i, true)), s.leader), H)
  {
    var reps := Exec(s.reps, CallSetOnline(i, true));
    OneCallKeeps(s.reps, CallSetOnline(i, true), H, reps);
    assert LeaderSafe(ShardState(s.ids, reps, s.leader), H) by { UpLeaderSafe(s, i, H); }
  }

  lemma UpLeaderSafe(s: ShardState, i: nat, H: seq<Entry>)
    requires Shaped(s) && LeaderSafe(s, H) && i < |s.reps|
    ensures LeaderSafe(ShardState(s.ids, s.reps[i := SetOnline(s.reps[i], true)], s.leader), H)
  {
    var reps := s.reps[i := SetOnline(s.reps[i], true)];
    if s.leader != "" {
      var l :| 0 <= l < |s.reps| && s.ids[l] == s.leader && Leads(s.reps, l, H);
      assert Leads(reps, l, H);
    }
  }

  /** A snapshot from the leader brings any other online replica level with the history. */
  lemma SyncKeeps(s: ShardState, l: nat, i: nat, H: seq<Entry>)
    requires Between(s, H) && l < |s.reps| && i < |s.reps| && i != l && s.ids[l] == s.leader && Leads(s.reps, l, H)
    requires s.reps[i].online
    ensures var sync := [CallInstall(i, Export(s.reps[l]))];
            && AllAlong(s.reps, sync, H) && Between(ShardState(s.ids, Run(s.reps, sync), s.leader), H)
            && Run(s.reps, sync) == s.reps[i := Committed(s.reps[l].term, "", H)]
  {
    assert ReplicaSafe(s.reps[l], H);
    WinnerExports(s.reps[l], H);
    var sync := CallInstall(i, Export(s.reps[l]));
    assert H[..|H|] == H;
    OneCallKeeps(s.reps, sync, H, Exec(s.reps, sync));
    assert Leads(Exec(s.reps, sync), l, H);
  }

  /** What recover_replica promises for the replica at i. */
  ghost predicate Recovered(s: ShardState, i: nat, H: seq<Entry>, p: Plan) {
    && AllAlong(s.reps, p.calls, H) && Between(After(s, p), H)
    && (NoTails(s.reps) ==> NoTails(After(s, p).reps))
    && i < |s.reps| && After(s, p).reps[i].online
    && (p.leader != "" ==> Holds(After(s, p).reps[i], H))
  }

  lemma RecoverSyncs(s0: ShardState, e: Plan, s1: ShardState, l: nat, i: nat, H: seq<Entry>)
    requires AllAlong(s0.reps, e.calls, H) && s1 == After(s0, e) && Between(s1, H)
    requires NoTails(s0.reps) ==> NoTails(s1.reps)
    requires i < |s1.reps| && s1.reps[i].online && l < |s1.reps| && l != i && s1.ids[l] == s1.leader
             && Leads(s1.reps, l, H)
    ensures Recovered(s0, i, H, Plan(e.calls + [CallInstall(i, Export(s1.reps[l]))], e.leader, Done))
  {
    SyncKeeps(s1, l, i, H);
    AllAlongConcat(s0.reps, e.calls, [CallInstall(i, Export(s1.reps[l]))], H);
  }

  lemma RecoverAsLeader(s0: ShardState, e: Plan, s1: ShardState, i: nat, H: seq<Entry>)
    requires AllAlong(s0.reps, e.calls, H) && s1 == After(s0, e) && Between(s1, H)
             && (NoTails(s0.reps) ==> NoTails(s1.reps))
    requires i < |s1.reps| == |s0.reps| && s1.reps[i].online && (s1.leader != "" ==> Leads(s1.reps, i, H))
    ensures Recovered(s0, i, H, Plan(e.calls, e.leader, Done))
  {
  }

  lemma RecoverTailIs(s0: ShardState, i: nat, e: Plan, s1: ShardState, l: int)
    requires Shaped(s0) && i < |s0.ids| && e == EnsureLeader(s0) && s1 == After(s0, e) && l == CurrentLeader(s1)
    requires -1 <= l < |s1.reps| && s1.reps[i].online && (l >= 0 ==> e.status == Done)
    ensures RecoverTail(s0, i)
         == Plan(if l >= 0 && l != i then e.calls + [CallInstall(i, Export(s1.reps[l]))] else e.calls,
                 e.leader, Done)
  {
    assert e.calls + [] == e.calls;
  }

  lemma RecoverRest(s0: ShardState, i: nat, H: seq<Entry>)
    requires Between(s0, H) && i < |s0.ids| && s0.reps[i].online
    ensures Recovered(s0, i, H, RecoverTail(s0, i))
  {
    EnsureKeeps(s0, H);
    var e := EnsureLeader(s0);
    var s1 := After(s0, e);
    LeaderFound(s1, H);
    var l := CurrentLeader(s1);
    RecoverTailIs(s0, i, e, s1, l);
    if l >= 0 && l != i {
      RecoverSyncs(s0, e, s1, l, i, H);
    } else {
      RecoverAsLeader(s0, e, s1, i, H);
    }
  }

  lemma RecoverPrefixed(s: ShardState, i: nat, H: seq<Entry>, s0: ShardState, rest: Plan)
    requires Between(s, H) && i < |s.reps| && s0 == ShardState(s.ids, Exec(s.reps, CallSetOnline(i, true)), s.leader)
    requires Recovered(s0, i, H, rest)
    ensures Recovered(s, i, H, Plan([CallSetOnline(i, true)] + rest.calls, rest.leader, Done))
  {
    UpKeeps(s, i, H);
    RunOne(s.reps, CallSetOnline(i, true));
    AllAlongConcat(s.reps, [CallSetOnline(i, true)], rest.calls, H);
  }

  lemma RecoverKeeps(s: ShardState, id: string, H: seq<Entry>)
    requires Between(s, H)
    ensures var p, i := Recover(s, id), Locate(s.ids, id);
            && (p.status == Done <==> id in s.ids)
            && (p.status == Done ==> i >= 0 && s.ids[i] == id && Recovered(s, i, H, p))
            && (p.status != Done ==> p == Plan([], s.leader, Refused))
  {
    LocateFinds(s.ids, id);
    var i := Locate(s.ids, id);
    if i >= 0 {
      var s0 := ShardState(s.ids, Exec(s.reps, CallSetOnline(i, true)), s.leader);
      UpKeeps(s, i, H);
      RecoverRest(s0, i, H);
      RecoverPrefixed(s, i, H, s0, RecoverTail(s0, i));
    }
  }
}
