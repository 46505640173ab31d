/** One write (replicate_command_locked): the index-only in-step test is enough, a refused write
    leaves no trace, an acknowledged one extends the history by exactly its entry, and a stop
    between any two calls leaves one history or the other. */
module Writes {
  import opened Log
  import opened Protocol
  import opened Safety
  import opened Election

  // ---------------------------------------------------------------- followers

  /** The in-step test compares indexes only, yet a follower that passes it has exactly the
      leader's committed log, and one that fails it has so after the snapshot. */
  lemma InStepSuffices(f: Replica, leader: Replica, H: seq<Entry>)
    requires ReplicaSafe(f, H) && Sound(leader, H) && Holds(leader, H)
    requires f.online && f.term <= leader.term
    ensures var r := Prepared(f, leader);
            && r.log == H == leader.log[..leader.commit] && Holds(r, H) && r.kv == Replay(H)
            && r.online && r.term <= leader.term
  {
    WinnerExports(leader, H);
    assert H[..|H|] == H;
    if InStep(f, leader) { assert f.log[..f.commit] == f.log; }
  }

  /** What a prepared follower becomes when it is sent the entry that follows `before` in the
      leader's log: it takes it exactly when the leader had nothing beyond H. */
  function Received(term: int, id: string, H: seq<Entry>, before: seq<Entry>, e: Entry): Replica {
    Replica(true, Follower, term, id, |H|, Replay(H), if |before| == |H| then H + [e] else H)
  }

  lemma PreparedReceives(r: Replica, leader: Replica, id: string, H: seq<Entry>, before: seq<Entry>, e: Entry)
    requires r.log == H && Holds(r, H) && r.kv == Replay(H) && r.online && r.term <= leader.term
    requires H <= before && e.index == |before| + 1
    requires leader.log == before + [e] && Holds(leader, H)
    ensures var prev := TermAt(leader, e.index - 1);
            && (Accepts(r, leader.term, e.index - 1, prev) <==> |before| == |H|)
            && AppendEntries(r, leader.term, id, e.index - 1, prev, [e], leader.commit)
               == Received(leader.term, id, H, before, e)
  {
    if |before| == |H| {
      assert before == H;
      assert [e][..0] == [];
      assert MergeAll(H, [e]) == Merge(MergeAll(H, []), e);
    }
  }

  lemma ReceivedSafe(term: int, id: string, H: seq<Entry>, before: seq<Entry>, e: Entry)
    requires WellFormed(H) && WellFormed(before + [e]) && H <= before
    requires e.term == term && LastTerm(H) <= term
    ensures ReplicaSafe(Received(term, id, H, before, e), H)
  {
    assert H[..|H|] == H && (H + [e])[..|H|] == H;
    if |before| == |H| { assert before == H; }
  }

  // ---------------------------------------------------------------- the replication loop

  /** The leader l has just appended e behind `before`; nothing else is known to be different. */
  ghost predicate Spreading(reps: seq<Replica>, l: nat, H: seq<Entry>, before: seq<Entry>, e: Entry) {
    && CrashSafe(reps, H) && l < |reps| && Holds(reps[l], H) && reps[l].log == before + [e]
    && H <= before && WellFormed(before + [e]) && e.index == |before| + 1 && e.term == reps[l].term
    && LastTerm(H) <= e.term
    && (forall i :: 0 <= i < |reps| ==> reps[i].term <= reps[l].term)
  }

  function PrepareCalls(f: nat, r: Replica, leader: Replica): seq<Call> {
    if InStep(r, leader) then [] else [CallInstall(f, Export(leader))]
  }

  lemma PrepareTurn(now: seq<Replica>, f: nat, leader: Replica, H: seq<Entry>)
    requires f < |now| && CrashSafe(now, H) && Sound(leader, H) && Holds(leader, H)
    ensures var calls := PrepareCalls(f, now[f], leader);
            && AllAlong(now, calls, H) && CrashSafe(Run(now, calls), H)
            && Run(now, calls) == now[f := Prepared(now[f], leader)]
  {
    WinnerExports(leader, H);
    var calls := PrepareCalls(f, now[f], leader);
    HarmlessAllAlong(now, calls, H);
    AllAlongEnds(now, calls, H);
    if !InStep(now[f], leader) { RunOne(now, CallInstall(f, Export(leader))); }
  }

  lemma SendTurn(now: seq<Replica>, f: nat, leader: Replica, id: string, H: seq<Entry>, before: seq<Entry>, e: Entry)
    requires f < |now| && CrashSafe(now, H)
    requires now[f].log == H && Holds(now[f], H) && now[f].kv == Replay(H) && now[f].online
             && now[f].term <= leader.term
    requires H <= before && e.index == |before| + 1 && e.term == leader.term && LastTerm(H) <= e.term
    requires leader.log == before + [e] && Holds(leader, H) && WellFormed(H) && WellFormed(before + [e])
    ensures var got := Received(leader.term, id, H, before, e);
            && AllAlong(now, [Send(f, leader, id, e)], H)
            && Run(now, [Send(f, leader, id, e)]) == now[f := got]
  {
    PreparedReceives(now[f], leader, id, H, before, e);
    ReceivedSafe(leader.term, id, H, before, e);
    UpdateSafe(now, f, Received(leader.term, id, H, before, e), H);
    AllAlongOne(now, Send(f, leader, id, e), H);
  }

  /** One follower's share of the loop, from any state that agrees with `reps` on that follower. */
  lemma FollowerTurn(reps: seq<Replica>, l: nat, id: string, H: seq<Entry>, before: seq<Entry>, e: Entry,
                     f: nat, now: seq<Replica>)
    requires Spreading(reps, l, H, before, e) && f < |reps| && reps[f].online
    requires |now| == |reps| && CrashSafe(now, H) && now[f] == reps[f]
    ensures var calls := FollowerCalls(f, reps[f], reps[l], id, e);
            && AllAlong(now, calls, H)
            && Run(now, calls) == now[f := Received(reps[l].term, id, H, before, e)]
            && (Acks(reps[f], reps[l], e) <==> |before| == |H|)
  {
    var r, leader := reps[f], reps[l];
    assert ReplicaSafe(r, H) && ReplicaSafe(leader, H);
    InStepSuffices(r, leader, H);
    PrepareTurn(now, f, leader, H);
    var mid := now[f := Prepared(r, leader)];
    PreparedReceives(mid[f], leader, id, H, before, e);
    SendTurn(mid, f, leader, id, H, before, e);
    AllAlongConcat(now, PrepareCalls(f, r, leader), [Send(f, leader, id, e)], H);
  }

  /** Where the loop stands after the first n replicas. */
  ghost predicate SpreadTo(reps: seq<Replica>, l: nat, got: Replica, n: nat, now: seq<Replica>) {
    && |now| == |reps|
    && forall i {:trigger now[i]} :: 0 <= i < |now| ==>
         now[i] == if i < n && IsFollower(reps, l, i) then got else reps[i]
  }

  lemma SpreadSnoc(reps: seq<Replica>, l: nat, got: Replica, n: nat, now: seq<Replica>)
    requires 0 < n <= |reps| && SpreadTo(reps, l, got, n - 1, now)
    ensures now[n - 1] == reps[n - 1]
    ensures IsFollower(reps, l, n - 1) ==> SpreadTo(reps, l, got, n, now[n - 1 := got])
    ensures !IsFollower(reps, l, n - 1) ==> SpreadTo(reps, l, got, n, now)
  {
  }

  /** One round of the loop, for a follower. */
  lemma LoopStep(reps: seq<Replica>, l: nat, id: string, H: seq<Entry>, before: seq<Entry>, e: Entry,
                 f: nat, front: seq<Call>, now: seq<Replica>, got: Replica)
    requires Spreading(reps, l, H, before, e) && f < |reps| && IsFollower(reps, l, f) && AllAlong(reps, front, H)
    requires now == Run(reps, front) && CrashSafe(now, H) && now[f] == reps[f]
    requires got == Received(reps[l].term, id, H, before, e)
    ensures AllAlong(reps, front + FollowerCalls(f, reps[f], reps[l], id, e), H)
    ensures Run(reps, front + FollowerCalls(f, reps[f], reps[l], id, e)) == now[f := got]
  {
    FollowerTurn(reps, l, id, H, before, e, f, now);
    AllAlongConcat(reps, front, FollowerCalls(f, reps[f], reps[l], id, e), H);
  }

  lemma NextCalls(reps: seq<Replica>, id: string, l: nat, e: Entry, n: nat)
    requires l < |reps| && 0 < n <= |reps|
    ensures ReplicateCalls(reps, id, l, e, n)
         == if IsFollower(reps, l, n - 1)
            then ReplicateCalls(reps, id, l, e, n - 1) + FollowerCalls(n - 1, reps[n - 1], reps[l], id, e)
            else ReplicateCalls(reps, id, l, e, n - 1)
  {
  }

  /** The loop is where it should be after these calls, and could have been stopped anywhere. */
  ghost predicate Spread(reps: seq<Replica>, l: nat, H: seq<Entry>, got: Replica, n: nat, calls: seq<Call>) {
    AllAlong(reps, calls, H) && SpreadTo(reps, l, got, n, Run(reps, calls))
  }

  lemma LoopNext(reps: seq<Replica>, l: nat, id: string, H: seq<Entry>, before: seq<Entry>, e: Entry,
                 n: nat, front: seq<Call>, calls: seq<Call>, got: Replica)
    requires Spreading(reps, l, H, before, e) && 0 < n <= |reps| && got == Received(reps[l].term, id, H, before, e)
    requires Spread(reps, l, H, got, n - 1, front)
    requires calls == if IsFollower(reps, l, n - 1)
                      then front + FollowerCalls(n - 1, reps[n - 1], reps[l], id, e) else front
    ensures Spread(reps, l, H, got, n, calls)
  {
    var now := Run(reps, front);
    SpreadSnoc(reps, l, got, n, now);
    if IsFollower(reps, l, n - 1) {
      AllAlongEnds(reps, front, H);
      LoopStep(reps, l, id, H, before, e, n - 1, front, now, got);
    }
  }

  lemma {:induction false} LoopSpreads(reps: seq<Replica>, l: nat, id: string, H: seq<Entry>,
                                       before: seq<Entry>, e: Entry, n: nat)
    requires Spreading(reps, l, H, before, e) && n <= |reps|
    ensures Spread(reps, l, H, Received(reps[l].term, id, H, before, e), n, ReplicateCalls(reps, id, l, e, n))
  {
    if n == 0 {
      HarmlessAllAlong(reps, [], H);
    } else {
      LoopSpreads(reps, l, id, H, before, e, n - 1);
      NextCalls(reps, id, l, e, n);
      LoopNext(reps, l, id, H, before, e, n, ReplicateCalls(reps, id, l, e, n - 1),
               ReplicateCalls(reps, id, l, e, n), Received(reps[l].term, id, H, before, e));
    }
  }

  /** A follower acknowledges exactly when the leader carried nothing beyond H. */
  lemma FollowerAcks(reps: seq<Replica>, l: nat, H: seq<Entry>, before: seq<Entry>, e: Entry, f: nat)
    requires Spreading(reps, l, H, before, e) && f < |reps| && reps[f].online
    ensures Acks(reps[f], reps[l], e) <==> |before| == |H|
  {
    FollowerTurn(reps, l, "", H, before, e, f, reps);
  }

  lemma {:induction false} AckedCount(reps: seq<Replica>, l: nat, e: Entry, n: nat, all: bool)
    requires l < |reps| && reps[l].online && n <= |reps|
    requires forall f :: 0 <= f < |reps| && IsFollower(reps, l, f) ==> (Acks(reps[f], reps[l], e) <==> all)
    ensures !all ==> Acked(reps, l, e, n) == []
    ensures all ==> |OnlineUpTo(reps, n)| == |Acked(reps, l, e, n)| + (if l < n then 1 else 0)
    ensures all ==> forall f :: 0 <= f < n && IsFollower(reps, l, f) ==> f in Acked(reps, l, e, n)
  {
    if n != 0 { AckedCount(reps, l, e, n - 1, all); }
  }

  // ---------------------------------------------------------------- committing

  lemma ExtendSafe(r: Replica, H: seq<Entry>, longer: seq<Entry>)
    requires ReplicaSafe(r, H) && H <= longer && NotAhead(r.log, longer)
    ensures ReplicaSafe(r, longer)
  {
    assert longer[..r.commit] == H[..r.commit];
  }

  lemma LeaderCommits(r: Replica, H: seq<Entry>, longer: seq<Entry>)
    requires ReplicaSafe(r, H) && Holds(r, H) && r.online && r.log == longer && H < longer
    ensures CommitTo(r, |longer|) == r.(commit := |longer|, kv := Replay(longer))
    ensures ReplicaSafe(CommitTo(r, |longer|), longer)
  {
    ApplyAllConcat(map[], H, longer[|H|..]);
    assert H + longer[|H|..] == longer && H[..|H|] == H && longer[..|longer|] == longer;
  }

  lemma CommitLands(mid: seq<Replica>, l: nat, H: seq<Entry>, longer: seq<Entry>, r: Replica)
    requires l < |mid| && ReplicaSafe(mid[l], H) && H < longer && mid[l].online && Holds(mid[l], H)
             && mid[l].log == longer
    requires r == mid[l].(commit := |longer|, kv := Replay(longer))
    ensures Exec(mid, CallCommitTo(l, |longer|)) == mid[l := r] && ReplicaSafe(r, longer) && Holds(r, longer)
  {
    CommitAt(mid[l], r, H, longer);
  }

  /** The leader's commit_to is the moment the history grows. */
  lemma CommitPoint(mid: seq<Replica>, l: nat, H: seq<Entry>, longer: seq<Entry>)
    requires l < |mid| && CrashSafe(mid, H) && H < longer && WellFormed(longer)
    requires mid[l].online && Holds(mid[l], H) && mid[l].log == longer
    requires forall i :: 0 <= i < |mid| && i != l ==> NotAhead(mid[i].log, longer)
    ensures var after := Exec(mid, CallCommitTo(l, |longer|));
            && after == mid[l := mid[l].(commit := |longer|, kv := Replay(longer))]
            && CrashSafe(after, longer)
  {
    var r := mid[l].(commit := |longer|, kv := Replay(longer));
    assert ReplicaSafe(mid[l], H);
    CommitLands(mid, l, H, longer, r);
    CommitSafe(mid, mid[l := r], l, H, longer);
  }

  lemma CommitAt(was: Replica, r: Replica, H: seq<Entry>, longer: seq<Entry>)
    requires ReplicaSafe(was, H) && Holds(was, H) && was.online && was.log == longer && H < longer
    requires r == was.(commit := |longer|, kv := Replay(longer))
    ensures CommitTo(was, |longer|) == r && ReplicaSafe(r, longer) && Holds(r, longer)
  {
    LeaderCommits(was, H, longer);
  }

  lemma CommitSafe(mid: seq<Replica>, after: seq<Replica>, l: nat, H: seq<Entry>, longer: seq<Entry>)
    requires l < |mid| == |after| && CrashSafe(mid, H) && H < longer && WellFormed(longer)
    requires ReplicaSafe(after[l], longer) && Holds(after[l], longer)
    requires forall i :: 0 <= i < |mid| && i != l ==> NotAhead(mid[i].log, longer) && after[i] == mid[i]
    ensures CrashSafe(after, longer)
  {
    forall i | 0 <= i < |after| ensures ReplicaSafe(after[i], longer) {
      if i != l {
        assert ReplicaSafe(mid[i], H);
        ExtendSafe(mid[i], H, longer);
      }
    }
  }

  /** A follower that has H and nothing else, all of it committed. */
  function Committed(term: int, id: string, H: seq<Entry>): Replica {
    Replica(true, Follower, term, id, |H|, Replay(H), H)
  }

  /** A follower that took e commits it on the heartbeat. */
  lemma HeartbeatCommits(f: nat, term: int, id: string, H: seq<Entry>, e: Entry)
    requires e.index == |H| + 1
    ensures On(Received(term, id, H, H, e), CallAppendEntries(f, term, id, e.index, e.term, [], e.index))
         == Committed(term, id, H + [e])
  {
    ApplyAllConcat(map[], H, [e]);
    assert (H + [e])[|H|..|H| + 1] == [e];
  }

  lemma HeartbeatActs(now: seq<Replica>, acked: seq<nat>, term: int, id: string, H: seq<Entry>, e: Entry, i: nat)
    requires e.index == |H| + 1 && i < |now|
    requires forall j, k :: 0 <= j < k < |acked| ==> acked[j] < acked[k]
    requires i in acked ==> now[i] == Received(term, id, H, H, e)
    ensures Run(now, HeartbeatCalls(acked, term, id, e))[i]
            == if i in acked then Committed(term, id, H + [e]) else now[i]
  {
    var calls := HeartbeatCalls(acked, term, id, e);
    SweepActs(now, calls, i);
    if i in acked {
      var k :| 0 <= k < |acked| && acked[k] == i;
      assert calls[k].i == i;
      HeartbeatCommits(i, term, id, H, e);
    }
  }

  lemma HeartbeatAlong(now: seq<Replica>, acked: seq<nat>, term: int, id: string, H: seq<Entry>, e: Entry)
    requires CrashSafe(now, H + [e]) && e.index == |H| + 1 && e.term <= term
    requires forall j, k :: 0 <= j < k < |acked| ==> acked[j] < acked[k]
    requires forall k :: 0 <= k < |acked| ==> acked[k] < |now| && now[acked[k]] == Received(term, id, H, H, e)
    ensures AllAlong(now, HeartbeatCalls(acked, term, id, e), H + [e])
  {
    var calls := HeartbeatCalls(acked, term, id, e);
    forall k | 0 <= k < |calls| ensures calls[k].i < |now| && SafeFor(now[calls[k].i], calls[k], H + [e]) {
      HeartbeatCommits(acked[k], term, id, H, e);
      assert (H + [e])[..|H| + 1] == H + [e];
    }
    SweepAllAlong(now, calls, H + [e]);
  }

  // ---------------------------------------------------------------- refusing

  function RefuseCalls(l: nat, acked: seq<nat>): seq<Call> { [CallDiscard(l)] + DiscardCalls(acked) }

  /** After a refusal the leader and every follower that took the entry are cut back. */
  lemma DiscardActs(mid: seq<Replica>, acked: seq<nat>, i: nat)
    requires i < |mid| && forall j, k :: 0 <= j < k < |acked| ==> acked[j] < acked[k]
    ensures Run(mid, DiscardCalls(acked))[i] == if i in acked then Discard(mid[i]) else mid[i]
  {
    var calls := DiscardCalls(acked);
    SweepActs(mid, calls, i);
    if i in acked {
      var k :| 0 <= k < |acked| && acked[k] == i;
      assert calls[k].i == i;
    }
  }

  lemma RefuseActs(mid: seq<Replica>, l: nat, acked: seq<nat>, i: nat)
    requires l < |mid| && l !in acked && i < |mid|
    requires forall j, k :: 0 <= j < k < |acked| ==> acked[j] < acked[k]
    ensures Run(mid, RefuseCalls(l, acked))[i] == if i == l || i in acked then Discard(mid[i]) else mid[i]
  {
    var first := Exec(mid, CallDiscard(l));
    assert first[i] == if i == l then Discard(mid[l]) else mid[i];
    var after := Run(first, DiscardCalls(acked))[i];
    assert after == if i in acked then Discard(first[i]) else first[i] by { DiscardActs(first, acked, i); }
    assert Run(mid, RefuseCalls(l, acked))[i] == after by { RefuseRuns(mid, l, acked, first); }
  }

  lemma RefuseRuns(mid: seq<Replica>, l: nat, acked: seq<nat>, first: seq<Replica>)
    requires first == Exec(mid, CallDiscard(l))
    ensures Run(mid, RefuseCalls(l, acked)) == Run(first, DiscardCalls(acked))
  {
    RunConcat(mid, [CallDiscard(l)], DiscardCalls(acked));
    RunOne(mid, CallDiscard(l));
  }

  // ---------------------------------------------------------------- a whole write under a known leader

  /** The setting of one write: s has leader l, and H is committed. */
  ghost predicate Writing(s: ShardState, l: nat, c: Command, H: seq<Entry>) {
    && Shaped(s) && CrashSafe(s.reps, H) && l < |s.reps| && Leads(s.reps, l, H) && Known(c)
  }

  lemma LeaderAppends(s: ShardState, l: nat, c: Command, H: seq<Entry>)
    requires Writing(s, l, c, H)
    ensures Spreading(Exec(s.reps, CallAppendLocal(l, c)), l, H, s.reps[l].log, NextEntry(s.reps[l], c))
  {
    var before, e := s.reps[l].log, NextEntry(s.reps[l], c);
    assert ReplicaSafe(s.reps[l], H) && H[..|H|] == H;
    WellFormedPrefix(before, |H|);
    WellFormedSnoc(before, e);
    assert (before + [e])[..|H|] == before[..|H|];
    UpdateSafe(s.reps, l, AppendLocal(s.reps[l], c), H);
  }

  /** Up to the count of acknowledgements: safe to interrupt, and the count is all or nothing. */
  lemma SpreadPhase(s: ShardState, l: nat, c: Command, H: seq<Entry>)
    requires Writing(s, l, c, H)
    ensures var reps, e, calls := Exec(s.reps, CallAppendLocal(l, c)), NextEntry(s.reps[l], c), SpreadCalls(s, l, c);
            var before, acked := s.reps[l].log, Acked(reps, l, e, |reps|);
            && AllAlong(s.reps, calls, H)
            && SpreadTo(reps, l, Received(s.reps[l].term, s.ids[l], H, before, e), |reps|, Run(s.reps, calls))
            && (|before| != |H| ==> acked == [])
            && (|before| == |H| ==> 1 + |acked| == |OnlineSet(s.reps)|)
            && (|before| == |H| ==> forall f :: 0 <= f < |reps| && IsFollower(reps, l, f) ==> f in acked)
  {
    LeaderAppends(s, l, c, H);
    var first := CallAppendLocal(l, c);
    var reps, e, before := Exec(s.reps, first), NextEntry(s.reps[l], c), s.reps[l].log;
    LoopSpreads(reps, l, s.ids[l], H, before, e, |reps|);
    AllAlongOne(s.reps, first, H);
    AllAlongConcat(s.reps, [first], ReplicateCalls(reps, s.ids[l], l, e, |reps|), H);
    forall f | 0 <= f < |reps| && IsFollower(reps, l, f)
      ensures Acks(reps[f], reps[l], e) <==> |before| == |H|
    {
      FollowerAcks(reps, l, H, before, e, f);
    }
    AckedCount(reps, l, e, |reps|, |before| == |H|);
    OnlineLength(reps);
    assert OnlineSet(reps) == OnlineSet(s.reps);
  }

  /** How a write leaves replica i when the history is `longer` afterwards (H itself if refused). */
  function Outcome(s: ShardState, l: nat, longer: seq<Entry>, i: nat): Replica
    requires |s.ids| == |s.reps| && l < |s.reps| && i < |s.reps|
  {
    if i == l then s.reps[l].(log := longer, commit := |longer|, kv := Replay(longer))
    else if s.reps[i].online then Committed(s.reps[l].term, s.ids[l], longer)
    else s.reps[i]
  }

  lemma DiscardReceived(term: int, id: string, H: seq<Entry>, before: seq<Entry>, e: Entry)
    ensures Discard(Received(term, id, H, before, e)) == Committed(term, id, H)
    ensures |before| != |H| ==> Received(term, id, H, before, e) == Committed(term, id, H)
  {
    assert H[..|H|] == H && (H + [e])[..|H|] == H;
  }

  lemma DiscardLeader(r: Replica, c: Command, H: seq<Entry>)
    requires Sound(r, H) && Holds(r, H) && CanAppend(r)
    ensures Discard(AppendLocal(r, c)) == r.(log := H, commit := |H|, kv := Replay(H))
  {
    assert H[..|H|] == H && (r.log + [NextEntry(r, c)])[..|H|] == r.log[..|H|];
  }

  lemma CutBack(s: ShardState, l: nat, c: Command, H: seq<Entry>, acked: seq<nat>, mid: Replica, i: nat)
    requires Shaped(s) && l < |s.reps| && i < |s.reps| && Sound(s.reps[l], H) && Holds(s.reps[l], H)
             && CanAppend(s.reps[l])
    requires var got := Received(s.reps[l].term, s.ids[l], H, s.reps[l].log, NextEntry(s.reps[l], c));
             mid == if i == l then AppendLocal(s.reps[l], c) else if s.reps[i].online then got else s.reps[i]
    requires i in acked ==> i != l && s.reps[i].online
    requires |s.reps[l].log| == |H| && i != l && s.reps[i].online ==> i in acked
    ensures Outcome(s, l, H, i) == if i == l || i in acked then Discard(mid) else mid
  {
    DiscardLeader(s.reps[l], c, H);
    DiscardReceived(s.reps[l].term, s.ids[l], H, s.reps[l].log, NextEntry(s.reps[l], c));
  }

  lemma RefusedOutcome(s: ShardState, l: nat, c: Command, H: seq<Entry>, mid: seq<Replica>, i: nat)
    requires Writing(s, l, c, H) && i < |s.reps| && mid == Run(s.reps, SpreadCalls(s, l, c))
    ensures var acked := Acked(Exec(s.reps, CallAppendLocal(l, c)), l, NextEntry(s.reps[l], c), |s.reps|);
            Run(mid, RefuseCalls(l, acked))[i] == Outcome(s, l, H, i)
  {
    SpreadPhase(s, l, c, H);
    var acked := Acked(Exec(s.reps, CallAppendLocal(l, c)), l, NextEntry(s.reps[l], c), |s.reps|);
    assert ReplicaSafe(s.reps[l], H);
    CutBack(s, l, c, H, acked, mid[i], i);
    RefuseActs(mid, l, acked, i);
  }

  /** Nobody else is ahead of the log the leader is about to commit. */
  lemma OthersBehind(s: ShardState, l: nat, c: Command, H: seq<Entry>, i: nat)
    requires Writing(s, l, c, H) && i < |s.reps| && i != l
    ensures NotAhead(Run(s.reps, SpreadCalls(s, l, c))[i].log, s.reps[l].log + [NextEntry(s.reps[l], c)])
  {
    SpreadPhase(s, l, c, H);
    LeaderAppends(s, l, c, H);
    assert ReplicaSafe(s.reps[i], H);
  }

  lemma CommitPhase(s: ShardState, l: nat, c: Command, H: seq<Entry>)
    requires Writing(s, l, c, H)
    ensures var longer := s.reps[l].log + [NextEntry(s.reps[l], c)];
            var mid := Run(s.reps, SpreadCalls(s, l, c));
            var after := Exec(mid, CallCommitTo(l, |longer|));
            && after == mid[l := s.reps[l].(log := longer, commit := |longer|, kv := Replay(longer))]
            && CrashSafe(after, longer)
  {
    SpreadPhase(s, l, c, H);
    LeaderAppends(s, l, c, H);
    var longer, mid := s.reps[l].log + [NextEntry(s.reps[l], c)], Run(s.reps, SpreadCalls(s, l, c));
    AllAlongEnds(s.reps, SpreadCalls(s, l, c), H);
    forall i | 0 <= i < |mid| && i != l ensures NotAhead(mid[i].log, longer) {
      OthersBehind(s, l, c, H, i);
    }
    CommitPoint(mid, l, H, longer);
  }

  lemma CommittedInStep(s: ShardState, l: nat, c: Command, H: seq<Entry>, now: seq<Replica>, i: nat)
    requires Writing(s, l, c, H) && i < |s.reps| && s.reps[l].log == H
    requires now == Exec(Run(s.reps, SpreadCalls(s, l, c)), CallCommitTo(l, |s.reps[l].log| + 1))
    ensures var e := NextEntry(s.reps[l], c);
            var acked := Acked(Exec(s.reps, CallAppendLocal(l, c)), l, e, |s.reps|);
            Run(now, HeartbeatCalls(acked, s.reps[l].term, s.ids[l], e))[i] == Outcome(s, l, s.reps[l].log + [e], i)
  {
    SpreadPhase(s, l, c, H);
    CommitPhase(s, l, c, H);
    LeaderAppends(s, l, c, H);
    var e := NextEntry(s.reps[l], c);
    HeartbeatActs(now, Acked(Exec(s.reps, CallAppendLocal(l, c)), l, e, |s.reps|), s.reps[l].term, s.ids[l], H, e, i);
  }

  lemma CommittedOutcome(s: ShardState, l: nat, c: Command, H: seq<Entry>, now: seq<Replica>, i: nat)
    requires Writing(s, l, c, H) && i < |s.reps| && (|s.reps[l].log| == |H| || |s.reps| == 1)
    requires now == Exec(Run(s.reps, SpreadCalls(s, l, c)), CallCommitTo(l, |s.reps[l].log| + 1))
    ensures var e := NextEntry(s.reps[l], c);
            var acked := Acked(Exec(s.reps, CallAppendLocal(l, c)), l, e, |s.reps|);
            Run(now, HeartbeatCalls(acked, s.reps[l].term, s.ids[l], e))[i] == Outcome(s, l, s.reps[l].log + [e], i)
  {
    if |s.reps[l].log| == |H| {
      LeaderAppends(s, l, c, H);
      assert s.reps[l].log == H;
      CommittedInStep(s, l, c, H, now, i);
    } else {
      SpreadPhase(s, l, c, H);
      CommitPhase(s, l, c, H);
      var e := NextEntry(s.reps[l], c);
      var acked := Acked(Exec(s.reps, CallAppendLocal(l, c)), l, e, |s.reps|);
      assert acked == [] && HeartbeatCalls(acked, s.reps[l].term, s.ids[l], e) == [];
    }
  }

  lemma CommittedAlong(s: ShardState, l: nat, c: Command, H: seq<Entry>, now: seq<Replica>)
    requires Writing(s, l, c, H) && (|s.reps[l].log| == |H| || |s.reps| == 1)
    requires now == Exec(Run(s.reps, SpreadCalls(s, l, c)), CallCommitTo(l, |s.reps[l].log| + 1))
    ensures var e := NextEntry(s.reps[l], c);
            var acked := Acked(Exec(s.reps, CallAppendLocal(l, c)), l, e, |s.reps|);
            AllAlong(now, HeartbeatCalls(acked, s.reps[l].term, s.ids[l], e), s.reps[l].log + [e])
  {
    SpreadPhase(s, l, c, H);
    CommitPhase(s, l, c, H);
    LeaderAppends(s, l, c, H);
    var e := NextEntry(s.reps[l], c);
    var acked := Acked(Exec(s.reps, CallAppendLocal(l, c)), l, e, |s.reps|);
    if |s.reps[l].log| == |H| {
      assert s.reps[l].log == H;
      HeartbeatAlong(now, acked, s.reps[l].term, s.ids[l], H, e);
    } else {
      assert acked == [];
      HarmlessAllAlong(now, [], s.reps[l].log + [e]);
    }
  }

  // ---------------------------------------------------------------- interruption

  /** Interrupted after at most `cut` calls the history is H, later it is `longer`. */
  ghost predicate Turns(reps: seq<Replica>, calls: seq<Call>, cut: nat, H: seq<Entry>, longer: seq<Entry>) {
    forall k :: 0 <= k <= |calls| ==> CrashSafe(Run(reps, calls[..k]), if k <= cut then H else longer)
  }

  lemma TurnsNever(reps: seq<Replica>, calls: seq<Call>, cut: nat, H: seq<Entry>)
    requires AllAlong(reps, calls, H)
    ensures Turns(reps, calls, cut, H, H)
  {
  }

  lemma TurnsAfter(reps: seq<Replica>, a: seq<Call>, b: seq<Call>, cut: nat, H: seq<Entry>, longer: seq<Entry>)
    requires AllAlong(reps, a, H) && Turns(Run(reps, a), b, cut, H, longer)
    ensures Turns(reps, a + b, |a| + cut, H, longer) && Run(reps, a + b) == Run(Run(reps, a), b)
  {
    RunConcat(reps, a, b);
    forall k | 0 <= k <= |a + b|
      ensures CrashSafe(Run(reps, (a + b)[..k]), if k <= |a| + cut then H else longer)
    {
      if k <= |a| {
        assert (a + b)[..k] == a[..k];
      } else {
        assert (a + b)[..k] == a + b[..k - |a|];
        RunConcat(reps, a, b[..k - |a|]);
      }
    }
  }

  lemma TurnsFirst(reps: seq<Replica>, c: Call, d: seq<Call>, H: seq<Entry>, longer: seq<Entry>)
    requires CrashSafe(reps, H) && AllAlong(Exec(reps, c), d, longer)
    ensures Turns(reps, [c] + d, 0, H, longer)
    ensures Run(reps, [c] + d) == Run(Exec(reps, c), d)
  {
    RunOne(reps, c);
    RunConcat(reps, [c], d);
    forall k | 0 <= k <= |[c] + d| ensures CrashSafe(Run(reps, ([c] + d)[..k]), if k <= 0 then H else longer) {
      if k > 0 {
        assert ([c] + d)[..k] == [c] + d[..k - 1];
        RunConcat(reps, [c], d[..k - 1]);
      }
    }
  }

  // ---------------------------------------------------------------- the result of a write

  /** The history after the plan p of writing c through leader l. */
  function Longer(s: ShardState, l: nat, c: Command, H: seq<Entry>, status: Status): seq<Entry>
    requires l < |s.reps|
  {
    if status == Done then s.reps[l].log + [NextEntry(s.reps[l], c)] else H
  }

  ghost predicate Wrote(s: ShardState, l: nat, c: Command, H: seq<Entry>, p: Plan)
    requires |s.ids| == |s.reps| && l < |s.reps|
  {
    var longer := Longer(s, l, c, H, p.status);
    && p.leader == s.leader && (p.status == Done || p.status == Refused)
    && (p.status == Done <==> HasQuorumOnline(s.reps) && (|s.reps| == 1 || |s.reps[l].log| == |H|))
    && Turns(s.reps, p.calls, |SpreadCalls(s, l, c)|, H, longer)
    && CrashSafe(Run(s.reps, p.calls), longer)
    && forall i :: 0 <= i < |s.reps| ==> Run(s.reps, p.calls)[i] == Outcome(s, l, longer, i)
  }

  lemma RefusedAlong(s: ShardState, l: nat, c: Command, H: seq<Entry>, acked: seq<nat>)
    requires Writing(s, l, c, H)
    ensures AllAlong(s.reps, SpreadCalls(s, l, c) + RefuseCalls(l, acked), H)
    ensures Run(s.reps, SpreadCalls(s, l, c) + RefuseCalls(l, acked))
         == Run(Run(s.reps, SpreadCalls(s, l, c)), RefuseCalls(l, acked))
  {
    SpreadPhase(s, l, c, H);
    var spread := SpreadCalls(s, l, c);
    AllAlongEnds(s.reps, spread, H);
    HarmlessAllAlong(Run(s.reps, spread), RefuseCalls(l, acked), H);
    AllAlongConcat(s.reps, spread, RefuseCalls(l, acked), H);
  }

  lemma RefuseWrites(s: ShardState, l: nat, c: Command, H: seq<Entry>, acked: seq<nat>, p: Plan)
    requires Writing(s, l, c, H)
    requires acked == Acked(Exec(s.reps, CallAppendLocal(l, c)), l, NextEntry(s.reps[l], c), |s.reps|)
    requires 1 + |acked| < Quorum(|s.reps|)
    requires p == Plan(SpreadCalls(s, l, c) + RefuseCalls(l, acked), s.leader, Refused)
    ensures Wrote(s, l, c, H, p)
  {
    SpreadPhase(s, l, c, H);
    RefusedAlong(s, l, c, H, acked);
    AllAlongEnds(s.reps, p.calls, H);
    TurnsNever(s.reps, p.calls, |SpreadCalls(s, l, c)|, H);
    forall i | 0 <= i < |s.reps| ensures Run(s.reps, p.calls)[i] == Outcome(s, l, H, i) {
      RefusedOutcome(s, l, c, H, Run(s.reps, SpreadCalls(s, l, c)), i);
    }
  }

  lemma CommitWrites(s: ShardState, l: nat, c: Command, H: seq<Entry>, acked: seq<nat>, p: Plan)
    requires Writing(s, l, c, H)
    requires acked == Acked(Exec(s.reps, CallAppendLocal(l, c)), l, NextEntry(s.reps[l], c), |s.reps|)
    requires 1 + |acked| >= Quorum(|s.reps|)
    requires var e := NextEntry(s.reps[l], c);
             p == Plan(SpreadCalls(s, l, c)
                 + ([CallCommitTo(l, e.index)] + HeartbeatCalls(acked, s.reps[l].term, s.ids[l], e)),
                       s.leader, Done)
    ensures Wrote(s, l, c, H, p)
  {
    SpreadPhase(s, l, c, H);
    var e, spread := NextEntry(s.reps[l], c), SpreadCalls(s, l, c);
    var beats := HeartbeatCalls(acked, s.reps[l].term, s.ids[l], e);
    var now := Exec(Run(s.reps, spread), CallCommitTo(l, e.index));
    if |s.reps| == 1 { OneOnline(s.reps, l); }
    CommittedAlong(s, l, c, H, now);
    AllAlongEnds(s.reps, spread, H);
    TurnsFirst(Run(s.reps, spread), CallCommitTo(l, e.index), beats, H, s.reps[l].log + [e]);
    TurnsAfter(s.reps, spread, [CallCommitTo(l, e.index)] + beats, 0, H, s.reps[l].log + [e]);
    AllAlongEnds(now, beats, s.reps[l].log + [e]);
    forall i | 0 <= i < |s.reps| ensures Run(s.reps, p.calls)[i] == Outcome(s, l, s.reps[l].log + [e], i) {
      CommittedOutcome(s, l, c, H, now, i);
    }
  }

  lemma OneOnline(reps: seq<Replica>, l: nat)
    requires |reps| == 1 && l == 0 && reps[l].online
    ensures |OnlineSet(reps)| == 1
  {
    assert OnlineSet(reps) == {0};
  }

  lemma WriteViaKeeps(s: ShardState, l: nat, c: Command, H: seq<Entry>)
    requires Writing(s, l, c, H)
    ensures Wrote(s, l, c, H, WriteVia(s, l, c))
  {
    var e := NextEntry(s.reps[l], c);
    var acked := Acked(Exec(s.reps, CallAppendLocal(l, c)), l, e, |s.reps|);
    if 1 + |acked| < Quorum(|s.reps|) {
      RefuseWrites(s, l, c, H, acked, WriteVia(s, l, c));
    } else {
      CommitWrites(s, l, c, H, acked, WriteVia(s, l, c));
    }
  }
}
