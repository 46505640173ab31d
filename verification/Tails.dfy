/** Tails: what a stop may leave in a log beyond its commit index. A running shard has at most one,
    no operation makes another, and the first write it gets in the way of clears it away. */
module Tails {
  import opened Log
  import opened Protocol
  import opened Safety
  import opened Election
  import opened Writes
  import opened Operations
  import opened Runs
  import opened Theorems

  predicate HasTail(r: Replica) { |r.log| != r.commit }

  ghost predicate OneTail(reps: seq<Replica>) {
    forall i, j :: 0 <= i < |reps| && 0 <= j < |reps| && HasTail(reps[i]) && HasTail(reps[j]) ==> i == j
  }

  /** Every tail was there before. */
  ghost predicate TailsFrom(before: seq<Replica>, after: seq<Replica>) {
    |before| == |after| && forall i :: 0 <= i < |after| && HasTail(after[i]) ==> HasTail(before[i])
  }

  // ---------------------------------------------------------------- elections

  /** What ensure_leader_locked may do to a log: leave it alone, or make it the history. */
  ghost predicate Levelled(r: Replica, after: Replica, H: seq<Entry>) {
    && after.online == r.online
    && ((after.log == r.log && after.commit == r.commit) || (r.online && after.log == H && after.commit == |H|))
  }

  lemma ElectionLevels(s: ShardState, H: seq<Entry>, after: seq<Replica>)
    requires Between(s, H) && CurrentLeader(s) < 0 && HasQuorumOnline(s.reps)
             && after == Run(s.reps, EnsureLeader(s).calls)
    ensures |after| == |s.reps| && forall i :: 0 <= i < |s.reps| ==> Levelled(s.reps[i], after[i], H)
  {
    QuorumHasHolder(s, H);
    ElectionSucceeds(s, H);
  }

  lemma EnsureLevels(s: ShardState, H: seq<Entry>, s1: ShardState)
    requires Between(s, H) && s1 == Ready(s)
    ensures |s1.reps| == |s.reps| && forall i :: 0 <= i < |s.reps| ==> Levelled(s.reps[i], s1.reps[i], H)
  {
    OnlineLength(s.reps);
    if CurrentLeader(s) < 0 && HasQuorumOnline(s.reps) { ElectionLevels(s, H, s1.reps); }
  }

  /** The replica a write goes through: the leader, or the candidate of the election it starts. */
  function Prospect(s: ShardState): int
    requires |s.ids| == |s.reps|
  {
    if CurrentLeader(s) >= 0 || Online(s.reps) == [] then CurrentLeader(s) else Best(s.reps, Online(s.reps))
  }

  lemma ProspectLeads(s: ShardState, H: seq<Entry>)
    requires Between(s, H) && HasQuorumOnline(s.reps)
    ensures 0 <= Prospect(s) < |s.reps| && CurrentLeader(Ready(s)) == Prospect(s)
            && Leads(Ready(s).reps, Prospect(s), H)
    ensures Ready(s).reps[Prospect(s)].log == s.reps[Prospect(s)].log && s.reps[Prospect(s)].commit == |H|
  {
    EnsureKeeps(s, H);
    LeaderFound(s, H);
    LeaderFound(Ready(s), H);
    if CurrentLeader(s) < 0 {
      QuorumHasHolder(s, H);
      ElectionSucceeds(s, H);
    }
  }

  // ---------------------------------------------------------------- writes

  /** After a write through leader l every online replica ends exactly at the history; an offline one
      is untouched. */
  lemma WriteThroughTails(s1: ShardState, l: nat, c: Command, H: seq<Entry>)
    requires Writing(s1, l, c, H)
    ensures var after := After(s1, WriteVia(s1, l, c)).reps;
            |after| == |s1.reps| && forall i :: 0 <= i < |after| ==>
                if s1.reps[i].online then !HasTail(after[i]) else after[i] == s1.reps[i]
  {
    WriteViaKeeps(s1, l, c, H);
  }

  lemma AfterWrite(s: ShardState, c: Command)
    requires |s.ids| == |s.reps| && EnsureLeader(s).status == Done && CurrentLeader(Ready(s)) >= 0
    ensures After(s, Write(s, c)) == After(Ready(s), WriteVia(Ready(s), CurrentLeader(Ready(s)), c))
  {
    var p, s1 := EnsureLeader(s), Ready(s);
    RunConcat(s.reps, p.calls, WriteVia(s1, CurrentLeader(s1), c).calls);
  }

  lemma ThroughTails(s: ShardState, H: seq<Entry>, s1: ShardState, after: seq<Replica>)
    requires |s1.reps| == |s.reps| == |after|
    requires forall i :: 0 <= i < |s.reps| ==> Levelled(s.reps[i], s1.reps[i], H)
    requires forall i :: 0 <= i < |after| ==> if s1.reps[i].online then !HasTail(after[i]) else after[i] == s1.reps[i]
    ensures TailsFrom(s.reps, after) && forall i :: 0 <= i < |after| && s.reps[i].online ==> !HasTail(after[i])
  {
  }

  lemma RefusedOutright(s: ShardState, c: Command)
    requires |s.ids| == |s.reps| && EnsureLeader(s).status != Done
    ensures Write(s, c) == EnsureLeader(s) && After(s, Write(s, c)) == Ready(s)
  {
  }

  /** No write makes a tail, and none is left on a replica a write reaches. */
  lemma WriteTails(s: ShardState, c: Command, H: seq<Entry>, after: seq<Replica>)
    requires Between(s, H) && Known(c) && after == After(s, Write(s, c)).reps
    ensures TailsFrom(s.reps, after)
    ensures EnsureLeader(s).status == Done ==> forall i :: 0 <= i < |after| && s.reps[i].online ==> !HasTail(after[i])
  {
    EnsureKeeps(s, H);
    var s1 := Ready(s);
    EnsureLevels(s, H, s1);
    if EnsureLeader(s).status == Done {
      LeaderFound(s1, H);
      AfterWrite(s, c);
      WriteThroughTails(s1, CurrentLeader(s1), c, H);
      ThroughTails(s, H, s1, after);
    } else {
      RefusedOutright(s, c);
    }
  }

  lemma SucceedsThrough(s: ShardState, c: Command, H: seq<Entry>, s1: ShardState, l: nat)
    requires Between(s, H) && Known(c) && EnsureLeader(s).status == Done && s1 == Ready(s) && l == CurrentLeader(s1)
    requires Writing(s1, l, c, H) && SameOnline(s.reps, s1.reps)
    ensures Write(s, c).status == Done <==> HasQuorumOnline(s.reps) && (|s.reps| == 1 || |s1.reps[l].log| == |H|)
  {
    WriteViaKeeps(s1, l, c, H);
    assert OnlineSet(s1.reps) == OnlineSet(s.reps);
  }

  /** Exactly when a write succeeds: a majority is online, and the replica it goes through carries no
      tail or is the only one. */
  lemma WriteSucceedsExactly(s: ShardState, c: Command, H: seq<Entry>)
    requires Between(s, H) && Known(c)
    ensures Write(s, c).status == Done <==>
              HasQuorumOnline(s.reps)
                  && (|s.reps| == 1 || (0 <= Prospect(s) < |s.reps| && !HasTail(s.reps[Prospect(s)])))
    ensures Write(s, c).status == Done || Write(s, c).status == Refused
  {
    WriteKeeps(s, c, H);
    if HasQuorumOnline(s.reps) {
      EnsureKeeps(s, H);
      ProspectLeads(s, H);
      SucceedsThrough(s, c, H, Ready(s), Prospect(s));
    }
  }

  /** So the tail in the way of a refused write, if it is the only one, is gone after it. */
  lemma RefusalClears(s: ShardState, c: Command, H: seq<Entry>, after: seq<Replica>)
    requires Between(s, H) && Known(c) && HasQuorumOnline(s.reps) && OneTail(s.reps)
    requires Write(s, c).status == Refused && after == After(s, Write(s, c)).reps
    ensures NoTails(after)
  {
    WriteSucceedsExactly(s, c, H);
    WriteTails(s, c, H, after);
    EnsureKeeps(s, H);
    ProspectLeads(s, H);
    EnsureLevels(s, H, Ready(s));
    assert Ready(s).reps[Prospect(s)].online;
  }

  // ---------------------------------------------------------------- the other operations

  lemma FailTails(s: ShardState, id: string, H: seq<Entry>)
    requires Between(s, H)
    ensures TailsFrom(s.reps, After(s, Protocol.Fail(s, id)).reps)
  {
    LocateFinds(s.ids, id);
    var i := Locate(s.ids, id);
    if i >= 0 { RunOne(s.reps, CallSetOnline(i, false)); }
  }

  lemma SyncTails(s0: ShardState, e: Plan, s1: ShardState, l: nat, i: nat, H: seq<Entry>)
    requires s1 == After(s0, e) && TailsFrom(s0.reps, s1.reps) && Between(s1, H) && i < |s1.reps| && s1.reps[i].online
    requires l < |s1.reps| && l != i && s1.ids[l] == s1.leader && Leads(s1.reps, l, H)
    ensures TailsFrom(s0.reps, Run(s0.reps, e.calls + [CallInstall(i, Export(s1.reps[l]))]))
  {
    SyncKeeps(s1, l, i, H);
    RunConcat(s0.reps, e.calls, [CallInstall(i, Export(s1.reps[l]))]);
  }

  lemma EnsureTails(s: ShardState, H: seq<Entry>, s1: ShardState)
    requires Between(s, H) && s1 == Ready(s)
    ensures TailsFrom(s.reps, s1.reps)
  {
    EnsureLevels(s, H, s1);
  }

  lemma RejoinTails(s0: ShardState, i: nat, H: seq<Entry>, e: Plan, s1: ShardState)
    requires Between(s0, H) && i < |s0.ids| && s0.reps[i].online && e == EnsureLeader(s0) && s1 == After(s0, e)
    ensures TailsFrom(s0.reps, After(s0, RecoverTail(s0, i)).reps)
  {
    var l := CurrentLeader(s1);
    EnsureKeeps(s0, H);
    LeaderFound(s1, H);
    EnsureTails(s0, H, s1);
    RecoverTailIs(s0, i, e, s1, l);
    if l >= 0 && l != i {
      SyncTails(s0, e, s1, l, i, H);
    } else {
      assert After(s0, RecoverTail(s0, i)).reps == s1.reps;
    }
  }

  lemma RecoverTails(s: ShardState, id: string, H: seq<Entry>)
    requires Between(s, H)
    ensures TailsFrom(s.reps, After(s, Protocol.Recover(s, id)).reps)
  {
    LocateFinds(s.ids, id);
    var i := Locate(s.ids, id);
    if i >= 0 {
      var up := CallSetOnline(i, true);
      var s0 := ShardState(s.ids, Exec(s.reps, up), s.leader);
      UpKeeps(s, i, H);
      RejoinTails(s0, i, H, EnsureLeader(s0), Ready(s0));
      RunOne(s.reps, up);
      RunConcat(s.reps, [up], RecoverTail(s0, i).calls);
    }
  }

  lemma OperationTails(s: ShardState, op: Op, H: seq<Entry>)
    requires Between(s, H)
    ensures TailsFrom(s.reps, After(s, PlanOf(s, op)).reps)
  {
    match op
    case Fail(id) => FailTails(s, id, H);
    case Recover(id) => RecoverTails(s, id, H);
    case Get(_) => EnsureTails(s, H, Ready(s));
    case Elect => EnsureTails(s, H, Ready(s));
    case _ => WriteTails(s, CommandOf(op), H, After(s, PlanOf(s, op)).reps);
  }

  /** A restart leaves a tail on the elected leader at most. */
  lemma BootTails(ids: seq<string>, disks: seq<Replica>, s: ShardState, H: seq<Entry>)
    requires Shaped(ShardState(ids, disks, "")) && CrashSafe(disks, H) && s == Loaded(ids, disks)
    ensures OneTail(Ready(s).reps)
  {
    LoadedReady(ids, disks, H);
    ElectionSucceeds(s, H);
  }

  // ---------------------------------------------------------------- whole runs

  /** In every reachable state of a running shard at most one replica has a tail. */
  lemma {:induction false} AtMostOneTail(ids: seq<string>, steps: seq<Step>)
    requires Distinct(ids) && ids != []
    ensures StateAfter(ids, steps).Up? ==> OneTail(StateAfter(ids, steps).s.reps)
  {
    if steps != [] {
      var front, step := steps[..|steps| - 1], steps[|steps| - 1];
      AtMostOneTail(ids, front);
      RunSafe(ids, front);
      StepTails(StateAfter(ids, front), step, History(ids, front));
    }
  }

  lemma StepTails(sys: System, step: Step, H: seq<Entry>)
    requires WellShaped(sys) && SystemSafe(sys, H) && (sys.Up? ==> OneTail(sys.s.reps))
    ensures Next(sys, step).Up? ==> OneTail(Next(sys, step).s.reps)
  {
    match (sys, step)
    case (Up(s), Do(op)) => OperationTails(s, op, H);
    case (Down(ids, disks), Boot) => BootTails(ids, disks, Loaded(ids, disks), H);
    case _ =>
  }

  /** Step i is a write that is refused although a majority is online. */
  predicate RefusedWithMajority(ids: seq<string>, steps: seq<Step>, i: nat)
    requires i < |steps|
  {
    var sys := StateAfter(ids, steps[..i]);
    && sys.Up? && steps[i].Do? && IsWrite(steps[i].op) && HasQuorumOnline(sys.s.reps)
    && AnswerTo(sys, steps[i]) == Unavailable
  }

  lemma UpTo(ids: seq<string>, steps: seq<Step>, i: nat)
    requires i < |steps|
    ensures StateAfter(ids, steps[..i + 1]) == Next(StateAfter(ids, steps[..i]), steps[i])
    ensures History(ids, steps[..i + 1]) == HistoryNext(StateAfter(ids, steps[..i]), steps[i], History(ids, steps[..i]))
  {
    assert steps[..i + 1] == steps[..i] + [steps[i]];
    AfterOneMore(ids, steps[..i], steps[i]);
  }

  lemma NoTailsAfterRefusal(ids: seq<string>, steps: seq<Step>, i: nat)
    requires Distinct(ids) && ids != [] && i < |steps| && RefusedWithMajority(ids, steps, i)
    ensures NoTails(Replicas(StateAfter(ids, steps[..i + 1])))
  {
    var s, c, H := StateAfter(ids, steps[..i]).s, CommandOf(steps[i].op), History(ids, steps[..i]);
    RunSafe(ids, steps[..i]);
    AtMostOneTail(ids, steps[..i]);
    UpTo(ids, steps, i);
    WriteAnswered(s, steps[i].op);
    RefusalClears(s, c, H, After(s, Write(s, c)).reps);
  }

  lemma {:induction false} NoTailsStay(ids: seq<string>, steps: seq<Step>, i: nat, j: nat)
    requires Distinct(ids) && ids != [] && i <= j <= |steps| && NoTails(Replicas(StateAfter(ids, steps[..i])))
    requires forall k :: i <= k < j ==> Clean(steps[k])
    ensures NoTails(Replicas(StateAfter(ids, steps[..j])))
  {
    if i < j {
      NoTailsStay(ids, steps, i, j - 1);
      RunSafe(ids, steps[..j - 1]);
      UpTo(ids, steps, j - 1);
      CleanKeepsNoTails(StateAfter(ids, steps[..j - 1]), steps[j - 1], History(ids, steps[..j - 1]));
    }
  }

  /** A stop costs at most one write: between two writes refused with a majority online, whatever
      else happened, there was another stop inside an operation. */
  lemma AtMostOneRefusedWrite(ids: seq<string>, steps: seq<Step>, i: nat, j: nat)
    requires Distinct(ids) && ids != [] && i < j < |steps|
    requires RefusedWithMajority(ids, steps, i) && RefusedWithMajority(ids, steps, j)
    ensures exists k :: i < k < j && !Clean(steps[k])
  {
    if forall k :: i < k < j ==> Clean(steps[k]) {
      NoTailsAfterRefusal(ids, steps, i);
      NoTailsStay(ids, steps, i + 1, j);
      RunSafe(ids, steps[..j]);
      NotRefused(StateAfter(ids, steps[..j]).s, steps[j].op, History(ids, steps[..j]));
    }
  }

  lemma NotRefused(s: ShardState, op: Op, H: seq<Entry>)
    requires Between(s, H) && IsWrite(op) && NoTails(s.reps) && HasQuorumOnline(s.reps)
    ensures AnswerOf(s, op) != Unavailable
  {
    WriteAnswered(s, op);
    WriteKeeps(s, CommandOf(op), H);
  }

  /** Exact availability in every run, stops inside operations included: a write is stored if and only
      if a majority is online and the replica it goes through has no tail or is the only one. */
  lemma WriteStoredExactly(ids: seq<string>, steps: seq<Step>, op: Op)
    requires Distinct(ids) && ids != [] && IsWrite(op) && StateAfter(ids, steps).Up?
    ensures var s := StateAfter(ids, steps).s;
            && (AnswerOf(s, op) == Stored <==>
                  2 * |OnlineSet(s.reps)| > |ids|
                      && (|ids| == 1 || (0 <= Prospect(s) < |s.reps| && !HasTail(s.reps[Prospect(s)]))))
            && (AnswerOf(s, op) == Stored || AnswerOf(s, op) == Unavailable)
  {
    RunSafe(ids, steps);
    RunSize(ids, steps);
    var s := StateAfter(ids, steps).s;
    WriteAnswered(s, op);
    WriteSucceedsExactly(s, CommandOf(op), History(ids, steps));
  }

  // ---------------------------------------------------------------- what a refused write leaves

  /** The entry that leader l of s1 would have added, term and index included, is not in a log that is
      the history, or that was there before l led. */
  lemma EntryIsNew(s1: ShardState, l: nat, c: Command, H: seq<Entry>, log: seq<Entry>)
    requires Between(s1, H) && l < |s1.reps| && Leads(s1.reps, l, H) && WellFormed(log)
    requires |log| > |H| ==> LastTerm(log) < s1.reps[l].term
    ensures NextEntry(s1.reps[l], c) !in log
  {
    var e := NextEntry(s1.reps[l], c);
    assert ReplicaSafe(s1.reps[l], H);
    if e in log {
      var k :| 0 <= k < |log| && log[k] == e;
      WellFormedAt(log, k, |log| - 1);
    }
  }

  /** How a refused write leaves replica i: where a leader was found, an online replica's log is the
      history and an offline one's what it was; where none was, nothing happened. The refused entry is
      in no log. */
  ghost predicate NoTrace(s: ShardState, c: Command, H: seq<Entry>, after: seq<Replica>, i: nat)
    requires |s.ids| == |s.reps|
  {
    && i < |s.reps| == |after|
    && after[i].online == s.reps[i].online
    && (EnsureLeader(s).status != Done ==> after == s.reps)
    && (EnsureLeader(s).status == Done && s.reps[i].online ==> after[i].log == H && after[i].commit == |H|)
    && (!s.reps[i].online ==> after[i].log == s.reps[i].log && after[i].commit == s.reps[i].commit)
    && (EnsureLeader(s).status == Done ==>
          0 <= CurrentLeader(Ready(s)) < |s.reps|
              && NextEntry(Ready(s).reps[CurrentLeader(Ready(s))], c) !in after[i].log)
  }

  lemma RefusedThrough(s1: ShardState, l: nat, c: Command, H: seq<Entry>, after: seq<Replica>, i: nat)
    requires Between(s1, H) && Writing(s1, l, c, H) && WriteVia(s1, l, c).status == Refused && i < |s1.reps|
    requires after == After(s1, WriteVia(s1, l, c)).reps
    ensures |after| == |s1.reps| && after[i].online == s1.reps[i].online
    ensures if s1.reps[i].online then after[i].log == H && after[i].commit == |H| else after[i] == s1.reps[i]
    ensures NextEntry(s1.reps[l], c) !in after[i].log
  {
    WriteViaKeeps(s1, l, c, H);
    assert ReplicaSafe(s1.reps[i], H);
    EntryIsNew(s1, l, c, H, after[i].log);
  }

  lemma NoTraceOutright(s: ShardState, c: Command, H: seq<Entry>, after: seq<Replica>, i: nat)
    requires Between(s, H) && EnsureLeader(s).status != Done && after == After(s, Write(s, c)).reps && i < |s.reps|
    ensures NoTrace(s, c, H, after, i)
  {
    EnsureKeeps(s, H);
    OnlineLength(s.reps);
    RefusedOutright(s, c);
  }

  lemma NoTraceThrough(s: ShardState, c: Command, H: seq<Entry>, s1: ShardState, after: seq<Replica>, i: nat)
    requires Between(s, H) && Known(c) && EnsureLeader(s).status == Done && Write(s, c).status == Refused
    requires s1 == Ready(s) && after == After(s, Write(s, c)).reps && i < |s.reps|
    ensures NoTrace(s, c, H, after, i)
  {
    EnsureKeeps(s, H);
    LeaderFound(s1, H);
    EnsureLevels(s, H, s1);
    AfterWrite(s, c);
    RefusedThrough(s1, CurrentLeader(s1), c, H, after, i);
  }

  lemma TaillessLog(r: Replica, H: seq<Entry>)
    requires Sound(r, H) && !HasTail(r)
    ensures r.log <= H
  {
    assert r.log[..r.commit] == r.log;
  }

  /** A refused write leaves no trace, whatever tails earlier stops had left. */
  lemma RefusedLeavesNoTrace(s: ShardState, c: Command, H: seq<Entry>, after: ShardState, i: nat)
    requires Between(s, H) && Known(c) && Write(s, c).status == Refused && after == After(s, Write(s, c))
             && i < |s.reps|
    ensures Between(after, H) && HistoryAfter(s, c, H) == H && NoTrace(s, c, H, after.reps, i)
    ensures NoTails(s.reps) ==> after.reps[i].log <= H
  {
    WriteKeeps(s, c, H);
    if EnsureLeader(s).status == Done {
      NoTraceThrough(s, c, H, Ready(s), after.reps, i);
    } else {
      NoTraceOutright(s, c, H, after.reps, i);
    }
    if NoTails(s.reps) {
      assert ReplicaSafe(after.reps[i], H);
      TaillessLog(after.reps[i], H);
    }
  }

  /** In every run, stops anywhere included: after a refused write the history is the same, the
      refused entry is in no replica's log, an online log is the history and an offline one is what it
      was; with stops only between operations every log is a prefix of the history. */
  lemma RefusedWriteVanishes(ids: seq<string>, steps: seq<Step>, op: Op, i: nat)
    requires Distinct(ids) && i < |ids| && IsWrite(op)
    requires AnswerTo(StateAfter(ids, steps), Do(op)) == Unavailable
    ensures History(ids, steps + [Do(op)]) == History(ids, steps)
    ensures var s, after := StateAfter(ids, steps).s, Replicas(StateAfter(ids, steps + [Do(op)]));
            && NoTrace(s, CommandOf(op), History(ids, steps), after, i)
            && ((forall k :: 0 <= k < |steps| ==> Clean(steps[k])) ==> after[i].log <= History(ids, steps))
  {
    var s, H := StateAfter(ids, steps).s, History(ids, steps);
    RunSafe(ids, steps);
    RunSize(ids, steps);
    AfterOneMore(ids, steps, Do(op));
    WriteAnswered(s, op);
    RefusedLeavesNoTrace(s, CommandOf(op), H, After(s, Write(s, CommandOf(op))), i);
    if forall k :: 0 <= k < |steps| ==> Clean(steps[k]) { CleanRun(ids, steps); }
  }
}
