/** The main results about runs of one shard. */
module Theorems {
  import opened Log
  import opened Protocol
  import opened Safety
  import opened Election
  import opened Operations
  import opened Runs

  // ---------------------------------------------------------------- reads

  function AnswerFor(found: Option<Bytes>): Answer {
    match found
    case Some(v) => Value(v)
    case None => NotFound
  }

  /** Whichever replica leads, a read is answered from the replay of the whole history; it is
      refused exactly when neither a leader nor a majority is online. */
  lemma ReadAgrees(s: ShardState, H: seq<Entry>, key: Bytes)
    requires Between(s, H)
    ensures Read(s, key) == Unavailable <==> CurrentLeader(s) < 0 && 2 * |OnlineSet(s.reps)| <= |s.reps|
    ensures Read(s, key) != Unavailable ==> Read(s, key) == AnswerFor(Lookup(Replay(H), key))
  {
    EnsureKeeps(s, H);
    var s1 := After(s, EnsureLeader(s));
    LeaderFound(s1, H);
    var l := CurrentLeader(s1);
    if l >= 0 {
      assert ReplicaSafe(s1.reps[l], H);
      assert H[..|H|] == H;
    }
  }

  /** Taking down any replica but the leader changes no answer to a read, however few are left: a
      leader that is still online needs no majority to serve reads. */
  lemma LeaderKeepsServing(s: ShardState, H: seq<Entry>, id: string, key: Bytes)
    requires Between(s, H) && s.leader != "" && id != s.leader
    ensures Read(s, key) != Unavailable && Read(After(s, Protocol.Fail(s, id)), key) == Read(s, key)
  {
    var after := After(s, Protocol.Fail(s, id));
    FailKeeps(s, id, H);
    LocateFinds(s.ids, id);
    LeaderFound(s, H);
    LeaderFound(after, H);
    ReadAgrees(s, H, key);
    ReadAgrees(after, H, key);
  }

  // ---------------------------------------------------------------- the history only grows

  lemma StepGrows(sys: System, step: Step, H: seq<Entry>)
    requires WellShaped(sys) && SystemSafe(sys, H)
    ensures H <= HistoryNext(sys, step, H)
  {
    if sys.Up? && (step.Do? || step.StopIn?) && IsWrite(step.op) {
      WriteExtends(sys.s, CommandOf(step.op), H);
    }
  }

  lemma WriteAnswered(s: ShardState, op: Op)
    requires |s.ids| == |s.reps| && IsWrite(op)
    ensures AnswerOf(s, op)
         == match Write(s, CommandOf(op)).status
            case Done => Stored
            case Refused => Unavailable
            case Threw => Exception
  {
  }

  /** An acknowledged write is the last entry of the history; a refused one is not in it at all. */
  lemma AnswerTellsHistory(s: ShardState, op: Op, H: seq<Entry>)
    requires Between(s, H) && IsWrite(op)
    ensures var longer := HistoryNext(Up(s), Do(op), H);
            && (AnswerOf(s, op) == Stored ==> H < longer && longer[|longer| - 1].command == CommandOf(op))
            && (AnswerOf(s, op) == Unavailable ==> longer == H)
            && (AnswerOf(s, op) == Stored || AnswerOf(s, op) == Unavailable)
  {
    var command := CommandOf(op);
    var longer := HistoryNext(Up(s), Do(op), H);
    assert longer == HistoryAfter(s, command, H);
    WriteAnswered(s, op);
    assert Extends(s, command, H, Write(s, command).status, longer) by { WriteExtends(s, command, H); }
  }

  /** No acknowledged write is ever lost, for any number of replicas and any pattern of failures,
      stops and restarts: the history at any earlier point is a prefix of the history now. */
  lemma {:induction false} NothingIsLost(ids: seq<string>, steps: seq<Step>, j: nat)
    requires Distinct(ids) && ids != [] && j <= |steps|
    ensures History(ids, steps[..j]) <= History(ids, steps)
  {
    if j == |steps| {
      assert steps[..j] == steps;
    } else {
      var front := steps[..|steps| - 1];
      NothingIsLost(ids, front, j);
      assert front[..j] == steps[..j];
      RunSafe(ids, front);
      StepGrows(StateAfter(ids, front), steps[|steps| - 1], History(ids, front));
    }
  }

  // ---------------------------------------------------------------- refinement of a plain map

  /** The commands a step adds: an acknowledged write always, a refused one never, an interrupted
      one if the stop came after the leader's commit. */
  function Appended(sys: System, step: Step): seq<Command>
    requires WellShaped(sys)
  {
    if sys.Up? && step.Do? && IsWrite(step.op) && AnswerTo(sys, step) == Stored then [CommandOf(step.op)]
    else if sys.Up? && step.StopIn? && IsWrite(step.op) && AnswerOf(sys.s, step.op) == Stored
            && Min(step.after, |PlanOf(sys.s, step.op).calls|) > CommitCut(sys.s, CommandOf(step.op))
    then [CommandOf(step.op)]
    else []
  }

  function Kept(ids: seq<string>, steps: seq<Step>): seq<Command> {
    if steps == [] then []
    else
      var front := steps[..|steps| - 1];
      Kept(ids, front) + Appended(StateAfter(ids, front), steps[|steps| - 1])
  }

  /** The acknowledged writes of a run, in order. */
  function Acknowledged(ids: seq<string>, steps: seq<Step>): seq<Command> {
    if steps == [] then []
    else
      var front, step := steps[..|steps| - 1], steps[|steps| - 1];
      Acknowledged(ids, front)
      + (if AnswerTo(StateAfter(ids, front), step) == Stored && step.Do? && IsWrite(step.op)
         then [CommandOf(step.op)] else [])
  }

  lemma StepAppends(sys: System, step: Step, H: seq<Entry>)
    requires WellShaped(sys) && SystemSafe(sys, H)
    requires |Replicas(sys)| >= 2 || NoTails(Replicas(sys))
    ensures Commands(HistoryNext(sys, step, H)) == Commands(H) + Appended(sys, step)
  {
    if sys.Up? && (step.Do? || step.StopIn?) && IsWrite(step.op) {
      WriteExtends(sys.s, CommandOf(step.op), H);
    }
  }

  /** Stops only between operations. */
  predicate Clean(step: Step) {
    match step
    case StopIn(_, k) => k == 0
    case StopInBoot(k) => k == 0
    case _ => true
  }

  lemma CleanKeepsNoTails(sys: System, step: Step, H: seq<Entry>)
    requires WellShaped(sys) && SystemSafe(sys, H) && Clean(step) && NoTails(Replicas(sys))
    ensures NoTails(Replicas(Next(sys, step)))
  {
    match (sys, step)
    case (Up(s), Do(op)) => PlanLeavesNoTails(s, op, H);
    case (Down(ids, disks), Boot) => BootLeavesNoTails(ids, disks, H);
    case _ =>
  }

  lemma PlanLeavesNoTails(s: ShardState, op: Op, H: seq<Entry>)
    requires Between(s, H) && NoTails(s.reps)
    ensures NoTails(After(s, PlanOf(s, op)).reps)
  {
    if IsWrite(op) { WriteKeeps(s, CommandOf(op), H); } else { PlanKeeps(s, op, H); }
  }

  lemma BootLeavesNoTails(ids: seq<string>, disks: seq<Replica>, H: seq<Entry>)
    requires Shaped(ShardState(ids, disks, "")) && CrashSafe(disks, H) && NoTails(disks)
    ensures var s := Loaded(ids, disks); NoTails(After(s, EnsureLeader(s)).reps)
  {
    BootKeeps(Loaded(ids, disks), disks, H);
    assert NoTails(Loaded(ids, disks).reps);
  }

  lemma {:induction false} CleanRun(ids: seq<string>, steps: seq<Step>)
    requires Distinct(ids) && ids != [] && forall k :: 0 <= k < |steps| ==> Clean(steps[k])
    ensures NoTails(Replicas(StateAfter(ids, steps)))
    ensures Kept(ids, steps) == Acknowledged(ids, steps)
  {
    if steps == [] {
      FreshSafe(ids);
    } else {
      var front := steps[..|steps| - 1];
      CleanRun(ids, front);
      RunSafe(ids, front);
      CleanKeepsNoTails(StateAfter(ids, front), steps[|steps| - 1], History(ids, front));
    }
  }

  lemma {:induction false} RunSize(ids: seq<string>, steps: seq<Step>)
    ensures |Replicas(StateAfter(ids, steps))| == |ids|
    ensures var sys := StateAfter(ids, steps); (if sys.Up? then sys.s.ids else sys.ids) == ids
  {
    if steps != [] { RunSize(ids, steps[..|steps| - 1]); }
  }

  /** With two or more replicas, or with stops only between operations, the history is exactly the
      kept commands. */
  lemma {:induction false} RunKeeps(ids: seq<string>, steps: seq<Step>)
    requires Distinct(ids) && ids != []
    requires |ids| >= 2 || forall k :: 0 <= k < |steps| ==> Clean(steps[k])
    ensures Commands(History(ids, steps)) == Kept(ids, steps)
  {
    if steps != [] {
      var front := steps[..|steps| - 1];
      RunKeeps(ids, front);
      RunSafe(ids, front);
      RunSize(ids, front);
      if |ids| < 2 { CleanRun(ids, front); }
      StepAppends(StateAfter(ids, front), steps[|steps| - 1], History(ids, front));
    }
  }

  /** A shard refines a plain map: in every run that stops only between operations, a read that is
      answered agrees with the acknowledged writes played in order, whichever replica leads. */
  lemma ShardRefinesMap(ids: seq<string>, steps: seq<Step>, key: Bytes)
    requires Distinct(ids) && ids != [] && forall k :: 0 <= k < |steps| ==> Clean(steps[k])
    ensures var sys := StateAfter(ids, steps);
            sys.Up? && Read(sys.s, key) != Unavailable ==>
              Read(sys.s, key) == AnswerFor(Lookup(MapOf(Acknowledged(ids, steps)), key))
  {
    RunSafe(ids, steps);
    RunKeeps(ids, steps);
    CleanRun(ids, steps);
    ReplayIsMap(History(ids, steps));
    var sys := StateAfter(ids, steps);
    if sys.Up? { ReadAgrees(sys.s, History(ids, steps), key); }
  }

  /** Crash tolerance: with two or more replicas and stops between any two calls, an interrupted
      write is in every later answer or in none, every acknowledged one is in all of them. */
  lemma ShardRefinesMapDespiteStops(ids: seq<string>, steps: seq<Step>, key: Bytes)
    requires Distinct(ids) && |ids| >= 2
    ensures var sys := StateAfter(ids, steps);
            sys.Up? && Read(sys.s, key) != Unavailable ==>
              Read(sys.s, key) == AnswerFor(Lookup(MapOf(Kept(ids, steps)), key))
  {
    RunSafe(ids, steps);
    RunKeeps(ids, steps);
    ReplayIsMap(History(ids, steps));
    var sys := StateAfter(ids, steps);
    if sys.Up? { ReadAgrees(sys.s, History(ids, steps), key); }
  }

  /** Exact availability in runs that stop only between operations. */
  lemma ExactAvailability(ids: seq<string>, steps: seq<Step>, op: Op)
    requires Distinct(ids) && ids != [] && forall k :: 0 <= k < |steps| ==> Clean(steps[k])
    ensures var sys := StateAfter(ids, steps);
            sys.Up? && IsWrite(op) ==>
              && (AnswerOf(sys.s, op) == Stored <==> 2 * |OnlineSet(sys.s.reps)| > |ids|)
              && (AnswerOf(sys.s, op) == Unavailable <==> 2 * |OnlineSet(sys.s.reps)| <= |ids|)
    ensures var sys := StateAfter(ids, steps);
            sys.Up? && op.Get? ==>
              (AnswerOf(sys.s, op) == Unavailable <==> CurrentLeader(sys.s) < 0 && 2 * |OnlineSet(sys.s.reps)| <= |ids|)
  {
    RunSafe(ids, steps);
    RunSize(ids, steps);
    CleanRun(ids, steps);
    var sys := StateAfter(ids, steps);
    if sys.Up? && IsWrite(op) { WriteKeeps(sys.s, CommandOf(op), History(ids, steps)); }
    if sys.Up? && op.Get? { ReadAgrees(sys.s, History(ids, steps), op.key); }
  }

  /** State machine safety in full: in every state such a run reaches, every replica, online or
      not, has a log that is a prefix of the one history, all of it committed and applied. */
  lemma LogsArePrefixes(ids: seq<string>, steps: seq<Step>, i: nat)
    requires Distinct(ids) && i < |ids| && forall k :: 0 <= k < |steps| ==> Clean(steps[k])
    ensures |Replicas(StateAfter(ids, steps))| == |ids|
    ensures var r, H := Replicas(StateAfter(ids, steps))[i], History(ids, steps);
            r.log <= H && WellFormed(H) && r.commit == |r.log| && r.kv == Replay(r.log)
  {
    RunSafe(ids, steps);
    CleanRun(ids, steps);
    RunSize(ids, steps);
    var r, H := Replicas(StateAfter(ids, steps))[i], History(ids, steps);
    assert ReplicaSafe(r, H);
    assert r.log[..r.commit] == r.log;
  }

  /** The candidate an election picks among the online replicas, and its votes. */
  ghost predicate WinsEveryVote(s: ShardState, H: seq<Entry>)
    requires |s.ids| == |s.reps| && Online(s.reps) != []
  {
    var on := Online(s.reps);
    var c := Best(s.reps, on);
    && s.reps[c].online && Holds(s.reps[c], H)
    && Votes(Exec(s.reps, CallSetRole(c, Candidate)), on, |on|, NextTerm(s.reps), s.ids[c],
             |s.reps[c].log|, LastTerm(s.reps[c].log)) == |on|
    && EnsureLeader(s).status == Done && EnsureLeader(s).leader == s.ids[c]
  }

  lemma ElectionIsUnanimous(s: ShardState, H: seq<Entry>)
    requires Between(s, H) && CurrentLeader(s) < 0 && HasQuorumOnline(s.reps)
    ensures Online(s.reps) != [] && WinsEveryVote(s, H)
  {
    QuorumHasHolder(s, H);
    ElectionWon(s, H);
    ElectionSucceeds(s, H);
  }

  /** Leader completeness: in every reachable state between operations a majority holds the whole
      history, so an election with a majority online never fails; its candidate holds all of the
      history and gets every online vote. */
  lemma LeaderCompleteness(ids: seq<string>, steps: seq<Step>)
    requires Distinct(ids) && ids != [] && StateAfter(ids, steps).Up?
    ensures var s, H := StateAfter(ids, steps).s, History(ids, steps);
            && 2 * |Holders(s.reps, H)| > |ids|
            && (CurrentLeader(s) < 0 && 2 * |OnlineSet(s.reps)| > |ids| ==> Online(s.reps) != [] && WinsEveryVote(s, H))
  {
    RunSafe(ids, steps);
    RunSize(ids, steps);
    var s := StateAfter(ids, steps).s;
    if CurrentLeader(s) < 0 && HasQuorumOnline(s.reps) { ElectionIsUnanimous(s, History(ids, steps)); }
  }

  lemma AfterOneMore(ids: seq<string>, steps: seq<Step>, step: Step)
    ensures StateAfter(ids, steps + [step]) == Next(StateAfter(ids, steps), step)
    ensures History(ids, steps + [step]) == HistoryNext(StateAfter(ids, steps), step, History(ids, steps))
  {
    assert (steps + [step])[..|steps|] == steps;
  }
}
