/** Whole runs of one shard process: any sequence of operations, stops between any two replica
    calls, and restarts. */
module Runs {
  import opened Log
  import opened Protocol
  import opened Safety
  import opened Election
  import opened Writes
  import opened Operations

  datatype Op =
    | Put(key: Bytes, value: Bytes) | Erase(key: Bytes) | Get(key: Bytes)
    | Fail(id: string) | Recover(id: string) | Elect

  predicate IsWrite(op: Op) { op.Put? || op.Erase? }

  function CommandOf(op: Op): (c: Command)
    requires IsWrite(op)
    ensures Known(c)
  {
    if op.Put? then Command(PUT, op.key, op.value) else Command(DELETE, op.key, [])
  }

  function PlanOf(s: ShardState, op: Op): Plan
    requires |s.ids| == |s.reps|
  {
    match op
    case Fail(id) => Protocol.Fail(s, id)
    case Recover(id) => Protocol.Recover(s, id)
    case Get(_) => EnsureLeader(s)
    case Elect => EnsureLeader(s)
    case _ => Write(s, CommandOf(op))
  }

  datatype Answer = Stored | Value(value: Bytes) | NotFound | Unavailable | Exception | Flag(ok: bool) | NoAnswer

  /** A read through whatever leader ensure_leader_locked settled on. */
  function Read(s: ShardState, key: Bytes): Answer
    requires |s.ids| == |s.reps|
  {
    var p := EnsureLeader(s);
    var l := CurrentLeader(After(s, p));
    if p.status != Done || l < 0 then Unavailable
    else match Lookup(After(s, p).reps[l].kv, key)
         case Some(v) => Value(v)
         case None => NotFound
  }

  function AnswerOf(s: ShardState, op: Op): Answer
    requires |s.ids| == |s.reps|
  {
    if op.Get? then Read(s, op.key)
    else
      var status := PlanOf(s, op).status;
      if !IsWrite(op) then Flag(status == Done)
      else match status
           case Done => Stored
           case Refused => Unavailable
           case Threw => Exception
  }

  // ---------------------------------------------------------------- the process

  /** A running shard, or what a stopped one left on disk. */
  datatype System = Up(s: ShardState) | Down(ids: seq<string>, disks: seq<Replica>)

  datatype Step =
    | Do(op: Op)                 // an operation runs to its end
    | StopIn(op: Op, after: nat) // the process stops after that many of the operation's calls
    | Boot                       // a stopped process starts again
    | StopInBoot(after: nat)     // ... and stops during the constructor's election

  function Prefix(calls: seq<Call>, k: nat): seq<Call> { calls[..Min(k, |calls|)] }

  predicate WellShaped(sys: System) {
    match sys
    case Up(s) => |s.ids| == |s.reps|
    case Down(ids, disks) => |ids| == |disks|
  }

  function Next(sys: System, step: Step): (next: System)
    requires WellShaped(sys)
    ensures WellShaped(next)
  {
    match (sys, step)
    case (Up(s), Do(op)) => Up(After(s, PlanOf(s, op)))
    case (Up(s), StopIn(op, k)) => Down(s.ids, Run(s.reps, Prefix(PlanOf(s, op).calls, k)))
    case (Down(ids, disks), Boot) =>
      var s := Loaded(ids, disks);
      Up(After(s, EnsureLeader(s)))
    case (Down(ids, disks), StopInBoot(k)) =>
      var s := Loaded(ids, disks);
      Down(ids, Run(s.reps, Prefix(EnsureLeader(s).calls, k)))
    case _ => sys
  }

  function AnswerTo(sys: System, step: Step): Answer
    requires WellShaped(sys)
  {
    if sys.Up? && step.Do? then AnswerOf(sys.s, step.op) else NoAnswer
  }

  /** Empty databases for these replicas. */
  function Fresh(ids: seq<string>): (sys: System)
    ensures WellShaped(sys)
  {
    Down(ids, seq(|ids|, _ => FRESH))
  }

  function StateAfter(ids: seq<string>, steps: seq<Step>): (sys: System)
    ensures WellShaped(sys)
  {
    if steps == [] then Fresh(ids) else Next(StateAfter(ids, steps[..|steps| - 1]), steps[|steps| - 1])
  }

  // ---------------------------------------------------------------- the history of a run

  function HistoryNext(sys: System, step: Step, H: seq<Entry>): seq<Entry>
    requires WellShaped(sys)
  {
    match (sys, step)
    case (Up(s), Do(op)) => if IsWrite(op) then HistoryAfter(s, CommandOf(op), H) else H
    case (Up(s), StopIn(op, k)) =>
      if IsWrite(op) && Min(k, |PlanOf(s, op).calls|) > CommitCut(s, CommandOf(op))
      then HistoryAfter(s, CommandOf(op), H) else H
    case _ => H
  }

  function History(ids: seq<string>, steps: seq<Step>): seq<Entry> {
    if steps == [] then []
    else
      var front := steps[..|steps| - 1];
      HistoryNext(StateAfter(ids, front), steps[|steps| - 1], History(ids, front))
  }

  ghost predicate SystemSafe(sys: System, H: seq<Entry>) {
    match sys
    case Up(s) => Between(s, H)
    case Down(ids, disks) => Shaped(ShardState(ids, disks, "")) && CrashSafe(disks, H)
  }

  function Replicas(sys: System): seq<Replica> { if sys.Up? then sys.s.reps else sys.disks }

  lemma StopKeeps(s: ShardState, calls: seq<Call>, k: nat, H: seq<Entry>)
    requires Shaped(s) && AllAlong(s.reps, calls, H)
    ensures SystemSafe(Down(s.ids, Run(s.reps, Prefix(calls, k))), H)
  {
  }

  lemma PlanKeeps(s: ShardState, op: Op, H: seq<Entry>)
    requires Between(s, H) && !IsWrite(op)
    ensures AllAlong(s.reps, PlanOf(s, op).calls, H)
    ensures Between(After(s, PlanOf(s, op)), H)
    ensures NoTails(s.reps) ==> NoTails(After(s, PlanOf(s, op)).reps)
  {
    match op
    case Fail(id) => FailKeeps(s, id, H);
    case Recover(id) =>
      RecoverKeeps(s, id, H);
      if PlanOf(s, op).status != Done { HarmlessAllAlong(s.reps, [], H); }
    case _ => EnsureKeeps(s, H);
  }

  lemma WriteStopKeeps(s: ShardState, op: Op, k: nat, H: seq<Entry>)
    requires Between(s, H) && IsWrite(op)
    ensures SystemSafe(Next(Up(s), StopIn(op, k)), HistoryNext(Up(s), StopIn(op, k), H))
  {
    WriteKeeps(s, CommandOf(op), H);
    var calls := PlanOf(s, op).calls;
    assert Turns(s.reps, calls, CommitCut(s, CommandOf(op)), H, HistoryAfter(s, CommandOf(op), H));
  }

  /** Every step, including a stop at any point and a stop while starting, keeps the invariant. */
  lemma StepKeeps(sys: System, step: Step, H: seq<Entry>)
    requires WellShaped(sys) && SystemSafe(sys, H)
    ensures SystemSafe(Next(sys, step), HistoryNext(sys, step, H))
  {
    match (sys, step)
    case (Up(s), Do(op)) =>
      if IsWrite(op) { WriteKeeps(s, CommandOf(op), H); } else { PlanKeeps(s, op, H); }
    case (Up(s), StopIn(op, k)) =>
      if IsWrite(op) {
        WriteStopKeeps(s, op, k, H);
      } else {
        PlanKeeps(s, op, H);
        StopKeeps(s, PlanOf(s, op).calls, k, H);
      }
    case (Down(ids, disks), Boot) =>
      BootKeeps(Loaded(ids, disks), disks, H);
    case (Down(ids, disks), StopInBoot(k)) =>
      var s := Loaded(ids, disks);
      BootKeeps(s, disks, H);
      StopKeeps(s, EnsureLeader(s).calls, k, H);
    case _ =>
  }

  lemma FreshSafe(ids: seq<string>)
    requires Distinct(ids) && ids != []
    ensures SystemSafe(Fresh(ids), []) && NoTails(Fresh(ids).disks)
  {
    var disks := Fresh(ids).disks;
    assert Holds(disks[0], []);
  }

  /** State machine safety: in every reachable state, up or down, every replica's committed log is
      a piece of one history and its table is that piece replayed. */
  lemma {:induction false} RunSafe(ids: seq<string>, steps: seq<Step>)
    requires Distinct(ids) && ids != []
    ensures SystemSafe(StateAfter(ids, steps), History(ids, steps))
  {
    if steps == [] {
      FreshSafe(ids);
    } else {
      RunSafe(ids, steps[..|steps| - 1]);
      StepKeeps(StateAfter(ids, steps[..|steps| - 1]), steps[|steps| - 1], History(ids, steps[..|steps| - 1]));
    }
  }
}
