/** Nothing is invented: whatever is in any replica's log, tails included, is a command some client
    asked this shard for. */
module Provenance {
  import opened Log
  import opened Protocol
  import opened Runs

  /** The commands of a log are among `asked`. */
  ghost predicate From(log: seq<Entry>, asked: iset<Command>) {
    forall k :: 0 <= k < |log| ==> log[k].command in asked
  }

  ghost predicate AllFrom(reps: seq<Replica>, asked: iset<Command>) {
    forall i {:trigger reps[i]} :: 0 <= i < |reps| ==> From(reps[i].log, asked)
  }

  /** What a call brings with it is among `asked`. */
  ghost predicate Brings(c: Call, asked: iset<Command>) {
    match c
    case CallInstall(_, snap) => From(snap.log, asked)
    case CallAppendLocal(_, command) => command in asked
    case CallAppendEntries(_, _, _, _, _, entries, _) => From(entries, asked)
    case _ => true
  }

  ghost predicate AllBring(calls: seq<Call>, asked: iset<Command>) {
    forall k {:trigger calls[k]} :: 0 <= k < |calls| ==> Brings(calls[k], asked)
  }

  // ---------------------------------------------------------------- one call

  lemma {:induction false} MergeFrom(log: seq<Entry>, entries: seq<Entry>, asked: iset<Command>)
    requires From(log, asked) && From(entries, asked)
    ensures From(MergeAll(log, entries), asked)
  {
    if entries != [] { MergeFrom(log, entries[..|entries| - 1], asked); }
  }

  lemma CallFrom(r: Replica, c: Call, asked: iset<Command>)
    requires From(r.log, asked) && Brings(c, asked)
    ensures From(On(r, c).log, asked)
  {
    if c.CallAppendEntries? { MergeFrom(r.log, c.entries, asked); }
  }

  lemma {:induction false} RunFrom(reps: seq<Replica>, calls: seq<Call>, asked: iset<Command>)
    requires AllFrom(reps, asked) && AllBring(calls, asked)
    ensures AllFrom(Run(reps, calls), asked)
  {
    if calls != [] {
      var front, c := calls[..|calls| - 1], calls[|calls| - 1];
      RunFrom(reps, front, asked);
      var mid := Run(reps, front);
      if c.i < |mid| { CallFrom(mid[c.i], c, asked); }
    }
  }

  lemma ExportFrom(reps: seq<Replica>, l: nat, asked: iset<Command>)
    requires AllFrom(reps, asked) && l < |reps|
    ensures From(Export(reps[l]).log, asked)
  {
  }

  lemma BringsConcat(a: seq<Call>, b: seq<Call>, asked: iset<Command>)
    requires AllBring(a, asked) && AllBring(b, asked)
    ensures AllBring(a + b, asked)
  {
  }

  // ---------------------------------------------------------------- plans

  lemma {:induction false} SyncBrings(on: seq<nat>, l: nat, snap: Snapshot, asked: iset<Command>)
    requires From(snap.log, asked)
    ensures AllBring(SyncCalls(on, l, snap), asked)
  {
    if on != [] { SyncBrings(on[..|on| - 1], l, snap, asked); }
  }

  lemma InaugurationBrings(reps: seq<Replica>, on: seq<nat>, c: nat, asked: iset<Command>)
    requires AllFrom(reps, asked) && c < |reps|
    ensures AllBring(InaugurateCalls(reps, on, c), asked)
  {
    var crown := CrownCalls(|reps|, c);
    RunFrom(reps, crown, asked);
    ExportFrom(Run(reps, crown), c, asked);
    SyncBrings(on, c, Export(Run(reps, crown)[c]), asked);
  }

  lemma VotingBrings(s: ShardState, c: nat, asked: iset<Command>)
    requires |s.ids| == |s.reps| && c < |s.reps| && AllFrom(s.reps, asked)
    ensures AllBring(VotingCalls(s, c), asked) && AllFrom(Run(s.reps, VotingCalls(s, c)), asked)
  {
    RunFrom(s.reps, VotingCalls(s, c), asked);
  }

  lemma ContestBrings(s: ShardState, c: nat, asked: iset<Command>)
    requires |s.ids| == |s.reps| && c < |s.reps| && AllFrom(s.reps, asked)
    ensures AllBring(Contest(s, c).calls, asked)
  {
    var voting, on := VotingCalls(s, c), Online(s.reps);
    VotingBrings(s, c, asked);
    InaugurationBrings(Run(s.reps, voting), on, c, asked);
    BringsConcat(voting, InaugurateCalls(Run(s.reps, voting), on, c), asked);
    BringsConcat(voting, [CallSetRole(c, Follower)], asked);
  }

  lemma EnsureBrings(s: ShardState, asked: iset<Command>)
    requires |s.ids| == |s.reps| && AllFrom(s.reps, asked)
    ensures AllBring(EnsureLeader(s).calls, asked)
  {
    var on := Online(s.reps);
    if CurrentLeader(s) < 0 && |on| >= Quorum(|s.reps|) { ContestBrings(s, Best(s.reps, on), asked); }
  }

  lemma {:induction false} ReplicationBrings(reps: seq<Replica>, id: string, l: nat, e: Entry, n: nat,
      asked: iset<Command>)
    requires l < |reps| && n <= |reps| && AllFrom(reps, asked) && e.command in asked
    ensures AllBring(ReplicateCalls(reps, id, l, e, n), asked)
  {
    if n != 0 {
      ReplicationBrings(reps, id, l, e, n - 1, asked);
      ExportFrom(reps, l, asked);
    }
  }

  lemma SpreadBrings(s: ShardState, l: nat, c: Command, asked: iset<Command>)
    requires |s.ids| == |s.reps| && l < |s.reps| && AllFrom(s.reps, asked) && c in asked
    ensures AllBring(SpreadCalls(s, l, c), asked)
  {
    var first := CallAppendLocal(l, c);
    var reps := Exec(s.reps, first);
    CallFrom(s.reps[l], first, asked);
    ReplicationBrings(reps, s.ids[l], l, NextEntry(s.reps[l], c), |reps|, asked);
    BringsConcat([first], ReplicateCalls(reps, s.ids[l], l, NextEntry(s.reps[l], c), |reps|), asked);
  }

  lemma WriteViaBrings(s: ShardState, l: nat, c: Command, asked: iset<Command>)
    requires |s.ids| == |s.reps| && l < |s.reps| && AllFrom(s.reps, asked) && c in asked
    ensures AllBring(WriteVia(s, l, c).calls, asked)
  {
    SpreadBrings(s, l, c, asked);
  }

  lemma WriteBrings(s: ShardState, c: Command, asked: iset<Command>)
    requires |s.ids| == |s.reps| && AllFrom(s.reps, asked) && c in asked
    ensures AllBring(Write(s, c).calls, asked)
  {
    EnsureBrings(s, asked);
    var p := EnsureLeader(s);
    var s1 := After(s, p);
    RunFrom(s.reps, p.calls, asked);
    if CurrentLeader(s1) >= 0 {
      WriteViaBrings(s1, CurrentLeader(s1), c, asked);
      BringsConcat(p.calls, WriteVia(s1, CurrentLeader(s1), c).calls, asked);
    }
  }

  lemma RejoinBrings(s: ShardState, i: nat, asked: iset<Command>)
    requires |s.ids| == |s.reps| && i < |s.ids| && AllFrom(s.reps, asked)
    ensures AllBring(RecoverTail(s, i).calls, asked)
  {
    EnsureBrings(s, asked);
    var e := EnsureLeader(s);
    var s1 := After(s, e);
    RunFrom(s.reps, e.calls, asked);
    if CurrentLeader(s1) >= 0 { ExportFrom(s1.reps, CurrentLeader(s1), asked); }
  }

  lemma RecoverBrings(s: ShardState, id: string, asked: iset<Command>)
    requires |s.ids| == |s.reps| && AllFrom(s.reps, asked)
    ensures AllBring(Protocol.Recover(s, id).calls, asked)
  {
    var i := Locate(s.ids, id);
    if i >= 0 {
      var up := CallSetOnline(i, true);
      var s0 := ShardState(s.ids, Exec(s.reps, up), s.leader);
      CallFrom(s.reps[i], up, asked);
      RejoinBrings(s0, i, asked);
    }
  }

  lemma RecoverFrom(s: ShardState, id: string, after: ShardState, asked: iset<Command>)
    requires |s.ids| == |s.reps| && AllFrom(s.reps, asked) && after == After(s, Protocol.Recover(s, id))
    ensures AllFrom(after.reps, asked)
  {
    RecoverBrings(s, id, asked);
    RunFrom(s.reps, Protocol.Recover(s, id).calls, asked);
  }

  /** Whatever an operation brings is what was there or what it was asked for. */
  lemma PlanBrings(s: ShardState, op: Op, asked: iset<Command>)
    requires |s.ids| == |s.reps| && AllFrom(s.reps, asked) && (IsWrite(op) ==> CommandOf(op) in asked)
    ensures AllBring(PlanOf(s, op).calls, asked) && AllFrom(After(s, PlanOf(s, op)).reps, asked)
  {
    match op {
      case Fail(_) =>
      case Recover(id) => RecoverBrings(s, id, asked);
      case Get(_) => EnsureBrings(s, asked);
      case Elect => EnsureBrings(s, asked);
      case _ => WriteBrings(s, CommandOf(op), asked);
    }
    RunFrom(s.reps, PlanOf(s, op).calls, asked);
  }

  // ---------------------------------------------------------------- whole runs

  ghost predicate Asks(step: Step, asked: iset<Command>) {
    (step.Do? || step.StopIn?) && IsWrite(step.op) ==> CommandOf(step.op) in asked
  }

  lemma StepFrom(sys: System, step: Step, asked: iset<Command>)
    requires WellShaped(sys) && AllFrom(Replicas(sys), asked) && Asks(step, asked)
    ensures AllFrom(Replicas(Next(sys, step)), asked)
  {
    match (sys, step)
    case (Up(s), Do(op)) => PlanBrings(s, op, asked);
    case (Up(s), StopIn(op, k)) =>
      PlanBrings(s, op, asked);
      RunFrom(s.reps, Prefix(PlanOf(s, op).calls, k), asked);
    case (Down(ids, disks), Boot) => EnsureFrom(Loaded(ids, disks), asked);
    case (Down(ids, disks), StopInBoot(k)) =>
      var s := Loaded(ids, disks);
      EnsureFrom(s, asked);
      RunFrom(s.reps, Prefix(EnsureLeader(s).calls, k), asked);
    case _ =>
  }

  lemma EnsureFrom(s: ShardState, asked: iset<Command>)
    requires |s.ids| == |s.reps| && AllFrom(s.reps, asked)
    ensures AllBring(EnsureLeader(s).calls, asked) && AllFrom(Run(s.reps, EnsureLeader(s).calls), asked)
  {
    EnsureBrings(s, asked);
    RunFrom(s.reps, EnsureLeader(s).calls, asked);
  }

  /** In every run, stops anywhere included, every entry of every log is a command a client asked for. */
  lemma {:induction false} NothingInvented(ids: seq<string>, steps: seq<Step>, asked: iset<Command>)
    requires forall k :: 0 <= k < |steps| ==> Asks(steps[k], asked)
    ensures AllFrom(Replicas(StateAfter(ids, steps)), asked)
  {
    if steps != [] {
      NothingInvented(ids, steps[..|steps| - 1], asked);
      StepFrom(StateAfter(ids, steps[..|steps| - 1]), steps[|steps| - 1], asked);
    }
  }
}
