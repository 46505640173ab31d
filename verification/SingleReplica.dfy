/** Why crash tolerance needs two replicas: a lone replica is its own majority, so what an
    interrupted write left in its log is committed by the next write, after reads have missed it. */
module SingleReplica {
  import opened Log
  import opened Protocol
  import opened Safety
  import opened Election
  import opened Writes
  import opened Operations
  import opened Runs
  import opened Theorems

  lemma LoneLeaderKeepsLog(s: ShardState, H: seq<Entry>)
    requires Between(s, H) && |s.reps| == 1 && HasQuorumOnline(s.reps)
    ensures EnsureLeader(s).status == Done && CurrentLeader(Ready(s)) == 0 && Ready(s).reps[0].log == s.reps[0].log
  {
    EnsureKeeps(s, H);
    LeaderFound(Ready(s), H);
    if CurrentLeader(s) < 0 {
      QuorumHasHolder(s, H);
      ElectionSucceeds(s, H);
      assert Run(s.reps, EnsureLeader(s).calls)[0] == Elected(s.reps, s.ids, 0, H, 0);
    }
  }

  lemma LoneHistory(s: ShardState, c: Command, H: seq<Entry>, s1: ShardState)
    requires Between(s, H) && Known(c) && |s.reps| == 1 && HasQuorumOnline(s.reps) && s1 == Ready(s)
    ensures Write(s, c).status == Done
    ensures HistoryAfter(s, c, H) == s.reps[0].log + [NextEntry(s1.reps[0], c)]
  {
    LoneLeaderKeepsLog(s, H);
    EnsureKeeps(s, H);
    LeaderFound(s1, H);
    WriteViaKeeps(s1, 0, c, H);
    OnlineSame(s, H);
  }

  /** A single-replica write adds exactly its own command if and only if the replica carried
      nothing beyond its commit index; whatever it carried is committed with it. */
  lemma LoneWriteIsExact(s: ShardState, c: Command, H: seq<Entry>)
    requires Between(s, H) && Known(c) && |s.reps| == 1 && HasQuorumOnline(s.reps)
    ensures Write(s, c).status == Done
    ensures Commands(HistoryAfter(s, c, H)) == Commands(s.reps[0].log) + [c]
    ensures Commands(HistoryAfter(s, c, H)) == Commands(H) + [c] <==> NoTails(s.reps)
  {
    LoneHistory(s, c, H, Ready(s));
    LoneHolder(s, H);
    LoneExactFrom(s.reps[0], c, NextEntry(Ready(s).reps[0], c), H);
  }

  /** What a lone replica carries beyond its commit index, and the next write commits with itself. */
  function LateCommands(reps: seq<Replica>): seq<Command> {
    if |reps| == 1 && reps[0].commit <= |reps[0].log| then Commands(reps[0].log[reps[0].commit..]) else []
  }

  lemma LateSplit(r: Replica, H: seq<Entry>)
    requires Sound(r, H) && Holds(r, H)
    ensures Commands(r.log) == Commands(H) + Commands(r.log[r.commit..])
  {
    assert H[..|H|] == H && r.log == r.log[..r.commit] + r.log[r.commit..];
  }

  /** In all generality: a stored write adds what a lone replica carried, and then itself. */
  lemma WriteAddsLate(s: ShardState, c: Command, H: seq<Entry>, longer: seq<Entry>)
    requires Between(s, H) && Known(c) && Write(s, c).status == Done && longer == HistoryAfter(s, c, H)
    ensures Commands(longer) == Commands(H) + LateCommands(s.reps) + [c]
  {
    WriteExtends(s, c, H);
    if |s.reps| == 1 {
      WriteKeeps(s, c, H);
      LoneWriteIsExact(s, c, H);
      LoneHolder(s, H);
      LateSplit(s.reps[0], H);
    } else {
      assert Commands(H) + [] + [c] == Commands(H) + [c];
    }
  }

  lemma SettledHasNoneLate(reps: seq<Replica>)
    requires |reps| >= 2 || NoTails(reps)
    ensures LateCommands(reps) == []
  {
  }

  lemma LoneExactFrom(r: Replica, c: Command, e: Entry, H: seq<Entry>)
    requires Sound(r, H) && Holds(r, H) && e.command == c
    ensures Commands(r.log + [e]) == Commands(r.log) + [c]
    ensures Commands(r.log + [e]) == Commands(H) + [c] <==> |r.log| == r.commit
  {
    assert H[..|H|] == H;
    if |r.log| == r.commit {
      assert r.log[..r.commit] == r.log;
    } else {
      assert |Commands(r.log + [e])| != |Commands(H) + [c]|;
    }
  }

  lemma LoneHolder(s: ShardState, H: seq<Entry>)
    requires Between(s, H) && |s.reps| == 1
    ensures Holds(s.reps[0], H) && Sound(s.reps[0], H)
  {
    assert ReplicaSafe(s.reps[0], H);
  }

  lemma OnlineSame(s: ShardState, H: seq<Entry>)
    requires Between(s, H)
    ensures OnlineSet(Ready(s).reps) == OnlineSet(s.reps)
  {
    EnsureKeeps(s, H);
  }

  /** Stopped right after append_local, the lone replica keeps the entry in its log, uncommitted. */
  lemma StoppedWriteStaysInLog(s: ShardState, op: Op, H: seq<Entry>)
    requires Between(s, H) && |s.reps| == 1 && s.leader != "" && IsWrite(op)
    ensures var next := Next(Up(s), StopIn(op, 1));
            && HistoryNext(Up(s), StopIn(op, 1), H) == H
            && next == Down(s.ids, [AppendLocal(s.reps[0], CommandOf(op))])
            && next.disks[0].log == s.reps[0].log + [NextEntry(s.reps[0], CommandOf(op))]
  {
    LeaderFound(s, H);
    var c := CommandOf(op);
    var first := CallAppendLocal(0, c);
    assert s.ids[0] == s.leader && CurrentLeader(s) == 0;
    assert ReplicateCalls(Exec(s.reps, first), s.ids[0], 0, NextEntry(s.reps[0], c), 0) == [];
    assert SpreadCalls(s, 0, c) == [first];
    var calls := PlanOf(s, op).calls;
    assert PlanOf(s, op) == Write(s, c) && EnsureLeader(s).calls == [] && Ready(s) == s;
    assert calls == [] + WriteVia(s, 0, c).calls && calls[0] == first;
    assert Prefix(calls, 1) == [first];
    RunOne(s.reps, first);
  }

  lemma LoneElected(s: ShardState, H: seq<Entry>)
    requires Shaped(s) && |s.reps| == 1 && CrashSafe(s.reps, H) && OnlineHolder(s.reps, H)
    requires CurrentLeader(s) < 0 && HasQuorumOnline(s.reps)
    ensures Run(s.reps, EnsureLeader(s).calls)[0].log == s.reps[0].log
  {
    ElectionSucceeds(s, H);
    assert Run(s.reps, EnsureLeader(s).calls)[0] == Elected(s.reps, s.ids, 0, H, 0);
  }

  /** A restart leaves the lone replica's log, tail included, as it was, and answers from H. */
  lemma LoneBoot(s: ShardState, disk: Replica, H: seq<Entry>, key: Bytes)
    requires |s.ids| == 1 && Distinct(s.ids) && s == Loaded(s.ids, [disk]) && CrashSafe([disk], H)
    ensures var next := After(s, EnsureLeader(s));
            && |next.reps| == 1 && next.reps[0].log == disk.log && next.reps[0].online
            && Between(next, H) && Read(next, key) == AnswerFor(Lookup(Replay(H), key))
  {
    LoadedReady(s.ids, [disk], H);
    LoneElected(s, H);
    BootKeeps(s, [disk], H);
    var next := After(s, EnsureLeader(s));
    LeaderFound(next, H);
    ReadAgrees(next, H, key);
  }

  /** The next write is acknowledged, and from then on reads answer from the tail as well. */
  lemma LoneWriteCommitsTail(s: ShardState, op: Op, H: seq<Entry>, key: Bytes)
    requires Between(s, H) && |s.reps| == 1 && s.reps[0].online && IsWrite(op)
    ensures AnswerOf(s, op) == Stored
    ensures Read(After(s, PlanOf(s, op)), key) == AnswerFor(Lookup(Apply(Replay(s.reps[0].log), CommandOf(op)), key))
  {
    var c := CommandOf(op);
    EveryoneOnline(s.reps);
    LoneWriteIsExact(s, c, H);
    WriteAnswered(s, op);
    LoneReadsAfter(s, c, H, key);
    ReplayIsMap(s.reps[0].log);
    MapOne(Commands(s.reps[0].log), c);
  }

  lemma ReadableAfter(s: ShardState, after: ShardState, longer: seq<Entry>, key: Bytes)
    requires WriteState(s, after, longer) && HasQuorumOnline(s.reps)
    ensures Read(after, key) == AnswerFor(Lookup(MapOf(Commands(longer)), key))
  {
    assert OnlineSet(after.reps) == OnlineSet(s.reps);
    ReadAgrees(after, longer, key);
    ReplayIsMap(longer);
  }

  lemma LoneReadsAfter(s: ShardState, c: Command, H: seq<Entry>, key: Bytes)
    requires Between(s, H) && Known(c) && |s.reps| == 1 && HasQuorumOnline(s.reps)
    ensures Read(After(s, Write(s, c)), key) == AnswerFor(Lookup(MapOf(Commands(HistoryAfter(s, c, H))), key))
  {
    WriteKeeps(s, c, H);
    ReadableAfter(s, After(s, Write(s, c)), HistoryAfter(s, c, H), key);
  }

  lemma TailReplay(r: Replica, c: Command, H: seq<Entry>)
    requires Sound(r, H) && Holds(r, H) && |r.log| == r.commit
    ensures Replay(r.log + [NextEntry(r, c)]) == Apply(Replay(H), c)
  {
    assert H[..|H|] == H && r.log[..|H|] == r.log;
    assert (H + [NextEntry(r, c)])[..|H|] == H;
  }

  lemma StoppedPut(s: ShardState, H: seq<Entry>, a: Bytes, v: Bytes, disk: Replica, s2: ShardState)
    requires Between(s, H) && |s.reps| == 1 && s.leader != "" && NoTails(s.reps)
    requires disk == AppendLocal(s.reps[0], Command(PUT, a, v)) && s2 == Loaded(s.ids, [disk])
    ensures var s3 := After(s2, EnsureLeader(s2));
            && Between(s3, H) && |s3.reps| == 1 && s3.reps[0].online
            && Replay(s3.reps[0].log) == Apply(Replay(H), Command(PUT, a, v))
            && Read(s3, a) == AnswerFor(Lookup(Replay(H), a))
  {
    StoppedDisk(s, H, a, v, disk);
    LoneBoot(s2, disk, H, a);
  }

  lemma BootsTo(ids: seq<string>, disks: seq<Replica>, s2: ShardState)
    requires |ids| == |disks| && s2 == Loaded(ids, disks)
    ensures Next(Down(ids, disks), Boot) == Up(After(s2, EnsureLeader(s2)))
  {
  }

  /** What the stopped put leaves on disk. */
  lemma StoppedDisk(s: ShardState, H: seq<Entry>, a: Bytes, v: Bytes, disk: Replica)
    requires Between(s, H) && |s.reps| == 1 && s.leader != "" && NoTails(s.reps)
    requires disk == AppendLocal(s.reps[0], Command(PUT, a, v))
    ensures Next(Up(s), StopIn(Put(a, v), 1)) == Down(s.ids, [disk]) && CrashSafe([disk], H)
    ensures Replay(disk.log) == Apply(Replay(H), Command(PUT, a, v))
  {
    StoppedWriteStaysInLog(s, Put(a, v), H);
    assert CrashSafe([disk], H) by { WriteStopKeeps(s, Put(a, v), 1, H); }
    LoneHolder(s, H);
    TailReplay(s.reps[0], Command(PUT, a, v), H);
  }

  /** So with one replica an interrupted write can be missing from one read and in a later one:
      stop a put of `a` after its first call, restart, read `a`, put `b`, read `a` again. */
  lemma LateCommit(s: ShardState, H: seq<Entry>, a: Bytes, v: Bytes, b: Bytes, w: Bytes, s2: ShardState)
    requires Between(s, H) && |s.reps| == 1 && s.leader != "" && NoTails(s.reps)
    requires a != b && a !in Replay(H)
    requires var stopped := Next(Up(s), StopIn(Put(a, v), 1)); stopped.Down? && s2 == Loaded(stopped.ids, stopped.disks)
    ensures var s3 := After(s2, EnsureLeader(s2));
            && Next(Next(Up(s), StopIn(Put(a, v), 1)), Boot) == Up(s3)
            && Read(s3, a) == NotFound
            && AnswerOf(s3, Put(b, w)) == Stored
            && Read(After(s3, PlanOf(s3, Put(b, w))), a) == Value(v)
  {
    var disk := AppendLocal(s.reps[0], Command(PUT, a, v));
    StoppedDisk(s, H, a, v, disk);
    BootsTo(s.ids, [disk], s2);
    StoppedPut(s, H, a, v, disk, s2);
    LoneWriteCommitsTail(After(s2, EnsureLeader(s2)), Put(b, w), H, a);
    BothPuts(Replay(H), a, v, b, w);
  }

  lemma BothPuts(t: Table, a: Bytes, v: Bytes, b: Bytes, w: Bytes)
    requires a != b
    ensures Lookup(Apply(Apply(t, Command(PUT, a, v)), Command(PUT, b, w)), a) == Some(v)
  {
  }

  /** A new shard, just started. */
  lemma FreshStart(ids: seq<string>, disks: seq<Replica>, s0: ShardState)
    requires Distinct(ids) && ids != [] && disks == Fresh(ids).disks && s0 == Loaded(ids, disks)
    ensures var s := After(s0, EnsureLeader(s0));
              Between(s, []) && |s.reps| == |ids| && s.leader != "" && NoTails(s.reps)
  {
    FreshSafe(ids);
    assert Booted(s0, EnsureLeader(s0), []) by { BootKeeps(s0, disks, []); }
    assert NoTails(s0.reps);
    StartedClean(s0, EnsureLeader(s0));
  }

  lemma StartedClean(s0: ShardState, p: Plan)
    requires Booted(s0, p, []) && NoTails(s0.reps)
    ensures var s := After(s0, p); Between(s, []) && |s.reps| == |s0.reps| && s.leader != "" && NoTails(s.reps)
  {
  }

  lemma FirstBoot(ids: seq<string>, s0: ShardState)
    requires s0 == Loaded(ids, Fresh(ids).disks)
    ensures StateAfter(ids, [Boot]) == Up(After(s0, EnsureLeader(s0)))
  {
    AfterOneMore(ids, [], Boot);
    assert [] + [Boot] == [Boot];
  }

  lemma ThreeSteps(ids: seq<string>, a: Step, b: Step, c: Step)
    ensures StateAfter(ids, [a, b, c]) == Next(Next(StateAfter(ids, [a]), b), c)
  {
    AfterOneMore(ids, [a], b);
    AfterOneMore(ids, [a, b], c);
    assert [a] + [b] == [a, b] && [a, b] + [c] == [a, b, c];
  }

  ghost predicate Late(sys: System, a: Bytes, v: Bytes, b: Bytes, w: Bytes) {
    && sys.Up? && |sys.s.ids| == |sys.s.reps| && Read(sys.s, a) == NotFound
    && AnswerOf(sys.s, Put(b, w)) == Stored
    && Read(After(sys.s, PlanOf(sys.s, Put(b, w))), a) == Value(v)
  }

  lemma LateFrom(s: ShardState, a: Bytes, v: Bytes, b: Bytes, w: Bytes, stopped: System)
    requires Between(s, []) && |s.reps| == 1 && s.leader != "" && NoTails(s.reps) && a != b
    requires stopped == Next(Up(s), StopIn(Put(a, v), 1))
    ensures Late(Next(stopped, Boot), a, v, b, w)
  {
    LateCommit(s, [], a, v, b, w, Loaded(stopped.ids, stopped.disks));
  }

  /** The run in full, from empty databases. */
  lemma LateCommitIsReached(id: string, a: Bytes, v: Bytes, b: Bytes, w: Bytes)
    requires id != "" && a != b
    ensures Late(StateAfter([id], [Boot, StopIn(Put(a, v), 1), Boot]), a, v, b, w)
  {
    var disks := Fresh([id]).disks;
    var s0 := Loaded([id], disks);
    FirstBoot([id], s0);
    FreshStart([id], disks, s0);
    var s := After(s0, EnsureLeader(s0));
    ThreeSteps([id], Boot, StopIn(Put(a, v), 1), Boot);
    LateFrom(s, a, v, b, w, Next(Up(s), StopIn(Put(a, v), 1)));
  }

  // ---------------------------------------------------------------- exactly when a run is exact

  /** No kept write started on a lone replica that carried something beyond its commit index. */
  ghost predicate NothingLate(ids: seq<string>, steps: seq<Step>) {
    steps == [] ||
    (var front := steps[..|steps| - 1];
     var sys := StateAfter(ids, front);
     && NothingLate(ids, front)
     && (Appended(sys, steps[|steps| - 1]) == [] || |ids| >= 2 || NoTails(Replicas(sys))))
  }

  /** A step that keeps nothing leaves the history alone. */
  lemma NothingAppended(sys: System, step: Step, H: seq<Entry>)
    requires WellShaped(sys) && SystemSafe(sys, H) && Appended(sys, step) == []
    ensures HistoryNext(sys, step, H) == H
  {
    if sys.Up? && (step.Do? || step.StopIn?) && IsWrite(step.op) {
      WriteAnswered(sys.s, step.op);
      WriteKeeps(sys.s, CommandOf(step.op), H);
    }
  }

  /** A kept write on a lone replica with a tail adds more than itself. */
  lemma LateStep(sys: System, step: Step, H: seq<Entry>)
    requires WellShaped(sys) && SystemSafe(sys, H) && Appended(sys, step) != []
    requires |Replicas(sys)| == 1 && !NoTails(Replicas(sys))
    ensures |Appended(sys, step)| == 1 && |HistoryNext(sys, step, H)| > |H| + 1
  {
    var s, c := sys.s, CommandOf(step.op);
    WriteAnswered(s, step.op);
    LateWrite(s, c, H);
  }

  lemma LateWrite(s: ShardState, c: Command, H: seq<Entry>)
    requires Between(s, H) && Known(c) && |s.reps| == 1 && !NoTails(s.reps) && Write(s, c).status == Done
    ensures |HistoryAfter(s, c, H)| > |H| + 1
  {
    WriteKeeps(s, c, H);
    LoneHistory(s, c, H, Ready(s));
    LoneHolder(s, H);
  }

  lemma StepExact(sys: System, step: Step, H: seq<Entry>, exact: bool)
    requires WellShaped(sys) && SystemSafe(sys, H)
    requires exact == (Appended(sys, step) == [] || |Replicas(sys)| >= 2 || NoTails(Replicas(sys)))
    ensures |HistoryNext(sys, step, H)| >= |H| + |Appended(sys, step)|
    ensures if exact then Commands(HistoryNext(sys, step, H)) == Commands(H) + Appended(sys, step)
            else |HistoryNext(sys, step, H)| > |H| + |Appended(sys, step)|
  {
    if Appended(sys, step) == [] {
      NothingAppended(sys, step, H);
    } else if exact {
      StepAppends(sys, step, H);
      assert |Commands(HistoryNext(sys, step, H))| == |HistoryNext(sys, step, H)|;
    } else {
      LateStep(sys, step, H);
    }
  }

  lemma {:induction false} KeptBounds(ids: seq<string>, steps: seq<Step>)
    requires Distinct(ids) && ids != []
    ensures |Kept(ids, steps)| <= |History(ids, steps)|
    ensures if NothingLate(ids, steps) then Commands(History(ids, steps)) == Kept(ids, steps)
            else |Kept(ids, steps)| < |History(ids, steps)|
  {
    if steps != [] {
      var front, step := steps[..|steps| - 1], steps[|steps| - 1];
      var sys, H := StateAfter(ids, front), History(ids, front);
      KeptBounds(ids, front);
      RunSafe(ids, front);
      RunSize(ids, front);
      StepExact(sys, step, H, Appended(sys, step) == [] || |ids| >= 2 || NoTails(Replicas(sys)));
    }
  }

  /** Which holds with two or more replicas, and with stops only between operations. */
  lemma {:induction false} UsuallyNothingLate(ids: seq<string>, steps: seq<Step>)
    requires Distinct(ids) && ids != []
    requires |ids| >= 2 || forall k :: 0 <= k < |steps| ==> Clean(steps[k])
    ensures NothingLate(ids, steps)
  {
    if steps != [] {
      UsuallyNothingLate(ids, steps[..|steps| - 1]);
      if |ids| < 2 { CleanRun(ids, steps[..|steps| - 1]); }
    }
  }

  /** For any number of replicas and stops anywhere: the history is exactly the kept commands if and
      only if no kept write started on a lone replica with a tail. */
  lemma RunIsExact(ids: seq<string>, steps: seq<Step>)
    requires Distinct(ids) && ids != []
    ensures Commands(History(ids, steps)) == Kept(ids, steps) <==> NothingLate(ids, steps)
  {
    KeptBounds(ids, steps);
    assert |Commands(History(ids, steps))| == |History(ids, steps)|;
  }
}
