/** Election safety over whole runs: every leader ever crowned, in completed and in interrupted
    elections, has a term of its own, above all earlier ones (section 5.2 of the Raft paper),
    although install_snapshot clears votes. */
module Leaders {
  import opened Log
  import opened Protocol
  import opened Safety
  import opened Election
  import opened Operations
  import opened Runs

  datatype Win = Win(replica: nat, term: int)

  predicate Crowning(c: Call) { c.CallSetRole? && c.role == Leader }

  /** Each set_role(Leader) among the calls, with the term of that replica at that moment. */
  function Wins(reps: seq<Replica>, calls: seq<Call>): seq<Win> {
    if calls == [] then []
    else
      var front, c := calls[..|calls| - 1], calls[|calls| - 1];
      Wins(reps, front) + (if Crowning(c) && c.i < |reps| then [Win(c.i, Run(reps, front)[c.i].term)] else [])
  }

  lemma {:induction false} WinsConcat(reps: seq<Replica>, a: seq<Call>, b: seq<Call>)
    ensures Wins(reps, a + b) == Wins(reps, a) + Wins(Run(reps, a), b)
  {
    if b == [] {
      assert a + b == a;
    } else {
      WinsConcat(reps, a, b[..|b| - 1]);
      RunConcat(reps, a, b[..|b| - 1]);
      assert (a + b)[..|a + b| - 1] == a + b[..|b| - 1];
    }
  }

  lemma {:induction false} NoWins(reps: seq<Replica>, calls: seq<Call>)
    requires forall k :: 0 <= k < |calls| ==> !Crowning(calls[k])
    ensures Wins(reps, calls) == []
  {
    if calls != [] { NoWins(reps, calls[..|calls| - 1]); }
  }

  lemma {:induction false} WinsPrefix(reps: seq<Replica>, calls: seq<Call>, k: nat)
    requires k <= |calls|
    ensures Wins(reps, calls[..k]) <= Wins(reps, calls)
  {
    WinsConcat(reps, calls[..k], calls[k..]);
    assert calls[..k] + calls[k..] == calls;
  }

  /** No call ever lowers a term. */
  lemma {:induction false} TermsGrow(reps: seq<Replica>, calls: seq<Call>)
    ensures forall i :: 0 <= i < |reps| ==> reps[i].term <= Run(reps, calls)[i].term
  {
    if calls != [] { TermsGrow(reps, calls[..|calls| - 1]); }
  }

  lemma {:induction false} NextTermGrows(a: seq<Replica>, b: seq<Replica>, n: nat)
    requires |a| == |b| && n <= |a| && forall i :: 0 <= i < |a| ==> a[i].term <= b[i].term
    ensures NextTermUpTo(a, n) <= NextTermUpTo(b, n)
  {
    if n != 0 { NextTermGrows(a, b, n - 1); }
  }

  /** Wins are below the next term that would be used. */
  lemma {:induction false} WinsBelow(reps: seq<Replica>, calls: seq<Call>)
    ensures forall k :: 0 <= k < |Wins(reps, calls)| ==> Wins(reps, calls)[k].term < NextTerm(Run(reps, calls))
    ensures NextTerm(reps) <= NextTerm(Run(reps, calls))
  {
    TermsGrow(reps, calls);
    NextTermGrows(reps, Run(reps, calls), |reps|);
    if calls != [] {
      var front, last := calls[..|calls| - 1], calls[|calls| - 1];
      WinsBelow(reps, front);
      RunOne(Run(reps, front), last);
      TermsGrow(Run(reps, front), [last]);
      NextTermGrows(Run(reps, front), Run(reps, calls), |reps|);
    }
  }

  // ---------------------------------------------------------------- one operation

  /** At most one crowning, at a term no replica had before. */
  ghost predicate OneWin(reps: seq<Replica>, calls: seq<Call>) {
    |Wins(reps, calls)| <= 1 && forall k :: 0 <= k < |Wins(reps, calls)| ==> Wins(reps, calls)[k].term >= NextTerm(reps)
  }

  lemma CrownWins(reps: seq<Replica>, c: nat)
    requires c < |reps|
    ensures Wins(reps, CrownCalls(|reps|, c)) == [Win(c, reps[c].term)]
  {
    var roles, last := RoleCalls(|reps|), CallSetRole(c, Leader);
    NoWins(reps, roles);
    SweepActs(reps, roles, c);
    assert roles[c].i == c;
    assert (roles + [last])[..|roles|] == roles;
  }

  lemma ElectionWins(s: ShardState, c: nat, H: seq<Entry>)
    requires |s.ids| == |s.reps| && c < |s.reps| && s.reps[c].online
    ensures Wins(s.reps, ElectionCalls(s, c, H)) == [Win(c, NextTerm(s.reps))]
  {
    var voting, crown := VotingCalls(s, c), CrownCalls(|s.reps|, c);
    var sync := SyncCalls(Online(s.reps), c, Snapshot(NextTerm(s.reps), |H|, H));
    NoWins(s.reps, voting);
    VotingActs(s, c, c);
    CrownWins(Run(s.reps, voting), c);
    WinsConcat(s.reps, voting, crown);
    SyncNotCrowning(Online(s.reps), c, Snapshot(NextTerm(s.reps), |H|, H));
    NoWins(Run(s.reps, voting + crown), sync);
    WinsConcat(s.reps, voting + crown, sync);
  }

  lemma {:induction false} SyncNotCrowning(on: seq<nat>, l: nat, snap: Snapshot)
    ensures forall k :: 0 <= k < |SyncCalls(on, l, snap)| ==> !Crowning(SyncCalls(on, l, snap)[k])
  {
    if on != [] { SyncNotCrowning(on[..|on| - 1], l, snap); }
  }

  lemma EnsureWins(s: ShardState, H: seq<Entry>)
    requires Shaped(s) && CrashSafe(s.reps, H)
    requires CurrentLeader(s) >= 0 || !HasQuorumOnline(s.reps) || OnlineHolder(s.reps, H)
    ensures OneWin(s.reps, EnsureLeader(s).calls)
  {
    OnlineLength(s.reps);
    if CurrentLeader(s) < 0 && HasQuorumOnline(s.reps) {
      ElectionPlan(s, H);
      ElectionWins(s, Best(s.reps, Online(s.reps)), H);
    }
  }

  lemma WinsThen(reps: seq<Replica>, calls: seq<Call>, post: seq<Call>)
    requires OneWin(reps, calls) && forall k :: 0 <= k < |post| ==> !Crowning(post[k])
    ensures OneWin(reps, calls + post)
  {
    WinsConcat(reps, calls, post);
    NoWins(Run(reps, calls), post);
  }

  lemma WinsAfter(reps: seq<Replica>, pre: Call, calls: seq<Call>)
    requires !Crowning(pre) && OneWin(Exec(reps, pre), calls)
    ensures OneWin(reps, [pre] + calls)
  {
    NoWins(reps, [pre]);
    WinsConcat(reps, [pre], calls);
    WinsBelow(reps, [pre]);
    RunOne(reps, pre);
  }

  lemma {:induction false} ReplicateNotCrowning(reps: seq<Replica>, id: string, l: nat, e: Entry, n: nat)
    requires l < |reps| && n <= |reps|
    ensures forall k :: 0 <= k < |ReplicateCalls(reps, id, l, e, n)| ==> !Crowning(ReplicateCalls(reps, id, l, e, n)[k])
  {
    if n != 0 { ReplicateNotCrowning(reps, id, l, e, n - 1); }
  }

  lemma WriteViaNotCrowning(s: ShardState, l: nat, c: Command)
    requires |s.ids| == |s.reps| && l < |s.reps|
    ensures forall k :: 0 <= k < |WriteVia(s, l, c).calls| ==> !Crowning(WriteVia(s, l, c).calls[k])
  {
    if CanAppend(s.reps[l]) {
      var reps := Exec(s.reps, CallAppendLocal(l, c));
      ReplicateNotCrowning(reps, s.ids[l], l, NextEntry(s.reps[l], c), |reps|);
    }
  }

  lemma EnsureWinsBetween(s: ShardState, H: seq<Entry>)
    requires Between(s, H)
    ensures OneWin(s.reps, EnsureLeader(s).calls)
  {
    if HasQuorumOnline(s.reps) { QuorumHasHolder(s, H); }
    EnsureWins(s, H);
  }

  lemma WriteWins(s: ShardState, c: Command, H: seq<Entry>)
    requires Between(s, H)
    ensures OneWin(s.reps, Write(s, c).calls)
  {
    EnsureWinsBetween(s, H);
    var p := EnsureLeader(s);
    var s1 := After(s, p);
    var l := CurrentLeader(s1);
    if p.status == Done && l >= 0 {
      WriteViaNotCrowning(s1, l, c);
      WinsThen(s.reps, p.calls, WriteVia(s1, l, c).calls);
    }
  }

  lemma RecoverTailWins(s: ShardState, i: nat, H: seq<Entry>)
    requires Between(s, H) && i < |s.ids|
    ensures OneWin(s.reps, RecoverTail(s, i).calls)
  {
    EnsureWinsBetween(s, H);
    var e, rest := EnsureLeader(s).calls, RecoverTail(s, i).calls;
    WinsThen(s.reps, e, rest[|e|..]);
    assert e + rest[|e|..] == rest;
  }

  lemma RecoverWins(s: ShardState, id: string, H: seq<Entry>)
    requires Between(s, H)
    ensures OneWin(s.reps, Protocol.Recover(s, id).calls)
  {
    LocateFinds(s.ids, id);
    var i := Locate(s.ids, id);
    if i >= 0 {
      var up := CallSetOnline(i, true);
      var s0 := ShardState(s.ids, Exec(s.reps, up), s.leader);
      UpKeeps(s, i, H);
      RecoverTailWins(s0, i, H);
      WinsAfter(s.reps, up, RecoverTail(s0, i).calls);
    }
  }

  lemma PlanWins(s: ShardState, op: Op, H: seq<Entry>)
    requires Between(s, H)
    ensures OneWin(s.reps, PlanOf(s, op).calls)
  {
    match op
    case Put(_, _) => WriteWins(s, CommandOf(op), H);
    case Erase(_) => WriteWins(s, CommandOf(op), H);
    case Recover(id) => RecoverWins(s, id, H);
    case Fail(_) => NoWins(s.reps, PlanOf(s, op).calls);
    case _ => EnsureWinsBetween(s, H);
  }

  // ---------------------------------------------------------------- whole runs

  /** The replicas a step starts from and the calls it executes. */
  function Start(sys: System): seq<Replica> {
    if sys.Up? then sys.s.reps else ReloadAll(sys.disks)
  }

  function Executed(sys: System, step: Step): seq<Call>
    requires WellShaped(sys)
  {
    match (sys, step)
    case (Up(s), Do(op)) => PlanOf(s, op).calls
    case (Up(s), StopIn(op, k)) => Prefix(PlanOf(s, op).calls, k)
    case (Down(ids, disks), Boot) => EnsureLeader(Loaded(ids, disks)).calls
    case (Down(ids, disks), StopInBoot(k)) => Prefix(EnsureLeader(Loaded(ids, disks)).calls, k)
    case _ => []
  }

  /** All the leaders ever crowned in a run. */
  function RunWins(ids: seq<string>, steps: seq<Step>): seq<Win> {
    if steps == [] then []
    else
      var front := steps[..|steps| - 1];
      var sys := StateAfter(ids, front);
      RunWins(ids, front) + Wins(Start(sys), Executed(sys, steps[|steps| - 1]))
  }

  lemma OneWinPrefix(reps: seq<Replica>, calls: seq<Call>, k: nat)
    requires OneWin(reps, calls)
    ensures OneWin(reps, Prefix(calls, k))
  {
    WinsPrefix(reps, calls, Min(k, |calls|));
  }

  lemma UpWins(s: ShardState, step: Step, H: seq<Entry>)
    requires Between(s, H) && (step.Do? || step.StopIn?)
    ensures OneWin(s.reps, Executed(Up(s), step))
    ensures Run(s.reps, Executed(Up(s), step)) == Replicas(Next(Up(s), step))
  {
    PlanWins(s, step.op, H);
    if step.StopIn? { OneWinPrefix(s.reps, PlanOf(s, step.op).calls, step.after); }
  }

  lemma LoadedWins(ids: seq<string>, disks: seq<Replica>, s: ShardState, H: seq<Entry>)
    requires Shaped(ShardState(ids, disks, "")) && CrashSafe(disks, H) && s == Loaded(ids, disks)
    ensures OneWin(s.reps, EnsureLeader(s).calls)
  {
    LoadedReady(ids, disks, H);
    EnsureWins(s, H);
  }

  lemma PrefixWins(s: ShardState, calls: seq<Call>, step: Step)
    requires OneWin(s.reps, calls)
    ensures step.StopInBoot? ==> OneWin(s.reps, Prefix(calls, step.after))
  {
    if step.StopInBoot? { OneWinPrefix(s.reps, calls, step.after); }
  }

  lemma BootWins(ids: seq<string>, disks: seq<Replica>, step: Step, H: seq<Entry>)
    requires SystemSafe(Down(ids, disks), H) && (step.Boot? || step.StopInBoot?)
    ensures OneWin(ReloadAll(disks), Executed(Down(ids, disks), step))
  {
    var s := Loaded(ids, disks);
    LoadedWins(ids, disks, s, H);
    PrefixWins(s, EnsureLeader(s).calls, step);
  }

  lemma BootRuns(ids: seq<string>, disks: seq<Replica>, step: Step)
    requires |ids| == |disks| && (step.Boot? || step.StopInBoot?)
    ensures Run(ReloadAll(disks), Executed(Down(ids, disks), step)) == Replicas(Next(Down(ids, disks), step))
  {
  }

  lemma StepWins(sys: System, step: Step, H: seq<Entry>)
    requires WellShaped(sys) && SystemSafe(sys, H)
    ensures OneWin(Start(sys), Executed(sys, step))
    ensures NextTerm(Start(sys)) == NextTerm(Replicas(sys))
    ensures NextTerm(Run(Start(sys), Executed(sys, step))) == NextTerm(Replicas(Next(sys, step)))
  {
    ReloadTerms(sys);
    match (sys, step)
    case (Up(s), Do(_)) => UpWins(s, step, H);
    case (Up(s), StopIn(_, _)) => UpWins(s, step, H);
    case (Down(ids, disks), Boot) => { BootWins(ids, disks, step, H); BootRuns(ids, disks, step); }
    case (Down(ids, disks), StopInBoot(_)) => { BootWins(ids, disks, step, H); BootRuns(ids, disks, step); }
    case _ =>
  }

  lemma ReloadTerms(sys: System)
    ensures NextTerm(Start(sys)) == NextTerm(Replicas(sys))
  {
    NextTermGrows(Start(sys), Replicas(sys), |Replicas(sys)|);
    NextTermGrows(Replicas(sys), Start(sys), |Replicas(sys)|);
  }

  /** Terms strictly increase and stay below the bound. */
  ghost predicate Rising(wins: seq<Win>, bound: int) {
    && (forall j, k :: 0 <= j < k < |wins| ==> wins[j].term < wins[k].term)
    && (forall k :: 0 <= k < |wins| ==> wins[k].term < bound)
  }

  lemma RisesOn(wins: seq<Win>, more: seq<Win>, bound: int, next: int)
    requires Rising(wins, bound) && |more| <= 1 && bound <= next
    requires forall k :: 0 <= k < |more| ==> bound <= more[k].term < next
    ensures Rising(wins + more, next)
  {
  }

  /** Terms of crowned leaders strictly increase over any run, so no term has two leaders. */
  lemma {:induction false} ElectionSafety(ids: seq<string>, steps: seq<Step>)
    requires Distinct(ids) && ids != []
    ensures Rising(RunWins(ids, steps), NextTerm(Replicas(StateAfter(ids, steps))))
  {
    if steps != [] {
      var front, step := steps[..|steps| - 1], steps[|steps| - 1];
      var sys := StateAfter(ids, front);
      ElectionSafety(ids, front);
      RunSafe(ids, front);
      StepRises(sys, step, History(ids, front), RunWins(ids, front));
    }
  }

  lemma StepRises(sys: System, step: Step, H: seq<Entry>, wins: seq<Win>)
    requires WellShaped(sys) && SystemSafe(sys, H) && Rising(wins, NextTerm(Replicas(sys)))
    ensures Rising(wins + Wins(Start(sys), Executed(sys, step)), NextTerm(Replicas(Next(sys, step))))
  {
    var reps, calls := Start(sys), Executed(sys, step);
    StepWins(sys, step, H);
    WinsBelow(reps, calls);
    TermsGrow(reps, calls);
    NextTermGrows(reps, Run(reps, calls), |reps|);
    RisesOn(wins, Wins(reps, calls), NextTerm(Replicas(sys)), NextTerm(Replicas(Next(sys, step))));
  }

  /** Between operations at most one replica has the Leader role, and a non-empty leader id names
      it; it is online, its term is maximal and it holds the whole history. */
  lemma OneLeader(ids: seq<string>, steps: seq<Step>, i: nat, j: nat)
    requires Distinct(ids) && ids != [] && StateAfter(ids, steps).Up?
    ensures var s := StateAfter(ids, steps).s;
            && (i < |s.reps| && j < |s.reps| && s.reps[i].role == Leader && s.reps[j].role == Leader ==> i == j)
            && (s.leader != "" <==> CurrentLeader(s) >= 0)
            && (s.leader != "" ==> Leads(s.reps, CurrentLeader(s), History(ids, steps)))
  {
    RunSafe(ids, steps);
    LeaderFound(StateAfter(ids, steps).s, History(ids, steps));
  }
}
