/** What a client sees of a key, in terms of the writes it had acknowledged: the last one wins, for
    any number of replicas, whichever of them leads. */
module LastWrite {
  import opened Log
  import opened Safety
  import opened Runs
  import opened Theorems
  import opened SingleReplica

  /** The step may write the key: it is, or is stopped in, a put or an erase of it. */
  predicate Touches(step: Step, key: Bytes) {
    (step.Do? || step.StopIn?) && (step.op.Put? || step.op.Erase?) && step.op.key == key
  }

  lemma AppendedBy(sys: System, step: Step, key: Bytes)
    requires WellShaped(sys)
    ensures PutsAndDeletes(Appended(sys, step))
    ensures !Touches(step, key) ==> forall c :: c in Appended(sys, step) ==> c.key != key
  {
  }

  lemma {:induction false} KeptCommands(ids: seq<string>, steps: seq<Step>)
    ensures PutsAndDeletes(Kept(ids, steps))
  {
    if steps != [] {
      KeptCommands(ids, steps[..|steps| - 1]);
      AppendedBy(StateAfter(ids, steps[..|steps| - 1]), steps[|steps| - 1], []);
    }
  }

  lemma KeptSnoc(ids: seq<string>, steps: seq<Step>, k: nat)
    requires k < |steps|
    ensures Kept(ids, steps[..k + 1]) == Kept(ids, steps[..k]) + Appended(StateAfter(ids, steps[..k]), steps[k])
  {
    assert steps[..k + 1][..k] == steps[..k];
  }

  /** Steps that do not touch the key leave the last kept command on it where it was. */
  lemma {:induction false} StaysLast(ids: seq<string>, steps: seq<Step>, k: nat, n: nat, key: Bytes, i: nat)
    requires k <= n <= |steps| && LastOn(Kept(ids, steps[..k]), key, i)
    requires forall j :: k <= j < n ==> !Touches(steps[j], key)
    ensures LastOn(Kept(ids, steps[..n]), key, i)
    ensures Kept(ids, steps[..k]) <= Kept(ids, steps[..n])
  {
    if k < n {
      StaysLast(ids, steps, k, n - 1, key, i);
      KeptSnoc(ids, steps, n - 1);
      AppendedBy(StateAfter(ids, steps[..n - 1]), steps[n - 1], key);
    }
  }

  /** Step k was acknowledged, and nothing since has touched its key. */
  predicate LastAcknowledged(ids: seq<string>, steps: seq<Step>, k: nat, key: Bytes) {
    && k < |steps| && steps[k].Do? && Touches(steps[k], key)
    && AnswerTo(StateAfter(ids, steps[..k]), steps[k]) == Stored
    && forall j :: k < j < |steps| ==> !Touches(steps[j], key)
  }

  lemma LastKept(ids: seq<string>, steps: seq<Step>, k: nat, key: Bytes) returns (i: nat)
    requires LastAcknowledged(ids, steps, k, key)
    ensures LastOn(Kept(ids, steps), key, i) && Kept(ids, steps)[i] == CommandOf(steps[k].op)
  {
    var before := Kept(ids, steps[..k]);
    i := |before|;
    KeptSnoc(ids, steps, k);
    assert Kept(ids, steps[..k + 1]) == before + [CommandOf(steps[k].op)];
    StaysLast(ids, steps, k + 1, |steps|, key, i);
    assert steps[..|steps|] == steps;
  }

  lemma ReadsKept(ids: seq<string>, steps: seq<Step>, key: Bytes)
    requires Distinct(ids) && ids != [] && NothingLate(ids, steps) && StateAfter(ids, steps).Up?
    requires Read(StateAfter(ids, steps).s, key) != Unavailable
    ensures Read(StateAfter(ids, steps).s, key)
         == if key in MapOf(Kept(ids, steps)) then Value(MapOf(Kept(ids, steps))[key]) else NotFound
  {
    RunSafe(ids, steps);
    RunIsExact(ids, steps);
    ReplayIsMap(History(ids, steps));
    ReadAgrees(StateAfter(ids, steps).s, History(ids, steps), key);
  }

  /** After an acknowledged put, as long as nothing touches the key again, every answered get returns
      the value put; after an acknowledged erase it is not found. Failures, recoveries, elections,
      stops and restarts in between change nothing. */
  lemma GetSeesLastWrite(ids: seq<string>, steps: seq<Step>, k: nat, key: Bytes)
    requires Distinct(ids) && ids != [] && NothingLate(ids, steps) && StateAfter(ids, steps).Up?
    requires LastAcknowledged(ids, steps, k, key) && Read(StateAfter(ids, steps).s, key) != Unavailable
    ensures Read(StateAfter(ids, steps).s, key)
         == match steps[k].op
            case Put(_, v) => Value(v)
            case _ => NotFound
  {
    ReadsKept(ids, steps, key);
    KeptCommands(ids, steps);
    var i := LastKept(ids, steps, k, key);
    LastDecides(Kept(ids, steps), key, i);
  }

  lemma {:induction false} NeverKept(ids: seq<string>, steps: seq<Step>, key: Bytes)
    requires forall j :: 0 <= j < |steps| ==> !Touches(steps[j], key)
    ensures forall i :: 0 <= i < |Kept(ids, steps)| ==> Kept(ids, steps)[i].key != key
  {
    if steps != [] {
      NeverKept(ids, steps[..|steps| - 1], key);
      AppendedBy(StateAfter(ids, steps[..|steps| - 1]), steps[|steps| - 1], key);
    }
  }

  /** A key no step touched is not found. */
  lemma GetSeesNothing(ids: seq<string>, steps: seq<Step>, key: Bytes)
    requires Distinct(ids) && ids != [] && NothingLate(ids, steps) && StateAfter(ids, steps).Up?
    requires forall j :: 0 <= j < |steps| ==> !Touches(steps[j], key)
    requires Read(StateAfter(ids, steps).s, key) != Unavailable
    ensures Read(StateAfter(ids, steps).s, key) == NotFound
  {
    ReadsKept(ids, steps, key);
    NeverKept(ids, steps, key);
    UntouchedKey(Kept(ids, steps), key);
  }
}
