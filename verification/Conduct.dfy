/** What the shard decides and sends, said in plain comparisons: whom a replica votes for, whom an
    election picks and at which term, what a follower's log becomes, and who is sent what. */
module Conduct {
  import opened Log
  import opened Protocol
  import opened Safety
  import opened Election
  import opened Runs
  import opened Theorems

  // ---------------------------------------------------------------- votes

  /** A replica votes once per term: having granted a vote to one candidate, it grants none to another. */
  lemma OneVotePerTerm(r: Replica, term: int, a: string, ai: int, at: int, b: string, bi: int, bt: int)
    requires a != "" && Grants(r, term, a, ai, at) && Grants(RequestVote(r, term, a, ai, at), term, b, bi, bt)
    ensures a == b
  {
  }

  /** A vote is refused for an older term, a log behind one's own, or a vote given to someone else. */
  lemma VoteMeans(r: Replica, term: int, candidate: string, li: int, lt: int)
    ensures var own := if r.log == [] then 0 else r.log[|r.log| - 1].term;
            Grants(r, term, candidate, li, lt) <==>
              && r.online && term >= r.term
              && (lt > own || (lt == own && li >= |r.log|))
              && (term > r.term || r.votedFor == "" || r.votedFor == candidate)
    ensures Grants(r, term, candidate, li, lt) ==>
              var after := RequestVote(r, term, candidate, li, lt); after.term == term && after.votedFor == candidate
  {
  }

  // ---------------------------------------------------------------- the election

  /** a is behind b: by commit index, then by last term, then by length. */
  predicate Behind(a: Replica, b: Replica) {
    var ta := if a.log == [] then 0 else a.log[|a.log| - 1].term;
    var tb := if b.log == [] then 0 else b.log[|b.log| - 1].term;
    || a.commit < b.commit
    || (a.commit == b.commit && ta < tb)
    || (a.commit == b.commit && ta == tb && |a.log| < |b.log|)
  }

  /** Of equals, the first is picked. */
  lemma {:induction false} BestIsFirst(reps: seq<Replica>, on: seq<nat>, x: nat)
    requires on != [] && (forall k :: 0 <= k < |on| ==> on[k] < |reps|) && x in on
    requires forall j, k :: 0 <= j < k < |on| ==> on[j] < on[k]
    ensures !Behind(reps[Best(reps, on)], reps[x])
    ensures x < Best(reps, on) ==> Behind(reps[x], reps[Best(reps, on)])
  {
    if |on| > 1 {
      var front, last := on[..|on| - 1], on[|on| - 1];
      var b := Best(reps, front);
      BestIsFirst(reps, front, if x in front then x else b);
      BestIsFirst(reps, front, b);
    }
  }

  lemma {:induction false} NextTermIsOneMore(reps: seq<Replica>, n: nat)
    requires n <= |reps|
    ensures forall i :: 0 <= i < n ==> reps[i].term < NextTermUpTo(reps, n)
    ensures NextTermUpTo(reps, n) == 1 || exists i :: 0 <= i < n && NextTermUpTo(reps, n) == reps[i].term + 1
  {
    if n != 0 { NextTermIsOneMore(reps, n - 1); }
  }

  /** The replica an election crowns, and the term it leads in. */
  ghost predicate Picked(s: ShardState, c: nat, leader: string, after: seq<Replica>) {
    && |s.ids| == |s.reps| == |after| && c < |s.reps| && leader == s.ids[c] && s.reps[c].online
    && (forall i :: 0 <= i < |s.reps| && s.reps[i].online ==> !Behind(s.reps[c], s.reps[i]))
    && (forall i :: 0 <= i < c && s.reps[i].online ==> Behind(s.reps[i], s.reps[c]))
    && after[c].role == Leader
    && (forall i :: 0 <= i < |s.reps| ==> s.reps[i].term < after[c].term)
    && (after[c].term == 1 || exists i :: 0 <= i < |s.reps| && after[c].term == s.reps[i].term + 1)
  }

  lemma PickedFrom(s: ShardState, H: seq<Entry>, c: nat)
    requires Between(s, H) && CurrentLeader(s) < 0 && HasQuorumOnline(s.reps)
    requires Online(s.reps) != [] && c == Best(s.reps, Online(s.reps))
    ensures Picked(s, c, EnsureLeader(s).leader, After(s, EnsureLeader(s)).reps)
  {
    QuorumHasHolder(s, H);
    ElectionSucceeds(s, H);
    NextTermIsOneMore(s.reps, |s.reps|);
    forall i: nat | i < |s.reps| && s.reps[i].online
      ensures !Behind(s.reps[c], s.reps[i]) && (i < c ==> Behind(s.reps[i], s.reps[c]))
    {
      BestIsFirst(s.reps, Online(s.reps), i);
    }
  }

  /** In every reachable state without a leader and with a majority online, an election picks the
      first of the online replicas that no other is ahead of, by commit index, last term and length,
      and crowns it at a term one above the largest of all. */
  lemma ElectsTheFirstBest(ids: seq<string>, steps: seq<Step>) returns (c: nat)
    requires Distinct(ids) && ids != [] && StateAfter(ids, steps).Up?
    requires CurrentLeader(StateAfter(ids, steps).s) < 0 && 2 * |OnlineSet(StateAfter(ids, steps).s.reps)| > |ids|
    ensures var s := StateAfter(ids, steps).s; Picked(s, c, EnsureLeader(s).leader, After(s, EnsureLeader(s)).reps)
  {
    RunSafe(ids, steps);
    RunSize(ids, steps);
    var s := StateAfter(ids, steps).s;
    ElectionIsUnanimous(s, History(ids, steps));
    c := Best(s.reps, Online(s.reps));
    PickedFrom(s, History(ids, steps), c);
  }

  // ---------------------------------------------------------------- what a follower's log becomes

  /** j is where received entries and a log part: the end of one of them, or the first other term. */
  predicate Parts(log: seq<Entry>, entries: seq<Entry>, prev: nat, j: nat) {
    && j <= |entries| && prev + j <= |log|
    && (forall k :: 0 <= k < j ==> log[prev + k].term == entries[k].term)
    && (j == |entries| || prev + j == |log| || log[prev + j].term != entries[j].term)
  }

  /** Consecutive entries after position prev replace the log from the first that differs in term, and
      leave it alone if none does. */
  lemma {:induction false} EntriesReplace(log: seq<Entry>, entries: seq<Entry>, prev: nat, j: nat)
    requires prev <= |log| && (forall k :: 0 <= k < |entries| ==> entries[k].index == prev + 1 + k)
    requires Parts(log, entries, prev, j)
    ensures MergeAll(log, entries) == if j == |entries| then log else log[..prev + j] + entries[j..]
  {
    if entries != [] {
      var n := |entries| - 1;
      var front, e := entries[..n], entries[n];
      if j == |entries| {
        EntriesReplace(log, front, prev, n);
      } else {
        EntriesReplace(log, front, prev, j);
        assert entries[j..] == front[j..] + [e];
      }
    }
  }

  // ---------------------------------------------------------------- who is sent what

  /** Among these calls, replica f gets the snapshot if `out`, the entry if `sent`, and nothing else. */
  ghost predicate Gets(calls: seq<Call>, f: nat, out: bool, sent: bool, snapshot: Call, entry: Call) {
    && (snapshot in calls <==> out)
    && (entry in calls <==> sent)
    && (forall c :: c in calls && c.i == f ==> c == entry || c == snapshot)
  }

  lemma GetsNow(front: seq<Call>, turn: seq<Call>, f: nat, out: bool, sent: bool, snapshot: Call, entry: Call)
    requires snapshot.i == f == entry.i && (forall c :: c in front ==> c.i != f) && (out ==> sent)
    requires turn == if !sent then [] else if out then [snapshot, entry] else [entry]
    requires snapshot != entry
    ensures Gets(front + turn, f, out, sent, snapshot, entry)
  {
    assert sent ==> turn[|turn| - 1] == entry;
    assert out ==> turn[0] == snapshot;
  }

  lemma GetsNoMore(front: seq<Call>, turn: seq<Call>, f: nat, out: bool, sent: bool, snapshot: Call, entry: Call)
    requires snapshot.i == f == entry.i && Gets(front, f, out, sent, snapshot, entry)
    requires forall c :: c in turn ==> c.i != f
    ensures Gets(front + turn, f, out, sent, snapshot, entry)
  {
  }

  /** A follower is sent a snapshot if and only if its commit index or its length differs from the
      leader's commit index, and the new entry in any case; nobody else is sent anything. */
  lemma {:induction false} ReplicatesTo(reps: seq<Replica>, id: string, l: nat, e: Entry, n: nat, f: nat)
    requires l < |reps| && f < n <= |reps|
    ensures var leader, r := reps[l], reps[f];
            Gets(ReplicateCalls(reps, id, l, e, n), f,
                 f != l && r.online && (r.commit != leader.commit || |r.log| != leader.commit),
                 f != l && r.online,
                 CallInstall(f, Export(leader)),
                 CallAppendEntries(f, leader.term, id, e.index - 1, TermAt(leader, e.index - 1), [e], leader.commit))
  {
    var leader, r, front := reps[l], reps[f], ReplicateCalls(reps, id, l, e, n - 1);
    var sent := f != l && r.online;
    var out := sent && (r.commit != leader.commit || |r.log| != leader.commit);
    var snapshot := CallInstall(f, Export(leader));
    var entry := CallAppendEntries(f, leader.term, id, e.index - 1, TermAt(leader, e.index - 1), [e], leader.commit);
    var turn := if IsFollower(reps, l, n - 1) then FollowerCalls(n - 1, reps[n - 1], leader, id, e) else [];
    if f == n - 1 {
      SentBelow(reps, id, l, e, n - 1);
      GetsNow(front, turn, f, out, sent, snapshot, entry);
    } else {
      ReplicatesTo(reps, id, l, e, n - 1, f);
      GetsNoMore(front, turn, f, out, sent, snapshot, entry);
    }
  }

  lemma {:induction false} SentBelow(reps: seq<Replica>, id: string, l: nat, e: Entry, n: nat)
    requires l < |reps| && n <= |reps|
    ensures forall c :: c in ReplicateCalls(reps, id, l, e, n) ==> c.i < n
  {
    if n != 0 { SentBelow(reps, id, l, e, n - 1); }
  }
}
