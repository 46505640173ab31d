/** The index-keyed log table refines a sequence: whatever the protocol does, its keys are exactly
    1..n, so the largest index is the length, terms are positional, and cutting a snapshot by
    number of rows equals cutting it by index. */
module Mirror {
  import opened Log
  import opened Protocol
  import opened Tables

  function At(log: seq<Entry>, i: int): Entry
    requires 1 <= i <= |log|
  {
    log[i - 1]
  }

  function TableOf(log: seq<Entry>): LogTable {
    map i | 1 <= i <= |log| :: At(log, i)
  }

  predicate Indexed(log: seq<Entry>) {
    forall i :: 0 <= i < |log| ==> log[i].index == i + 1 && Known(log[i].command)
  }

  /** What is in memory is what the meta table says (nothing at all in a new database). */
  predicate MetaAgrees(n: Node) {
    || n.meta == MetaOf(n.term, n.votedFor, n.commit, n.applied)
    || (n.meta == map[] && n.term == 0 && n.votedFor == "" && n.commit == 0 && n.applied == 0)
  }

  /** Node n stores replica r. */
  ghost predicate Mirrors(n: Node, r: Replica) {
    && n.online == r.online && n.role == r.role && n.term == r.term && n.votedFor == r.votedFor
    && n.commit == r.commit && n.applied == r.commit && r.commit <= |r.log|
    && n.kv == r.kv && n.log == TableOf(r.log) && Indexed(r.log)
    && MetaAgrees(n)
  }

  // ---------------------------------------------------------------- the table as a sequence

  /** The largest index is the number of entries, and the last term is the last entry's. */
  lemma LastOfTable(log: seq<Entry>)
    requires Indexed(log)
    ensures LastIndexOf(TableOf(log)) == |log| && LastTermOf(TableOf(log)) == LastTerm(log)
  {
    var table := TableOf(log);
    if log == [] {
      assert table == map[];
    } else {
      assert |log| in table.Keys && 1 in table;
      assert IsMax(LastIndexOf(table), table.Keys);
    }
  }

  lemma TruncateTable(log: seq<Entry>, index: int)
    requires 1 <= index <= |log| + 1
    ensures Truncate(TableOf(log), index) == TableOf(log[..index - 1])
  {
  }

  lemma InsertTable(log: seq<Entry>, e: Entry)
    requires e.index == |log| + 1
    ensures Insert(TableOf(log), e) == TableOf(log + [e])
  {
  }

  lemma {:induction false} InsertAllTable(rows: seq<Entry>)
    requires Indexed(rows)
    ensures InsertAll(map[], rows) == TableOf(rows)
  {
    if rows == [] {
      assert TableOf(rows) == map[];
    } else {
      var n := |rows| - 1;
      InsertAllTable(rows[..n]);
      InsertTable(rows[..n], rows[n]);
      assert rows[..n] + [rows[n]] == rows;
    }
  }

  lemma RowsNumber(rows: seq<Entry>, log: seq<Entry>)
    requires Indexed(log) && AreRowsFrom(rows, TableOf(log), 1)
    ensures |rows| == |log|
  {
    if rows != [] { RowsAreConsecutive(rows, log, |rows| - 1); }
    if log != [] {
      assert |log| in TableOf(log);
      var last :| 0 <= last < |rows| && rows[last].index == |log|;
      RowsAreConsecutive(rows, log, last);
    }
  }

  lemma RowAt(rows: seq<Entry>, log: seq<Entry>, k: nat)
    requires Indexed(log) && AreRowsFrom(rows, TableOf(log), 1) && k < |rows| && k < |log|
    ensures rows[k] == log[k]
  {
    RowsAreConsecutive(rows, log, k);
    assert rows[k] == TableOf(log)[k + 1];
  }

  /** Rows in index order are the sequence itself. */
  lemma RowsOfTable(rows: seq<Entry>, log: seq<Entry>)
    requires Indexed(log) && AreRowsFrom(rows, TableOf(log), 1)
    ensures rows == log
  {
    RowsNumber(rows, log);
    forall k: nat | k < |log| ensures rows[k] == log[k] { RowAt(rows, log, k); }
  }

  lemma {:induction false} RowsAreConsecutive(rows: seq<Entry>, log: seq<Entry>, k: nat)
    requires Indexed(log) && AreRowsFrom(rows, TableOf(log), 1) && k < |rows|
    ensures rows[k].index == k + 1 && k < |log|
  {
    if k > 0 { RowsAreConsecutive(rows, log, k - 1); }
    assert rows[k].index in TableOf(log) && k + 1 <= rows[k].index;
    assert k + 1 in TableOf(log);
  }

  lemma ReceiveTable(log: seq<Entry>, e: Entry)
    requires Indexed(log) && 1 <= e.index <= |log| + 1 && Known(e.command)
    ensures Receive(TableOf(log), e) == TableOf(Merge(log, e)) && Indexed(Merge(log, e))
    ensures e.index <= |Merge(log, e)|
  {
    if e.index <= |log| && log[e.index - 1].term != e.term {
      TruncateTable(log, e.index);
      InsertTable(log[..e.index - 1], e);
    } else if e.index == |log| + 1 {
      InsertTable(log, e);
    }
  }

  /** Consecutive entries that start no later than one past the end of the log. */
  predicate Consecutive(entries: seq<Entry>, first: int) {
    forall k :: 0 <= k < |entries| ==> entries[k].index == first + k && Known(entries[k].command)
  }

  lemma {:induction false} ReceiveAllTable(log: seq<Entry>, entries: seq<Entry>, first: int)
    requires Indexed(log) && Consecutive(entries, first) && 1 <= first <= |log| + 1
    ensures ReceiveAll(TableOf(log), entries) == TableOf(MergeAll(log, entries)) && Indexed(MergeAll(log, entries))
    ensures first + |entries| <= |MergeAll(log, entries)| + 1
  {
    if entries != [] {
      var n := |entries| - 1;
      ReceiveAllTable(log, entries[..n], first);
      ReceiveTable(MergeAll(log, entries[..n]), entries[n]);
    }
  }

  // ---------------------------------------------------------------- apply loops

  lemma {:induction false} ApplyWhilePresentTable(kv: Table, log: seq<Entry>, from: nat, hi: int)
    requires Indexed(log) && from <= |log| && hi <= |log|
    ensures ApplyWhilePresent(kv, from, TableOf(log), hi)
         == if hi > from then Progress(ApplyAll(kv, log[from..hi]), hi, false) else Progress(kv, from, false)
    decreases hi - from
  {
    if from < hi {
      var next := Apply(kv, log[from].command);
      ApplyWhilePresentTable(next, log, from + 1, hi);
      ApplyAllConcat(kv, [log[from]], log[from + 1..hi]);
      ApplyOne(kv, log[from]);
      assert [log[from]] + log[from + 1..hi] == log[from..hi];
    }
  }

  lemma ApplyOne(kv: Table, e: Entry)
    ensures ApplyAll(kv, [e]) == Apply(kv, e.command)
  {
    assert [e][..0] == [];
    assert ApplyAll(kv, [e]) == Apply(ApplyAll(kv, []), e.command);
  }

  lemma {:induction false} ApplyPresentTable(kv: Table, log: seq<Entry>, from: nat, hi: int)
    requires Indexed(log) && from <= |log| && hi <= |log|
    ensures ApplyPresent(kv, from, TableOf(log), from + 1, hi)
         == if hi > from then Progress(ApplyAll(kv, log[from..hi]), hi, false) else Progress(kv, from, false)
    decreases hi - from
  {
    if from < hi {
      var next := Apply(kv, log[from].command);
      ApplyPresentTable(next, log, from + 1, hi);
      ApplyAllConcat(kv, [log[from]], log[from + 1..hi]);
      ApplyOne(kv, log[from]);
      assert [log[from]] + log[from + 1..hi] == log[from..hi];
    }
  }

  // ---------------------------------------------------------------- every call keeps the mirror

  lemma RequestVoteMirrors(n: Node, r: Replica, term: int, candidate: string, li: int, lt: int)
    requires Mirrors(n, r)
    ensures NodeGrants(n, term, candidate, li, lt) == Grants(r, term, candidate, li, lt)
    ensures Mirrors(NodeRequestVote(n, term, candidate, li, lt), RequestVote(r, term, candidate, li, lt))
  {
    LastOfTable(r.log);
  }

  /** append_entries as the shard uses it: consecutive entries right after prevIndex. */
  lemma AppendEntriesMirrors(n: Node, r: Replica, term: int, leader: string, prevIndex: int, prevTerm: int,
                             entries: seq<Entry>, leaderCommit: int)
    requires Mirrors(n, r) && 0 <= prevIndex && Consecutive(entries, prevIndex + 1)
    requires forall k :: 0 <= k < |entries| && entries[k].index <= r.commit ==>
               r.log[entries[k].index - 1].term == entries[k].term
    ensures var (m, reply) := NodeAppendEntries(n, term, leader, prevIndex, prevTerm, entries, leaderCommit);
            && Mirrors(m, AppendEntries(r, term, leader, prevIndex, prevTerm, entries, leaderCommit))
            && reply == if Accepts(r, term, prevIndex, prevTerm) then Accepted else Rejected
  {
    MatchesTable(n.log, r, prevIndex, prevTerm);
    if Matches(r, prevIndex, prevTerm) {
      var log := MergeAll(r.log, entries);
      ReceiveAllTable(r.log, entries, prevIndex + 1);
      LastOfTable(log);
      MergeKeepsCommitted(r.log, entries, prevIndex + 1, r.commit);
      ApplyWhilePresentTable(r.kv, log, r.commit, Min(leaderCommit, |log|));
    }
  }

  lemma MatchesTable(table: LogTable, r: Replica, prevIndex: int, prevTerm: int)
    requires table == TableOf(r.log)
    ensures Matches(r, prevIndex, prevTerm) <==>
              !(prevIndex > 0 && (prevIndex !in table || table[prevIndex].term != prevTerm))
  {
  }

  /** Entries that agree with the committed part do not cut into it. */
  lemma {:induction false} MergeKeepsCommitted(log: seq<Entry>, entries: seq<Entry>, first: int, commit: nat)
    requires Indexed(log) && Consecutive(entries, first) && 1 <= first <= |log| + 1 && commit <= |log|
    requires forall k :: 0 <= k < |entries| && entries[k].index <= commit ==>
               log[entries[k].index - 1].term == entries[k].term
    ensures var merged := MergeAll(log, entries); commit <= |merged| && merged[..commit] == log[..commit]
  {
    if entries != [] {
      var n := |entries| - 1;
      MergeKeepsCommitted(log, entries[..n], first, commit);
      ReceiveAllTable(log, entries[..n], first);
      var merged := MergeAll(log, entries[..n]);
      var e := entries[n];
      if e.index <= commit { assert merged[..commit][e.index - 1] == log[..commit][e.index - 1]; }
    }
  }

  lemma AppendLocalMirrors(n: Node, r: Replica, c: Command)
    requires Mirrors(n, r) && Known(c)
    ensures NodeNextEntry(n, c) == NextEntry(r, c)
    ensures Mirrors(NodeAppendLocal(n, c), AppendLocal(r, c))
  {
    LastOfTable(r.log);
    InsertTable(r.log, NextEntry(r, c));
  }

  lemma CommitToMirrors(n: Node, r: Replica, index: int)
    requires Mirrors(n, r)
    ensures var (m, threw) := NodeCommitTo(n, index); !threw && Mirrors(m, CommitTo(r, index))
  {
    LastOfTable(r.log);
    ApplyWhilePresentTable(r.kv, r.log, r.commit, Min(index, |r.log|));
  }

  lemma DiscardMirrors(n: Node, r: Replica)
    requires Mirrors(n, r)
    ensures Mirrors(NodeDiscard(n), Discard(r))
  {
    TruncateTable(r.log, r.commit + 1);
  }

  /** Cutting the rows by number exports exactly the committed entries, never a pending one. */
  lemma ExportMirrors(n: Node, r: Replica, rows: seq<Entry>)
    requires Mirrors(n, r) && AreRowsFrom(rows, n.log, 1)
    ensures Cut(rows, n.commit) == Export(r).log == r.log[..r.commit]
    ensures forall k :: 0 <= k < |Cut(rows, n.commit)| ==> Cut(rows, n.commit)[k].index <= n.commit
  {
    RowsOfTable(rows, r.log);
    assert r.log[..|r.log|] == r.log;
  }

  lemma InstallMirrors(n: Node, r: Replica, snap: Snapshot)
    requires Mirrors(n, r) && Indexed(snap.log)
    ensures var (m, threw) := NodeInstall(n, RawSnapshot(snap.term, snap.commit, snap.log));
            !threw && Mirrors(m, Install(r, snap))
  {
    InsertAllTable(snap.log);
    LastOfTable(snap.log);
    ApplyPresentTable(map[], snap.log, 0, Min(snap.commit, |snap.log|));
  }

  // ---------------------------------------------------------------- restart and redo

  /** What a stop can leave in the tables: the four meta values of a replica r, except that the
      last-applied write may be missing, and a key-value table that is the replay of any log
      prefix between last applied and commit index. */
  ghost predicate Recoverable(kv: Table, log: LogTable, meta: MetaTable, r: Replica, applied: nat, ahead: nat) {
    && applied <= ahead <= r.commit <= |r.log| && Indexed(r.log) && log == TableOf(r.log)
    && kv == Replay(r.log[..ahead]) && r.kv == Replay(r.log[..r.commit])
    && (|| meta == MetaOf(r.term, r.votedFor, r.commit, applied)
        || (meta == map[] && r.term == 0 && r.votedFor == "" && r.commit == 0))
  }

  /** The tables of a live replica, stopped between two calls, are recoverable as that replica. */
  lemma StoppedIsRecoverable(n: Node, r: Replica)
    requires Mirrors(n, r) && r.kv == Replay(r.log[..r.commit])
    ensures Recoverable(n.kv, n.log, n.meta, r, r.commit, r.commit)
  {
  }

  /** Redo recovery: load_state brings any such disk to the table of exactly the committed log. */
  lemma LoadMirrors(kv: Table, log: LogTable, meta: MetaTable, r: Replica, applied: nat, ahead: nat)
    requires Recoverable(kv, log, meta, r, applied, ahead)
    ensures var (n, threw) := NodeLoad(kv, log, meta); !threw && Mirrors(n, Reload(r))
  {
    if meta == MetaOf(r.term, r.votedFor, r.commit, applied) {
      LoadSavedMeta(kv, log, r, applied, ahead);
    } else {
      LoadEmptyMeta(kv, log, r, ahead);
    }
  }

  lemma LoadSavedMeta(kv: Table, log: LogTable, r: Replica, applied: nat, ahead: nat)
    requires applied <= ahead <= r.commit <= |r.log| && Indexed(r.log) && log == TableOf(r.log)
    requires kv == Replay(r.log[..ahead]) && r.kv == Replay(r.log[..r.commit])
    ensures var (n, threw) := NodeLoad(kv, log, MetaOf(r.term, r.votedFor, r.commit, applied));
            !threw && Mirrors(n, Reload(r))
  {
    RedoIsReplay(r.log, applied, ahead, r.commit);
    ApplyPresentTable(kv, r.log, applied, r.commit);
  }

  lemma LoadEmptyMeta(kv: Table, log: LogTable, r: Replica, ahead: nat)
    requires ahead == 0 && r.commit == 0 && Indexed(r.log) && log == TableOf(r.log) && r.term == 0 && r.votedFor == ""
    requires kv == r.kv
    ensures var (n, threw) := NodeLoad(kv, log, map[]); !threw && Mirrors(n, Reload(r))
  {
    ApplyPresentTable(kv, r.log, 0, 0);
  }
}
