/** A replica as it is stored: a log table keyed by index, a meta table, the key-value table, and
    the fields kept in memory. The functions say what src/raft.cpp does to them on any contents,
    gaps and unknown commands included; Mirrors relates them to the replica whose log is a
    sequence, and every call is shown to keep that relation. */
module Tables {
  import opened Log
  import opened Protocol

  /** The keys "current_term", "voted_for", "commit_index" and "last_applied". */
  datatype MetaKey = CurrentTerm | VotedFor | CommitIndex | LastApplied

  datatype MetaValue = Num(n: int) | Text(t: string)

  type LogTable = map<int, Entry>
  type MetaTable = map<MetaKey, MetaValue>

  datatype Node = Node(
    online: bool, role: Role, term: int, votedFor: string, commit: int, applied: int,
    kv: Table, log: LogTable, meta: MetaTable)

  datatype RawSnapshot = RawSnapshot(term: int, commit: int, log: seq<Entry>)

  // ---------------------------------------------------------------- the log table

  ghost predicate IsMax(m: int, s: set<int>) { m in s && forall k :: k in s ==> k <= m }

  lemma {:induction false} MaxExists(s: set<int>, x: int)
    requires x in s
    ensures exists m :: IsMax(m, s)
  {
    var rest := s - {x};
    if y :| y in rest {
      MaxExists(rest, y);
      var m :| IsMax(m, rest);
      assert forall k :: k in s ==> k == x || k in rest;
      assert IsMax(if m < x then x else m, s);
    } else {
      forall k | k in s ensures k <= x { assert k == x || k in rest; }
      assert IsMax(x, s);
    }
  }

  /** COALESCE(MAX(log_index), 0) */
  ghost function LastIndexOf(log: LogTable): (m: int)
    ensures log == map[] ==> m == 0
    ensures log != map[] ==> IsMax(m, log.Keys)
  {
    if x :| x in log.Keys then
      MaxExists(log.Keys, x);
      var m :| IsMax(m, log.Keys); m
    else
      assert log == map[]; 0
  }

  ghost function LastTermOf(log: LogTable): int {
    if log == map[] then 0 else log[LastIndexOf(log)].term
  }

  function EntryAt(log: LogTable, index: int): Option<Entry> {
    if index in log then Some(log[index]) else None
  }

  function Truncate(log: LogTable, index: int): LogTable {
    map k | k in log && k < index :: log[k]
  }

  /** Rows from `index` on, in index order. */
  ghost predicate AreRowsFrom(rows: seq<Entry>, log: LogTable, index: int) {
    && (forall k :: 0 <= k < |rows| ==> index <= rows[k].index && rows[k].index in log && log[rows[k].index] == rows[k])
    && (forall j, k :: 0 <= j < k < |rows| ==> rows[j].index < rows[k].index)
    && (forall i :: i in log && index <= i ==> exists k :: 0 <= k < |rows| && rows[k].index == i)
  }

  function Insert(log: LogTable, e: Entry): LogTable { log[e.index := e] }

  function InsertAll(log: LogTable, rows: seq<Entry>): LogTable {
    if rows == [] then log else Insert(InsertAll(log, rows[..|rows| - 1]), rows[|rows| - 1])
  }

  /** What append_entries does with one entry. */
  function Receive(log: LogTable, e: Entry): LogTable {
    var cut := if e.index in log && log[e.index].term != e.term then Truncate(log, e.index) else log;
    if e.index in cut then cut else Insert(cut, e)
  }

  function ReceiveAll(log: LogTable, entries: seq<Entry>): LogTable {
    if entries == [] then log else Receive(ReceiveAll(log, entries[..|entries| - 1]), entries[|entries| - 1])
  }

  // ---------------------------------------------------------------- the meta table

  /** What persist_state leaves in the meta table, whatever was there. */
  function MetaOf(term: int, votedFor: string, commit: int, applied: int): MetaTable {
    map[CurrentTerm := Num(term), VotedFor := Text(votedFor), CommitIndex := Num(commit), LastApplied := Num(applied)]
  }

  lemma OverwrittenIsMetaOf(meta: MetaTable, term: int, votedFor: string, commit: int, applied: int)
    ensures meta[CurrentTerm := Num(term)][VotedFor := Text(votedFor)]
                [CommitIndex := Num(commit)][LastApplied := Num(applied)]
         == MetaOf(term, votedFor, commit, applied)
  {
    var a := meta[CurrentTerm := Num(term)][VotedFor := Text(votedFor)]
                 [CommitIndex := Num(commit)][LastApplied := Num(applied)];
    var b := MetaOf(term, votedFor, commit, applied);
    forall key: MetaKey ensures key in a && key in b && a[key] == b[key] {
      match key case CurrentTerm => case VotedFor => case CommitIndex => case LastApplied =>
    }
  }

  function Persist(n: Node): Node { n.(meta := MetaOf(n.term, n.votedFor, n.commit, n.applied)) }

  function NumOr(meta: MetaTable, key: MetaKey, otherwise: int): int {
    if key in meta && meta[key].Num? then meta[key].n else otherwise
  }

  function TextOr(meta: MetaTable, key: MetaKey, otherwise: string): string {
    if key in meta && meta[key].Text? then meta[key].t else otherwise
  }

  // ---------------------------------------------------------------- apply loops

  /** How far an apply loop came; it throws at an unknown command. */
  datatype Progress = Progress(kv: Table, applied: int, threw: bool)

  /** The loops that stop at a missing row (commit_to, append_entries). */
  function ApplyWhilePresent(kv: Table, applied: int, log: LogTable, hi: int): Progress
    decreases hi - applied
  {
    if applied + 1 > hi || applied + 1 !in log then Progress(kv, applied, false)
    else if !Known(log[applied + 1].command) then Progress(kv, applied, true)
    else ApplyWhilePresent(Apply(kv, log[applied + 1].command), applied + 1, log, hi)
  }

  /** The loops that skip a missing row (install_snapshot, load_state). */
  function ApplyPresent(kv: Table, applied: int, log: LogTable, i: int, hi: int): Progress
    decreases hi - i
  {
    if i > hi then Progress(kv, applied, false)
    else if i !in log then ApplyPresent(kv, applied, log, i + 1, hi)
    else if !Known(log[i].command) then Progress(kv, applied, true)
    else ApplyPresent(Apply(kv, log[i].command), i, log, i + 1, hi)
  }

  // ---------------------------------------------------------------- the calls

  datatype Reply = Accepted | Rejected | Thrown

  ghost predicate NodeGrants(n: Node, term: int, candidate: string, lastIndex: int, lastTerm: int) {
    && n.online && term >= n.term
    && (lastTerm > LastTermOf(n.log) || (lastTerm == LastTermOf(n.log) && lastIndex >= LastIndexOf(n.log)))
    && (term > n.term || n.votedFor == "" || n.votedFor == candidate)
  }

  ghost function NodeRequestVote(n: Node, term: int, candidate: string, lastIndex: int, lastTerm: int): Node {
    if !n.online || term < n.term then n
    else
      var n1 := if term > n.term then n.(term := term, votedFor := "", role := Follower) else n;
      Persist(if NodeGrants(n, term, candidate, lastIndex, lastTerm) then n1.(votedFor := candidate) else n1)
  }

  /** append_entries once the previous entry matches. */
  ghost function NodeAccept(n: Node, entries: seq<Entry>, leaderCommit: int): (Node, Reply) {
    var n2 := n.(log := ReceiveAll(n.log, entries));
    var newCommit := Min(leaderCommit, LastIndexOf(n2.log));
    if newCommit <= n.commit then (Persist(n2), Accepted)
    else
      var p := ApplyWhilePresent(n2.kv, n2.applied, n2.log, newCommit);
      var n3 := n2.(kv := p.kv, applied := p.applied);
      if p.threw then (n3, Thrown) else (Persist(n3.(commit := newCommit)), Accepted)
  }

  ghost function NodeAppendEntries(n: Node, term: int, leader: string, prevIndex: int, prevTerm: int,
                                   entries: seq<Entry>, leaderCommit: int): (Node, Reply)
  {
    if !n.online || term < n.term then (n, Rejected)
    else
      var n1 := n.(term := term, role := Follower, votedFor := leader);
      if prevIndex > 0 && (prevIndex !in n.log || n.log[prevIndex].term != prevTerm) then (Persist(n1), Rejected)
      else NodeAccept(n1, entries, leaderCommit)
  }

  ghost function NodeNextEntry(n: Node, c: Command): Entry { Entry(LastIndexOf(n.log) + 1, n.term, c) }

  ghost function NodeAppendLocal(n: Node, c: Command): Node {
    if n.online && n.role == Leader then n.(log := Insert(n.log, NodeNextEntry(n, c))) else n
  }

  ghost function NodeCommitTo(n: Node, index: int): (Node, bool) {
    if !n.online then (n, false)
    else
      var target := Min(index, LastIndexOf(n.log));
      var p := ApplyWhilePresent(n.kv, n.applied, n.log, target);
      var n1 := n.(kv := p.kv, applied := p.applied);
      if p.threw then (n1, true) else (Persist(n1.(commit := Max(n.commit, target))), false)
  }

  function NodeDiscard(n: Node): Node { n.(log := Truncate(n.log, n.commit + 1)) }

  /** Cut by number of rows, not by index. */
  function Cut(rows: seq<Entry>, commit: int): seq<Entry> {
    if 0 <= commit < |rows| then rows[..commit] else rows
  }

  ghost function NodeInstall(n: Node, snap: RawSnapshot): (Node, bool) {
    if !n.online then (n, false)
    else
      var log := InsertAll(map[], snap.log);
      var n1 := n.(kv := map[], log := log, meta := map[], term := Max(n.term, snap.term), votedFor := "",
                   role := Follower, commit := 0, applied := 0);
      var target := Min(snap.commit, LastIndexOf(log));
      var p := ApplyPresent(map[], 0, log, 1, target);
      var n2 := n1.(kv := p.kv, applied := p.applied);
      if p.threw then (n2, true) else (Persist(n2.(commit := target)), false)
  }

  function NodeTermAt(n: Node, index: int): int {
    if index == 0 then 0 else if index in n.log then n.log[index].term else -1
  }

  /** Construction over existing tables: load_state, which re-applies what may be missing. */
  function NodeLoad(kv: Table, log: LogTable, meta: MetaTable): (Node, bool) {
    var n := Node(true, Follower, NumOr(meta, CurrentTerm, 0), TextOr(meta, VotedFor, ""),
                  NumOr(meta, CommitIndex, 0), NumOr(meta, LastApplied, 0), kv, log, meta);
    if n.applied >= n.commit then (n, false)
    else
      var p := ApplyPresent(kv, n.applied, log, n.applied + 1, n.commit);
      var n1 := n.(kv := p.kv, applied := p.applied);
      if p.threw then (n1, true) else (Persist(n1), false)
  }
}
