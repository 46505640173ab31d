/** RaftReplica (src/raft.cpp): in-memory fields over a SqliteStore. Each method is proved to do
    to the tables and fields exactly what the corresponding function of module Tables says, on
    any contents, including where it throws. */
module Raft {
  import opened Log
  import opened Protocol
  import opened Tables
  import opened Store

  class RaftReplica {
    const id: string
    const store: SqliteStore
    var role: Role
    var online: bool
    var term: int
    var votedFor: string
    var commit: int
    var applied: int

    ghost predicate Valid()
      reads this, store
    {
      store.Keyed()
    }

    ghost function State(): Node
      reads this, store
    {
      Node(online, role, term, votedFor, commit, applied, store.kv, store.log, store.meta)
    }

    /** Opens a replica over an existing or new database. LoadState would throw at an unknown command;
        Mirror.LoadMirrors shows that no database the protocol leaves behind holds one. */
    constructor (id: string, store: SqliteStore)
      requires store.Keyed()
      modifies store
      ensures Valid() && this.id == id && this.store == store
      ensures State() == NodeLoad(old(store.kv), old(store.log), old(store.meta)).0
    {
      this.id, this.store := id, store;
      role, online, term, votedFor, commit, applied := Follower, true, 0, "", 0, 0;
      new;
      var _ := LoadState();
    }

    method SetOnline(up: bool)
      requires Valid()
      modifies this`online, this`role
      ensures State() == if up then old(State()).(online := true) else old(State()).(online := false, role := Follower)
    {
      online := up;
      if !online {
        role := Follower;
      }
    }

    method SetRole(newRole: Role)
      requires Valid()
      modifies this`role
      ensures State() == old(State()).(role := newRole)
    {
      role := newRole;
    }

    method TermAt(index: int) returns (t: int)
      requires Valid()
      ensures t == NodeTermAt(State(), index)
    {
      if index == 0 {
        return 0;
      }
      var entry := store.LogAt(index);
      t := if entry.Some? then entry.value.term else -1;
    }

    method PersistState()
      requires Valid()
      modifies store`meta
      ensures Valid() && State() == Persist(old(State()))
      ensures store.meta == map[CurrentTerm := Num(term), VotedFor := Text(votedFor),
                                CommitIndex := Num(commit), LastApplied := Num(applied)]
    {
      store.SetMeta(CurrentTerm, Num(term));
      store.SetMeta(VotedFor, Text(votedFor));
      store.SetMeta(CommitIndex, Num(commit));
      store.SetMeta(LastApplied, Num(applied));
      OverwrittenIsMetaOf(old(store.meta), term, votedFor, commit, applied);
    }

    /** Applies one command to the key-value table, or throws. */
    method ApplyEntry(entry: Entry) returns (threw: bool)
      requires Valid()
      modifies store`kv
      ensures threw <==> entry.command.name != "PUT" && entry.command.name != "DELETE"
      ensures entry.command.name == "PUT" ==> store.kv == old(store.kv)[entry.command.key := entry.command.value]
      ensures entry.command.name == "DELETE" ==> store.kv == old(store.kv) - {entry.command.key}
      ensures threw ==> store.kv == old(store.kv)
      ensures store.kv == Apply(old(store.kv), entry.command)
    {
      if entry.command.name == PUT {
        store.Put(entry.command.key, entry.command.value);
      } else if entry.command.name == DELETE {
        store.Erase(entry.command.key);
      } else {
        return true;
      }
      return false;
    }

    method RequestVote(newTerm: int, candidateId: string, candidateLastIndex: int, candidateLastTerm: int)
      returns (granted: bool)
      requires Valid()
      modifies this, store
      ensures Valid()
      ensures granted == NodeGrants(old(State()), newTerm, candidateId, candidateLastIndex, candidateLastTerm)
      ensures State() == NodeRequestVote(old(State()), newTerm, candidateId, candidateLastIndex, candidateLastTerm)
      ensures granted <==>
                && old(online) && newTerm >= old(term)
                && (|| candidateLastTerm > LastTermOf(store.log)
                    || (candidateLastTerm == LastTermOf(store.log) && candidateLastIndex >= LastIndexOf(store.log)))
                && (newTerm > old(term) || old(votedFor) == "" || old(votedFor) == candidateId)
      ensures granted ==> votedFor == candidateId && term == newTerm
      ensures !granted ==> votedFor == if old(online) && newTerm > old(term) then "" else old(votedFor)
      ensures term == if old(online) && newTerm > old(term) then newTerm else old(term)
      ensures store.log == old(store.log) && store.kv == old(store.kv) && commit == old(commit)
    {
      if !online || newTerm < term {
        return false;
      }
      if newTerm > term {
        term := newTerm;
        votedFor := "";
        role := Follower;
      }
      var ownLastTerm := store.LastLogTerm();
      var ownLastIndex := store.LastLogIndex();
      var candidateIsCurrent := candidateLastTerm > ownLastTerm
        || (candidateLastTerm == ownLastTerm && candidateLastIndex >= ownLastIndex);
      if candidateIsCurrent && (votedFor == "" || votedFor == candidateId) {
        votedFor := candidateId;
        PersistState();
        return true;
      }
      PersistState();
      return false;
    }

    /** The loop of commit_to and append_entries: apply what follows, up to the first missing row. */
    method ApplyUpTo(target: int) returns (threw: bool)
      requires Valid()
      modifies this`applied, store`kv
      ensures Valid()
      ensures var p := ApplyWhilePresent(old(store.kv), old(applied), store.log, target);
              State() == old(State()).(kv := p.kv, applied := p.applied) && threw == p.threw
    {
      ghost var p := ApplyWhilePresent(store.kv, applied, store.log, target);
      threw := false;
      var index := applied + 1;
      while index <= target
        invariant index == applied + 1 && Valid()
        invariant State() == old(State()).(kv := store.kv, applied := applied)
        invariant ApplyWhilePresent(store.kv, applied, store.log, target) == p
      {
        var entry := store.LogAt(index);
        if entry.None? {
          return;
        }
        threw := ApplyEntry(entry.value);
        if threw {
          return;
        }
        applied := index;
        index := index + 1;
      }
    }

    /** The entry loop of append_entries. */
    method ReceiveEntries(entries: seq<Entry>)
      requires Valid()
      modifies store`log
      ensures Valid() && State() == old(State()).(log := ReceiveAll(old(store.log), entries))
    {
      var k := 0;
      while k < |entries|
        invariant k <= |entries| && Valid()
        invariant State() == old(State()).(log := ReceiveAll(old(store.log), entries[..k]))
      {
        var entry := entries[k];
        assert entries[..k + 1][..k] == entries[..k];
        var existing := store.LogAt(entry.index);
        if existing.Some? && existing.value.term != entry.term {
          store.TruncateLogFrom(entry.index);
        }
        var present := store.LogAt(entry.index);
        if present.None? {
          store.AppendLog(entry);
        }
        k := k + 1;
      }
      assert entries[..k] == entries;
    }

    method AppendEntries(newTerm: int, leaderId: string, prevLogIndex: int, prevLogTerm: int,
                         entries: seq<Entry>, leaderCommit: int) returns (reply: Reply)
      requires Valid()
      modifies this, store
      ensures Valid()
      ensures (State(), reply)
           == NodeAppendEntries(old(State()), newTerm, leaderId, prevLogIndex, prevLogTerm, entries, leaderCommit)
      ensures reply == Rejected <==>
                || !old(online) || newTerm < old(term)
                || (prevLogIndex > 0 && (|| prevLogIndex !in old(store.log)
                                         || old(store.log)[prevLogIndex].term != prevLogTerm))
      ensures reply == Accepted ==> term == newTerm && votedFor == leaderId && role == Follower
      ensures reply == Accepted ==>
                var last := LastIndexOf(store.log);
                var target := if leaderCommit < last then leaderCommit else last;
                commit == if target > old(commit) then target else old(commit)
    {
      if !online || newTerm < term {
        return Rejected;
      }
      if newTerm > term {
        term := newTerm;
        votedFor := "";
      }
      role := Follower;
      votedFor := leaderId;
      if prevLogIndex > 0 {
        var previous := store.LogAt(prevLogIndex);
        if previous.None? || previous.value.term != prevLogTerm {
          PersistState();
          return Rejected;
        }
      }
      reply := Accept(entries, leaderCommit);
    }

    /** append_entries once the previous entry matches: take the entries, commit further if there is
        further to go, and persist. */
    method Accept(entries: seq<Entry>, leaderCommit: int) returns (reply: Reply)
      requires Valid()
      modifies this`applied, this`commit, store
      ensures Valid() && (State(), reply) == NodeAccept(old(State()), entries, leaderCommit) && reply != Rejected
      ensures reply == Accepted ==>
                var last := LastIndexOf(store.log);
                var target := if leaderCommit < last then leaderCommit else last;
                commit == if target > old(commit) then target else old(commit)
    {
      ReceiveEntries(entries);
      var lastIndex := store.LastLogIndex();
      var newCommit := Min(leaderCommit, lastIndex);
      if newCommit > commit {
        var threw := ApplyUpTo(newCommit);
        if threw {
          return Thrown;
        }
        commit := Max(commit, newCommit);
      }
      PersistState();
      return Accepted;
    }

    /** None where the source throws: not an online leader. */
    method AppendLocal(command: Command) returns (entry: Option<Entry>)
      requires Valid()
      modifies store`log
      ensures Valid() && State() == NodeAppendLocal(old(State()), command)
      ensures entry == if online && role == Leader then Some(NodeNextEntry(old(State()), command)) else None
      ensures entry.Some? <==> online && role == Leader
      ensures entry.Some? ==>
                && entry.value == Entry(LastIndexOf(old(store.log)) + 1, term, command)
                && store.log == old(store.log)[entry.value.index := entry.value]
      ensures entry.None? ==> store.log == old(store.log)
    {
      if !online || role != Leader {
        return None;
      }
      var lastIndex := store.LastLogIndex();
      var e := Entry(lastIndex + 1, term, command);
      store.AppendLog(e);
      return Some(e);
    }

    method CommitTo(index: int) returns (threw: bool)
      requires Valid()
      modifies this, store
      ensures Valid() && (State(), threw) == NodeCommitTo(old(State()), index)
      ensures !old(online) ==> State() == old(State())
      ensures old(online) && !threw ==>
                var last := LastIndexOf(store.log);
                var target := if index < last then index else last;
                commit == if target > old(commit) then target else old(commit)
    {
      if !online {
        return false;
      }
      var lastIndex := store.LastLogIndex();
      var target := Min(index, lastIndex);
      threw := ApplyUpTo(target);
      if threw {
        return;
      }
      commit := Max(commit, target);
      PersistState();
    }

    method DiscardUncommitted()
      requires Valid()
      modifies store`log
      ensures Valid() && State() == NodeDiscard(old(State()))
      ensures store.log == map i | i in old(store.log) && i <= commit :: old(store.log)[i]
    {
      store.TruncateLogFrom(commit + 1);
    }

    method Get(key: Bytes) returns (value: Option<Bytes>)
      requires Valid()
      ensures value == if online && key in store.kv then Some(store.kv[key]) else None
    {
      if !online {
        return None;
      }
      value := store.Get(key);
    }

    /** The committed part of the log, cut by number of rows. */
    method ExportSnapshot() returns (snapshot: RawSnapshot)
      requires Valid()
      ensures snapshot.term == term && snapshot.commit == commit
      ensures exists rows :: AreRowsFrom(rows, store.log, 1) && snapshot.log == Cut(rows, commit)
    {
      var rows := store.LogsFrom(1);
      snapshot := RawSnapshot(term, commit, if 0 <= commit < |rows| then rows[..commit] else rows);
      assert snapshot.log == Cut(rows, commit);
    }

    /** The loop of install_snapshot and load_state: apply the rows that are there. */
    method ApplyRange(first: int, last: int) returns (threw: bool)
      requires Valid()
      modifies this`applied, store`kv
      ensures Valid()
      ensures var p := ApplyPresent(old(store.kv), old(applied), store.log, first, last);
              State() == old(State()).(kv := p.kv, applied := p.applied) && threw == p.threw
    {
      ghost var p := ApplyPresent(store.kv, applied, store.log, first, last);
      threw := false;
      var i := first;
      while i <= last
        invariant Valid()
        invariant State() == old(State()).(kv := store.kv, applied := applied)
        invariant ApplyPresent(store.kv, applied, store.log, i, last) == p
      {
        var entry := store.LogAt(i);
        if entry.Some? {
          threw := ApplyEntry(entry.value);
          if threw {
            return;
          }
          applied := i;
        }
        i := i + 1;
      }
    }

    method InstallSnapshot(snapshot: RawSnapshot) returns (threw: bool)
      requires Valid()
      modifies this, store
      ensures Valid() && (State(), threw) == NodeInstall(old(State()), snapshot)
      ensures !old(online) ==> State() == old(State())
      ensures old(online) ==>
                votedFor == "" && role == Follower
                    && term == if old(term) < snapshot.term then snapshot.term else old(term)
      ensures old(online) && !threw ==>
                var last := LastIndexOf(store.log);
                commit == if last < snapshot.commit then last else snapshot.commit
    {
      if !online {
        return false;
      }
      store.ClearAll();
      term := Max(term, snapshot.term);
      votedFor := "";
      role := Follower;
      commit := 0;
      applied := 0;
      var k := 0;
      while k < |snapshot.log|
        invariant k <= |snapshot.log| && Valid()
        invariant State() == old(State()).(
                    kv := map[], meta := map[], term := Max(old(term), snapshot.term), votedFor := "",
                    role := Follower, commit := 0, applied := 0, log := InsertAll(map[], snapshot.log[..k]))
      {
        assert snapshot.log[..k + 1][..k] == snapshot.log[..k];
        store.AppendLog(snapshot.log[k]);
        k := k + 1;
      }
      assert snapshot.log[..k] == snapshot.log;
      var lastIndex := store.LastLogIndex();
      var target := Min(snapshot.commit, lastIndex);
      threw := ApplyRange(1, target);
      if threw {
        return;
      }
      commit := target;
      PersistState();
    }

    /** The four saved values, where there are any. */
    method LoadMeta()
      requires Valid() && term == 0 && votedFor == "" && commit == 0 && applied == 0
      modifies this`term, this`votedFor, this`commit, this`applied
      ensures Valid()
      ensures State() == old(State()).(
                term := NumOr(store.meta, CurrentTerm, 0), votedFor := TextOr(store.meta, VotedFor, ""),
                commit := NumOr(store.meta, CommitIndex, 0), applied := NumOr(store.meta, LastApplied, 0))
    {
      var savedTerm := store.GetMeta(CurrentTerm);
      if savedTerm.Some? && savedTerm.value.Num? {
        term := savedTerm.value.n;
      }
      var savedVote := store.GetMeta(VotedFor);
      if savedVote.Some? && savedVote.value.Text? {
        votedFor := savedVote.value.t;
      }
      var savedCommit := store.GetMeta(CommitIndex);
      if savedCommit.Some? && savedCommit.value.Num? {
        commit := savedCommit.value.n;
      }
      var savedApplied := store.GetMeta(LastApplied);
      if savedApplied.Some? && savedApplied.value.Num? {
        applied := savedApplied.value.n;
      }
    }

    method LoadState() returns (threw: bool)
      requires Valid() && role == Follower && online && term == 0 && votedFor == "" && commit == 0 && applied == 0
      modifies this, store
      ensures Valid() && (State(), threw) == NodeLoad(old(store.kv), old(store.log), old(store.meta))
      ensures online && role == Follower && store.log == old(store.log)
      ensures CurrentTerm in old(store.meta) && old(store.meta)[CurrentTerm].Num? ==>
                term == old(store.meta)[CurrentTerm].n
      ensures VotedFor in old(store.meta) && old(store.meta)[VotedFor].Text? ==> votedFor == old(store.meta)[VotedFor].t
      ensures CommitIndex in old(store.meta) && old(store.meta)[CommitIndex].Num? ==>
                commit == old(store.meta)[CommitIndex].n
    {
      LoadMeta();
      threw := false;
      if applied < commit {
        threw := ApplyRange(applied + 1, commit);
        if threw {
          return;
        }
        PersistState();
      }
    }
  }
}
