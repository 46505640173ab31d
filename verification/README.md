# A verified model of the replicated key-value store

This project models the sharded key-value store: a `Shard` drives a group of `RaftReplica` objects,
each over its own SQLite database; a `Cluster` routes keys to shards by hash; a gateway in front
retries, breaks circuits and limits rates. It proves what the store promises its clients: a shard is
one map whatever fails and wherever the process stops, the cluster is one map split by hash, and a
write the gateway retries is stored once or not at all.

## How it is built

Three levels, each proved against the one above.

* **Values.** `Log`, `Protocol`: a replica is a value with a log; every shard operation is a *plan*,
  the sequence of mutating replica calls it makes. A stop of the process is a prefix of a plan.
  `Safety`, `Election`, `Writes`, `Operations`, `Runs`, `Theorems`, `Leaders`, `Tails`, `SingleReplica`,
  `Provenance`, `Partition`, `LastWrite` and `Conduct` prove everything about runs: any sequence of put, erase, get, fail, recover, elect, restarts, and stops
  between any two replica calls, for any number of replicas. One committed history H is threaded
  through a run. Between operations every replica's committed log is a prefix of H, its table is that
  prefix replayed, a majority hold all of H, and only the leader has the Leader role. After a stop only
  the first two and one holder are needed, since a restart brings every replica online.
* **Tables.** `Tables`, `Mirror`: the same replica as the three tables it lives in, a log keyed by index,
  a key-value table and a meta table, with the calls that can throw. The keyed log is shown to be a
  sequence, call by call.
* **Objects.** `Store`, `Raft`, `Shards`, `Clusters` (Cluster.dfy), `Gateways` (Gateway.dfy), `Breaker`,
  `RateLimit` (TokenBucket.dfy): classes with the fields and loops of the C++ ones. `RaftReplica` methods
  are proved equal to the table functions, `Shard` methods to make exactly the calls of their plans, and
  the databases a stopped shard leaves to be ones the constructor opens, so the theorems about runs are
  about these objects, restarts included. `Hashing`, `Json` and `Names` model the text and hash
  helpers.

Where code and documentation disagree the model follows the code: docs/FAILURE_MODES.md:7 says that
with two of three replicas offline reads are refused, but a leader that is still online serves reads
without a majority (src/cluster.cpp:141-144); `Theorems.LeaderKeepsServing` and `Theorems.ReadAgrees`
state what happens. The start value of the hash is the one in the code, which is not the published
offset basis of 64-bit FNV-1a.

A promise that fails: with a single replica an interrupted write can be missing from one read and
present in a later one (`SingleReplica.LateCommitIsReached`), because the replica is its own majority and
commits whatever an earlier stop left in its log. `SingleReplica.LoneWriteIsExact` says exactly when a write
of a single replica is exact, if and only if the replica carries nothing beyond its commit index, and
`SingleReplica.RunIsExact` when a whole run is.

## Model

| member | source | states |
|---|---|---|
| `Theorems.ShardRefinesMap` | src/cluster.cpp:25-109 | In every run that stops only between operations, a get that is answered agrees with the acknowledged writes played in order on a plain map, whichever replica leads |
| `Theorems.ShardRefinesMapDespiteStops` | src/cluster.cpp:211-290 | With two or more replicas and stops between any two replica calls, an interrupted write is in every later answer or in none, an acknowledged one in all |
| `LastWrite.GetSeesLastWrite` | src/cluster.cpp:25-65 | After an acknowledged put, and until something touches the key again, every answered get returns that value; after an acknowledged erase it answers not found; failures, recoveries, elections, stops and restarts in between change nothing |
| `LastWrite.GetSeesNothing` | src/cluster.cpp:53-57 | A key that no step touched is not found |
| `Log.LastWriteWins` | src/raft.cpp:303-311 | In the map a list of commands builds, a key has value v if and only if some "PUT" of v to it is followed by no command on it, and none if and only if no command is on it or the last one is a "DELETE" |
| `Theorems.RunKeeps` | src/cluster.cpp:211-290 | Over such runs the committed history is exactly the kept commands in order, each once |
| `Theorems.NothingIsLost` | src/cluster.cpp:275-284 | The history at any earlier point of any run is a prefix of the history now, for any number of replicas |
| `Theorems.AnswerTellsHistory` | src/cluster.cpp:265-290 | An acknowledged write is the last entry of the history, a refused one is not in it, and no write ends in an exception |
| `Theorems.ExactAvailability` | src/cluster.cpp:141-156 | In runs that stop only between operations a write succeeds if and only if more than half of the replicas are online; a get is refused if and only if there is no leader online and at most half of them are |
| `Theorems.ReadAgrees` | src/cluster.cpp:35-65 | A get is answered from the replay of the whole history, and refused exactly when there is no leader online and at most half of the replicas are |
| `Theorems.LeaderKeepsServing` | src/cluster.cpp:141-144 | Taking down any replica but the leader changes no answer to a get, even without a majority |
| `Theorems.LogsArePrefixes` | src/raft.cpp:119-257 | In every state of such a run each replica's log, online or not, is a prefix of one well-formed history, all of it committed, and its table is its log replayed |
| `Theorems.LeaderCompleteness` | src/cluster.cpp:146-203 | In every reachable state between operations more than half of the replicas hold the whole history, and an election with more than half online picks a candidate that holds it, gets every online vote and succeeds |
| `Theorems.CleanRun` | src/cluster.cpp:211-290 | Runs that stop only between operations leave no tail on any replica and keep exactly the acknowledged writes |
| `Runs.RunSafe` | src/cluster.cpp:141-298 | State machine safety: every reachable state, running or stopped, satisfies the central invariant for the history of the run |
| `Runs.StepKeeps` | src/cluster.cpp:25-109 | Every step keeps it: each operation, a stop after any number of its calls, a restart, and a stop during the restart's election |
| `Safety.QuorumsMeet` | src/cluster.cpp:146-156 | Two sets of replicas that are each a majority have a member in common |
| `Safety.QuorumIsMajority` | src/cluster.cpp:146-156 | The number the code compares with is the least that is more than half |
| `Safety.HarmlessAllAlong` | src/cluster.cpp:168-203 | A plan of calls that keep every replica safe is safe to interrupt after any call |
| `Election.BestSatisfiesVoters` | src/cluster.cpp:158-166 | The candidate order (commit, last term, last index) and the voters' order (last term, last index) never disagree: the best online replica holds the history and satisfies every online voter |
| `Election.ElectionWon` | src/cluster.cpp:176-191 | The candidate gets every online vote |
| `Election.ElectionSucceeds` | src/cluster.cpp:146-203 | The election succeeds, may be interrupted anywhere, and leaves every online replica in a state written out in full |
| `Election.EnsureKeeps` | src/cluster.cpp:141-203 | ensure_leader_locked succeeds exactly when a leader or a majority is online, keeps the invariant, and touches no online flag |
| `Election.LeaderFound` | src/cluster.cpp:132-139 | A non-empty leader id names an online leader with a maximal term that holds the whole history |
| `Election.BootKeeps` | src/cluster.cpp:9-23 | A restart from whatever a stop left succeeds: all replicas online, all holding the whole history |
| `Leaders.ElectionSafety` | src/cluster.cpp:168-203 | The terms of the leaders crowned in a run, interrupted elections included, strictly increase, although snapshots clear votes; so no term has two leaders |
| `Leaders.OneLeader` | src/cluster.cpp:132-139 | Between operations at most one replica has the Leader role, and the leader id names it |
| `Leaders.TermsGrow` | src/raft.cpp:89-117 | No call ever lowers a replica's term |
| `Conduct.ElectsTheFirstBest` | src/cluster.cpp:158-203 | In every reachable state without a leader and with more than half online, an election crowns the first online replica that none is ahead of (by commit index, then last term, then length), at a term one above the largest of all replicas, or 1 |
| `Conduct.OneVotePerTerm` | src/raft.cpp:104-116 | Having granted a vote to one candidate, a replica grants none to another in that term |
| `Conduct.VoteMeans` | src/raft.cpp:94-116 | Exactly when a vote is granted, in terms of term, last term, length and the vote given before |
| `Conduct.EntriesReplace` | src/raft.cpp:144-153 | Consecutive received entries replace a log from the first that differs in term, and leave it alone if none does |
| `Conduct.ReplicatesTo` | src/cluster.cpp:239-256 | A follower is sent a snapshot if and only if its commit index or its length differs from the leader's commit index, and the new entry in any case; nobody else is sent anything |
| `Writes.InStepSuffices` | src/cluster.cpp:239-249 | After the test on indexes alone, and the snapshot if it fails, the follower's log is exactly the leader's committed log and its table that log replayed |
| `Writes.PreparedReceives` | src/cluster.cpp:250-263 | Such a follower accepts the new entry exactly when the leader had nothing beyond the history, and then holds the history and that entry; nothing committed is truncated and nothing is applied |
| `Writes.LoopSpreads` | src/cluster.cpp:239-263 | The replication loop leaves every online follower with exactly the committed log and the new entry, or with the committed log alone if the leader carried a tail, and may be interrupted anywhere |
| `Writes.CommitPoint` | src/cluster.cpp:275-276 | The leader's commit_to is the moment the history grows: before it every replica is safe for H, after it for the longer history |
| `Writes.WriteViaKeeps` | src/cluster.cpp:231-290 | A write under a known leader: when it succeeds, what every replica looks like afterwards, and which history a stop after each call leaves |
| `Operations.WriteKeeps` | src/cluster.cpp:211-290 | put and erase: their answer, the state they leave and every stop inside them, in terms of one history |
| `Operations.WriteExtends` | src/cluster.cpp:211-290 | The history grows by exactly the acknowledged command with two or more replicas, or no tails |
| `Tails.AtMostOneRefusedWrite` | src/cluster.cpp:265-273 | In every run: between two writes refused with a majority online, whatever gets, failures, recoveries, elections and restarts came in between, there was another stop inside an operation; so a stop costs at most one write |
| `Tails.AtMostOneTail` | src/cluster.cpp:197-203 | In every reachable state of a running shard at most one replica has entries beyond its commit index |
| `Tails.WriteStoredExactly` | src/cluster.cpp:236-273 | Exact availability in every run, stops anywhere: a write is stored if and only if a majority is online and the replica it goes through (the leader, or the candidate of the election it starts) has no tail or is the only replica |
| `Operations.NextWriteSucceeds` | src/cluster.cpp:265-273 | With a majority online, the write right after a refused one succeeds |
| `Tails.RefusedLeavesNoTrace` | src/cluster.cpp:265-273 | From any state, tails included: after a refused write the history is the same, the refused entry is in no log, every online replica that a leader reached ends exactly at the history, and every offline one is untouched |
| `Tails.RefusedWriteVanishes` | src/cluster.cpp:265-273 | The same in every run, stops anywhere; with stops only between operations every log is a prefix of the history |
| `Operations.FailKeeps` | src/cluster.cpp:67-80 | fail_replica takes exactly that replica offline and keeps the invariant, whether or not it led |
| `Operations.RecoverKeeps` | src/cluster.cpp:82-104 | recover_replica brings the replica online and, where there is a leader, level with the whole history |
| `SingleReplica.LoneWriteIsExact` | src/cluster.cpp:265-284 | One replica: a write adds exactly its command if and only if nothing was left beyond the commit index |
| `SingleReplica.LateCommit` | src/cluster.cpp:231-284 | One replica: a put stopped after its first call is missing from a read after the restart and present in a read after the next put |
| `SingleReplica.LateCommitIsReached` | src/cluster.cpp:231-284 | The run that does it, from empty databases |
| `SingleReplica.RunIsExact` | src/cluster.cpp:231-284 | For any number of replicas and stops anywhere, the history is exactly the kept commands if and only if no kept write started on a lone replica with entries beyond its commit index |
| `SingleReplica.UsuallyNothingLate` | src/cluster.cpp:231-284 | That condition holds with two or more replicas, and with stops only between operations |
| `SingleReplica.WriteAddsLate` | src/cluster.cpp:275-284 | In all generality a stored write adds what a lone replica carried beyond its commit index, in order, and then itself |
| `Provenance.NothingInvented` | src/raft.cpp:119-257 | In every run, stops anywhere, every entry in any log, tails included, is a command some client asked this shard for |
| `Mirror.LastOfTable` | src/sqlite_store.cpp:211-227 | The largest index of the log table is the number of its entries, and the last term is that of the last one |
| `Mirror.RowsOfTable` | src/sqlite_store.cpp:185-209 | Rows from index 1 in index order are the log as a sequence |
| `Mirror.RequestVoteMirrors` | src/raft.cpp:89-117 | request_vote on the tables grants the same votes and stores the same replica as on the sequence |
| `Mirror.AppendEntriesMirrors` | src/raft.cpp:119-171 | append_entries on the tables, truncation and apply loop included, stores the same replica as on the sequence, and throws nothing |
| `Mirror.MergeKeepsCommitted` | src/raft.cpp:137-153 | Received entries above the commit index leave the committed part of the log untouched |
| `Mirror.AppendLocalMirrors` | src/raft.cpp:173-188 | append_local adds the next consecutive index |
| `Mirror.CommitToMirrors` | src/raft.cpp:190-206 | commit_to applies exactly the entries between the commit index and the new one, and throws nothing |
| `Mirror.DiscardMirrors` | src/raft.cpp:208-211 | discard_uncommitted leaves exactly the committed log |
| `Mirror.ExportMirrors` | src/raft.cpp:221-231 | Cutting a snapshot by number of rows equals cutting it by index, and never exports a pending entry |
| `Mirror.InstallMirrors` | src/raft.cpp:233-257 | install_snapshot leaves tables that store exactly the snapshot, and throws nothing |
| `Mirror.LoadMirrors` | src/raft.cpp:279-301 | Redo: from a table that is the replay of any log prefix between last applied and commit index, load_state reaches exactly the replay up to the commit index |
| `Log.RedoIsReplay` | src/raft.cpp:279-301 | Re-applying a range of entries over any table between its two ends gives the table at its end |
| `Log.WellFormedAt` | src/raft.cpp:173-188 | In the history, and so in every committed log, entry k has index k + 1 and terms never decrease |
| `Log.ReplayIsMap` | src/raft.cpp:303-311 | Replaying a log is playing its commands on a plain map |
| `Tables.OverwrittenIsMetaOf` | src/raft.cpp:272-277 | Writing the four meta values one by one, over whatever was there, gives the same meta table |
| `Store.SqliteStore.AppendLog` | src/sqlite_store.cpp:145-155 | Inserts or replaces the row of the entry's index, and nothing else |
| `Store.SqliteStore.TruncateLogFrom` | src/sqlite_store.cpp:157-162 | Removes exactly the rows from an index on |
| `Store.SqliteStore.LogsFrom` | src/sqlite_store.cpp:185-209 | All rows from an index on, each once, in index order |
| `Store.SqliteStore.LastLogIndex` | src/sqlite_store.cpp:211-216 | The largest index, 0 for an empty log |
| `Store.SqliteStore.ClearAll` | src/sqlite_store.cpp:252-264 | Empties all three tables |
| `Raft.RaftReplica.ApplyEntry` | src/raft.cpp:303-311 | "PUT" sets the key to the value, "DELETE" removes it, any other name throws and changes nothing |
| `Raft.RaftReplica.RequestVote` | src/raft.cpp:89-117 | Exactly when it grants, in terms of the fields and the log, and the term and vote it leaves; log, table and commit index are untouched |
| `Raft.RaftReplica.AppendEntries` | src/raft.cpp:119-171 | Exactly when it rejects; the term, role, vote and commit index it leaves otherwise; the whole new state, entry loop and apply loop included; when it throws |
| `Raft.RaftReplica.AppendLocal` | src/raft.cpp:173-188 | Throws exactly when offline or not the leader, and then changes nothing; otherwise appends the next entry |
| `Raft.RaftReplica.CommitTo` | src/raft.cpp:190-206 | The apply loop and the persisted indexes, or the state it throws in |
| `Raft.RaftReplica.DiscardUncommitted` | src/raft.cpp:208-211 | Truncates above the commit index only |
| `Raft.RaftReplica.ExportSnapshot` | src/raft.cpp:221-231 | The first commit-index many rows of the log, and the indexes |
| `Raft.RaftReplica.InstallSnapshot` | src/raft.cpp:233-257 | Clears, inserts, re-applies and persists; the whole new state |
| `Raft.RaftReplica.LoadState` | src/raft.cpp:279-301 | The saved term, vote and commit index come back, the log is untouched, the replica is an online follower; the whole new state, redo loop included |
| `Shards.Shard.constructor` | src/cluster.cpp:9-23 | Opening a shard over databases that a stop can leave ends in the state of the model's restart, with the invariant and the same history |
| `Shards.Shard.Create` | src/cluster.cpp:9-23 | Nothing for a shard of no replicas, on which the C++ constructor throws; otherwise as the constructor |
| `Shards.Shard.StopLeavesDisks` | src/raft.cpp:272-301 | Stopped between any two replica calls, a shard leaves databases that the constructor opens as the very same replicas |
| `Shards.Shard.StopInLeavesDisks` | src/cluster.cpp:25-109 | So after a stop inside any operation, with the history the run says |
| `Shards.Shard.StopInBootLeavesDisks` | src/cluster.cpp:22-23 | And after a stop inside the constructor's own election |
| `Mirror.StoppedIsRecoverable` | src/raft.cpp:272-277 | The tables of a live replica are among those load_state recovers, as that replica |
| `Shards.EmptyIsRecoverable` | src/sqlite_store.cpp:65-85 | A new database is among those a shard can be opened over, as an empty replica |
| `Shards.Shard.EnsureLeaderLocked` | src/cluster.cpp:141-203 | Makes exactly the calls of the election plan and answers as it does |
| `Shards.Shard.ReplicateToFollowers` | src/cluster.cpp:239-263 | The loop makes exactly the calls of the plan; returns exactly the followers that acknowledge, in order |
| `Shards.Shard.ReplicateCommandLocked` | src/cluster.cpp:211-290 | Makes exactly the calls of the write plan, with its status code |
| `Shards.Shard.Put` | src/cluster.cpp:25-28 | 201: the key has the value in the replay of the history, which grew by the command, after what a lone replica still had to commit; 503: the history is unchanged; without tails 201 exactly with more than half online; the answer names the leader |
| `Shards.Shard.Erase` | src/cluster.cpp:30-33 | The same with 200, and the key is gone |
| `Shards.Shard.Get` | src/cluster.cpp:35-65 | 200 with the value, or 404, from the replay of the whole history; 503 exactly when there is no leader online and at most half of the replicas are; the answer names the leader |
| `Shards.Shard.FailReplica` | src/cluster.cpp:67-80 | False exactly for an unknown id; makes the calls of the plan and keeps the invariant |
| `Shards.Shard.RecoverReplica` | src/cluster.cpp:82-104 | False exactly for an unknown id; makes the calls of the plan and keeps the invariant |
| `Shards.Shard.ElectLeader` | src/cluster.cpp:106-109 | True exactly when a leader or a majority is online |
| `Names.ReplicaIdsDistinct` | src/cluster.cpp:17-21 | The ids a shard gives its replicas are distinct |
| `Names.DecimalStands` | src/cluster.cpp:18 | The digits of a number stand for it, with no leading zero |
| `Names.ReplicaIdReads` | src/cluster.cpp:18 | The letters of a replica id |
| `Partition.ShardKeepsItsPart` | src/cluster.cpp:313-327 | In every interleaving of the shards' runs, what shard i keeps is the part of the one global map whose keys hash to i |
| `Partition.ClusterRefinesMap` | src/cluster.cpp:313-335 | A key's shard answers from the one map that all shards' kept commands build in the order of the whole run, whatever happens in the other shards; its own need only satisfy the condition of `SingleReplica.RunIsExact` |
| `Partition.CleanClusterKeepsAcknowledged` | src/cluster.cpp:317-323 | With stops only between operations that map is the one of the acknowledged writes |
| `Partition.ShardLogsAtHome` | src/cluster.cpp:313-323 | In every run, stops anywhere, whatever is in any log of a shard hashes to that shard |
| `Partition.ReplicaKeysHashHome` | src/cluster.cpp:313-315 | And so does every key in any replica's table |
| `Clusters.TableIsPart` | src/cluster.cpp:313-327 | Each shard's history being the cluster's log restricted to its keys, its table is its part of the one table: the parts are disjoint and together are the whole |
| `Clusters.Cluster.constructor` | src/cluster.cpp:300-311 | Opens every shard, tails of lone replicas included; together they serve one log, and share no object |
| `Clusters.Cluster.Create` | src/cluster.cpp:300-311 | Nothing for no shards, or for shards of no replicas, on which the C++ constructors throw; otherwise as the constructor |
| `Clusters.Cluster.StopLeavesFiles` | src/cluster.cpp:300-311 | Stopped anywhere, a cluster leaves databases that the constructor opens |
| `Clusters.Cluster.Put` | src/cluster.cpp:317-319 | Stored: the one log took the command as its last, after what a lone replica of that shard still had to commit (nothing, if all shards are settled); refused: it is unchanged; only the key's own shard is touched; without tails stored exactly with more than half of that shard online; the key then has the value in the one map |
| `Clusters.Cluster.ShardForKey` | src/cluster.cpp:313-315 | The remainder of the key's hash by the number of shards |
| `Clusters.Cluster.Erase` | src/cluster.cpp:321-323 | The same for erase, after which the key is not in the one map |
| `Clusters.Cluster.Get` | src/cluster.cpp:325-327 | Answers from the one map; 503 exactly when the key's shard has neither a leader nor a majority, whatever the other shards do |
| `Clusters.Cluster.FailReplica` | src/cluster.cpp:329-331 | The one map is unchanged and only that shard is touched |
| `Clusters.Cluster.RecoverReplica` | src/cluster.cpp:333-335 | The one map is unchanged and only that shard is touched |
| `Clusters.Cluster.Elect` | src/cluster.cpp:337-339 | True exactly for an existing shard with a leader or a majority online |
| `Gateways.Gateway.Execute` | src/gateway.cpp:218-256 | A "PUT" answered below 500 is answered 201, is the log's last command, and its value is in the map; a "DELETE" is answered 200 and the key is gone; a "GET" adds nothing. With other requests' cluster calls and breaker records between the attempts: over settled shards a write answered below 500 is in the log once, one answered 503 not at all (a shard's history is that log restricted to its keys), and everything else logged is some other client's; at most max_retries + 1 attempts; an open circuit, and nothing else, stops it before the first; the breaker's outcomes in full, others' among them |
| `Gateways.Gateway.Retry` | src/gateway.cpp:233-256 | The loop: stops at the first answer below 500, otherwise makes all max_retries + 1 attempts |
| `Gateways.Gateway.Attempt` | src/gateway.cpp:234-240 | What one attempt does, by the name of the operation |
| `Gateways.Gateway.constructor` | src/gateway.cpp:71-87 | One closed breaker per shard, which three failures open for five seconds |
| `Breaker.FailuresAreTrailing` | src/gateway.cpp:49-60 | n failures since the last success means the last n outcomes are failures |
| `Breaker.RefusesMeans` | src/gateway.cpp:34-60 | The circuit refuses if and only if the last `threshold` outcomes are all failures and the latest is younger than the open duration (a threshold of 0 acts like 1) |
| `Breaker.ThreeFailuresOpen` | src/gateway.cpp:82-86 | The gateway's breakers: three failures in a row refuse for five seconds, two or an interrupted three do not |
| `Breaker.CircuitBreaker.AllowRequest` | src/gateway.cpp:34-47 | Refuses exactly when the last `threshold` outcomes are failures and the latest is younger than the open duration, whatever was asked in between; an open circuit that lets one through is half-open |
| `Breaker.CircuitBreaker.RecordSuccess` | src/gateway.cpp:49-52 | Closes the circuit |
| `Breaker.CircuitBreaker.RecordFailure` | src/gateway.cpp:54-60 | Open from now on exactly when the last `threshold` outcomes are failures |
| `RateLimit.TokensAreLeastAllowance` | src/gateway.cpp:18-22 | The tokens a request finds are the least, over all windows that end now, of capacity + rate * elapsed - tokens granted in the window |
| `RateLimit.GrantedIffItFits` | src/gateway.cpp:23-27 | A request is granted if and only if it fits every window |
| `RateLimit.WindowBound` | src/gateway.cpp:18-28 | No window up to the latest request exceeds capacity + rate * elapsed |
| `RateLimit.NoWindowExceeds` | src/gateway.cpp:18-28 | No window between any two requests exceeds it |
| `RateLimit.TokenBucket.Consume` | src/gateway.cpp:18-28 | Grants exactly what fits every window, and records it |
| `RateLimit.BoundIsBudget` | src/gateway.cpp:18-22 | The bound of a window is capacity + rate * elapsed in seconds |
| `RateLimit.BudgetMeans` | src/gateway.cpp:18-22 | capacity + rate * elapsed |
| `RateLimit.TakenAddsUp` | src/gateway.cpp:26-27 | What is granted adds up over requests |
| `RateLimit.BurstOfTwo` | src/gateway.cpp:12-28 | Two tokens and one a second: two requests at once are granted, a third not until a second later |
| `RateLimit.RateLimiter.Allowed` | src/gateway.cpp:200-204 | The decision depends on this client's requests alone, and no other client's record changes |
| `RateLimit.RateLimiter.NoClientExceeds` | src/gateway.cpp:200-204 | With a clock that does not run backwards, no client is granted more than burst + rate * elapsed between any two of its requests |
| `Hashing.Fnv1a64` | include/kv/common.hpp:22-29 | The loop computes the hash of the model |
| `Hashing.HashOfNothing` | include/kv/common.hpp:23-23 | The hash of the empty key is 1469598103934665603 |
| `Hashing.HashOfOneMore` | include/kv/common.hpp:24-27 | One more byte: the low byte of the hash is xor-ed with it, the rest stays, and the result is multiplied by 1099511628211 modulo 2^64 |
| `Hashing.ShardOfB` | src/cluster.cpp:313-315 | Of four shards, the key "b" belongs to the last |
| `Hashing.MixInjective` | include/kv/common.hpp:25-26 | One step merges no two 64-bit states |
| `Hashing.OneByteSeparates` | include/kv/common.hpp:22-29 | Two keys that differ in exactly one byte never share a hash |
| `Json.JsonEscape` | include/kv/common.hpp:31-52 | The loop computes the escaped text of the model |
| `Json.EscapeRoundTrip` | include/kv/common.hpp:31-52 | Decoding the escaped text as a JSON string body (section 7 of RFC 8259) restores every byte string |
| `Json.EscapeTable` | include/kv/common.hpp:34-48 | The escape of every byte, in plain bytes; every byte from 0x20 on but the quote and the backslash is copied |
| `Json.EscapeIsPrintable` | include/kv/common.hpp:42-48 | The output holds no control byte |
| `Json.EndsAtItsQuote` | include/kv/common.hpp:35-36 | Put between quotes, the escaped text ends at the closing quote and nowhere before: a scanner that skips escaped characters finds no earlier quote |
| `Json.NoBareQuote` | include/kv/common.hpp:35-36 | The escaped text together with a closing quote is no string body any more |

## Left out

- src/http_server.cpp and src/main.cpp: sockets, threads, header reading, flags and environment.
- SQLite itself, its write-ahead log and synchronous settings, and errors it throws: the three tables are maps whose statements are atomic.
- Mutexes and thread scheduling: a shard call is one atomic step; other clients' calls run between the gateway's attempts.
- Stops inside a single replica call, other than the redo case of `Mirror.LoadMirrors`: a stop between apply_entry and the commit-index write in commit_to leaves the table ahead of the log, and nothing is claimed there.
- src/metrics.cpp, log_event, status_json, response bodies, messages and headers.
- The route branches of Gateway::handle and `authorized`: each is settled by reading one branch; the size limits on keys and values are there too.
- split_path, to_lower, and sleeping between attempts.
- 64-bit overflow of terms and indexes, which are unbounded integers here; rounding in the token bucket, whose tokens and times are reals.
- Keys with NUL bytes, which the store binds as C strings and so cuts: keys here are byte strings without that cut.
- The meta table's text: its four keys are an enumeration and its numbers are numbers, so malformed text in it is not modelled.
- Replicas are compared by position where the code compares ids; `Names.ReplicaIdsDistinct` makes the two the same.
- The clock, which is a parameter wherever the code reads it, and is taken not to run backwards where the breaker reads it.
- Other requests between an attempt of the retry loop and the record of its own outcome: they run between attempts.
- Gateways.Gateway.Execute: that a write adds nothing but itself is told of clusters whose shards are settled (two or more replicas, or no tail left by a stop), because a lone replica with a tail stores more than the write (`SingleReplica.WriteAddsLate`); everything else it states holds of every cluster.
