/** Log entries, the key-value table they build, and what it means to replay a log
    (LogEntry in include/kv/sqlite_store.hpp, apply_entry in src/raft.cpp). */
module Log {

  type Bytes = seq<bv8>
  type Table = map<Bytes, Bytes>

  datatype Option<+T> = None | Some(value: T)

  /** What a client asked for; an Entry is a command placed in a log. */
  datatype Command = Command(name: string, key: Bytes, value: Bytes)

  datatype Entry = Entry(index: int, term: int, command: Command)

  const PUT := "PUT"
  const DELETE := "DELETE"

  predicate Known(c: Command) {
    c.name == PUT || c.name == DELETE
  }

  /** The effect of one command; an unknown one leaves the table alone (the replica throws). */
  function Apply(kv: Table, c: Command): Table {
    if c.name == PUT then kv[c.key := c.value]
    else if c.name == DELETE then kv - {c.key}
    else kv
  }

  function ApplyAll(kv: Table, log: seq<Entry>): Table {
    if log == [] then kv else Apply(ApplyAll(kv, log[..|log| - 1]), log[|log| - 1].command)
  }

  function Replay(log: seq<Entry>): Table {
    ApplyAll(map[], log)
  }

  function Commands(log: seq<Entry>): seq<Command> {
    seq(|log|, i requires 0 <= i < |log| => log[i].command)
  }

  /** The plain map a client has in mind: its commands, one after the other. */
  function MapOf(cs: seq<Command>): Table {
    if cs == [] then map[] else Apply(MapOf(cs[..|cs| - 1]), cs[|cs| - 1])
  }

  function Lookup(kv: Table, key: Bytes): Option<Bytes> {
    if key in kv then Some(kv[key]) else None
  }

  function LastTerm(log: seq<Entry>): int {
    if log == [] then 0 else log[|log| - 1].term
  }

  /** Entry k sits at position k+1, terms are positive and never decrease, every command is known. */
  ghost predicate WellFormed(log: seq<Entry>) {
    log == [] ||
    (var n := |log| - 1;
     && WellFormed(log[..n])
     && log[n].index == n + 1 && Known(log[n].command)
     && 0 < log[n].term && LastTerm(log[..n]) <= log[n].term)
  }

  /** The voters' order: `log` is not more up to date than `other`. */
  predicate NotAhead(log: seq<Entry>, other: seq<Entry>) {
    LastTerm(log) < LastTerm(other) || (LastTerm(log) == LastTerm(other) && |log| <= |other|)
  }

  lemma {:induction false} ApplyAllConcat(kv: Table, a: seq<Entry>, b: seq<Entry>)
    ensures ApplyAll(kv, a + b) == ApplyAll(ApplyAll(kv, a), b)
  {
    if b == [] {
      assert a + b == a;
    } else {
      ApplyAllConcat(kv, a, b[..|b| - 1]);
      assert (a + b)[..|a + b| - 1] == a + b[..|b| - 1];
    }
  }

  lemma {:induction false} ReplayIsMap(log: seq<Entry>)
    ensures Replay(log) == MapOf(Commands(log))
  {
    if log != [] {
      ReplayIsMap(log[..|log| - 1]);
      assert Commands(log)[..|log| - 1] == Commands(log[..|log| - 1]);
    }
  }

  lemma MapOne(cs: seq<Command>, c: Command)
    ensures MapOf(cs + [c]) == Apply(MapOf(cs), c)
  {
    assert (cs + [c])[..|cs|] == cs;
  }

  // ---------------------------------------------------------------- last write wins

  /** Command i is the last one on the key. */
  predicate LastOn(cs: seq<Command>, key: Bytes, i: nat) {
    i < |cs| && cs[i].key == key && forall j :: i < j < |cs| ==> cs[j].key != key
  }

  predicate PutsAndDeletes(cs: seq<Command>) {
    forall i :: 0 <= i < |cs| ==> cs[i].name == "PUT" || cs[i].name == "DELETE"
  }

  lemma {:induction false} UntouchedKey(cs: seq<Command>, key: Bytes)
    requires forall i :: 0 <= i < |cs| ==> cs[i].key != key
    ensures key !in MapOf(cs)
  {
    if cs != [] { UntouchedKey(cs[..|cs| - 1], key); }
  }

  /** The last command on a key decides: a put leaves its value there, a delete leaves nothing. */
  lemma {:induction false} LastDecides(cs: seq<Command>, key: Bytes, i: nat)
    requires PutsAndDeletes(cs) && LastOn(cs, key, i)
    ensures cs[i].name == "PUT" ==> key in MapOf(cs) && MapOf(cs)[key] == cs[i].value
    ensures cs[i].name == "DELETE" ==> key !in MapOf(cs)
  {
    if i < |cs| - 1 {
      var front := cs[..|cs| - 1];
      LastDecides(front, key, i);
      assert cs[|cs| - 1].key != key;
    }
  }

  lemma {:induction false} SomeIsLast(cs: seq<Command>, key: Bytes, k: nat) returns (i: nat)
    requires k < |cs| && cs[k].key == key
    ensures LastOn(cs, key, i)
    decreases |cs| - k
  {
    if j :| k < j < |cs| && cs[j].key == key {
      i := SomeIsLast(cs, key, j);
    } else {
      i := k;
    }
  }

  /** So does a command at the end. */
  lemma LastCommandDecides(cs: seq<Command>, key: Bytes)
    requires cs != [] && cs[|cs| - 1].key == key
    ensures cs[|cs| - 1].name == "PUT" ==> key in MapOf(cs) && MapOf(cs)[key] == cs[|cs| - 1].value
    ensures cs[|cs| - 1].name == "DELETE" ==> key !in MapOf(cs)
  {
  }

  /** The same of a replayed log that ends in this command. */
  lemma LastEntryDecides(log: seq<Entry>, key: Bytes)
    requires log != [] && log[|log| - 1].command.key == key
    ensures log[|log| - 1].command.name == "PUT" ==>
              key in Replay(log) && Replay(log)[key] == log[|log| - 1].command.value
    ensures log[|log| - 1].command.name == "DELETE" ==> key !in Replay(log)
  {
  }

  /** Last write wins, said without the step that applies a command: a key has value v if and only if
      some put of v to it is followed by no command on it; it has none if and only if no command is on
      it or the last one is a delete. */
  lemma LastWriteWins(cs: seq<Command>, key: Bytes, v: Bytes)
    requires PutsAndDeletes(cs)
    ensures key in MapOf(cs) && MapOf(cs)[key] == v <==>
            exists i :: 0 <= i < |cs| && cs[i].name == "PUT" && cs[i].value == v && LastOn(cs, key, i)
    ensures key !in MapOf(cs) <==>
            || (forall i :: 0 <= i < |cs| ==> cs[i].key != key)
            || (exists i :: 0 <= i < |cs| && cs[i].name == "DELETE" && LastOn(cs, key, i))
  {
    if k :| 0 <= k < |cs| && cs[k].key == key {
      var i := SomeIsLast(cs, key, k);
      LastDecides(cs, key, i);
      assert forall j :: LastOn(cs, key, j) ==> j == i;
    } else {
      UntouchedKey(cs, key);
    }
  }

  /** Replaying the same entries over two tables gives tables that differ at most where the
      originals did and no entry wrote. */
  lemma {:induction false} ApplyAllAgrees(t1: Table, t2: Table, log: seq<Entry>, key: Bytes)
    requires forall i :: 0 <= i < |log| ==> Known(log[i].command)
    requires Lookup(t1, key) == Lookup(t2, key) || exists i :: 0 <= i < |log| && log[i].command.key == key
    ensures Lookup(ApplyAll(t1, log), key) == Lookup(ApplyAll(t2, log), key)
  {
    if log != [] && log[|log| - 1].command.key != key {
      var front := log[..|log| - 1];
      assert forall i :: 0 <= i < |front| ==> front[i] == log[i];
      if Lookup(t1, key) != Lookup(t2, key) {
        var i :| 0 <= i < |log| && log[i].command.key == key;
        assert front[i].command.key == key;
      }
      ApplyAllAgrees(t1, t2, front, key);
    }
  }

  lemma {:induction false} ApplyAllUntouched(kv: Table, log: seq<Entry>, key: Bytes)
    requires forall i :: 0 <= i < |log| ==> log[i].command.key != key
    ensures Lookup(ApplyAll(kv, log), key) == Lookup(kv, key)
  {
    if log != [] {
      ApplyAllUntouched(kv, log[..|log| - 1], key);
    }
  }

  /** Redo: a table already ahead of `applied`, by however much, is repaired by replaying from `applied`. */
  lemma RedoIsReplay(log: seq<Entry>, applied: nat, ahead: nat, commit: nat)
    requires applied <= ahead <= commit <= |log|
    requires forall i :: 0 <= i < |log| ==> Known(log[i].command)
    ensures ApplyAll(Replay(log[..ahead]), log[applied..commit]) == Replay(log[..commit])
  {
    var redo := log[applied..commit];
    forall key: Bytes
      ensures Lookup(ApplyAll(Replay(log[..ahead]), redo), key) == Lookup(Replay(log[..commit]), key)
    {
      RedoAt(log, applied, ahead, commit, key);
    }
    SameLookupsSameTable(ApplyAll(Replay(log[..ahead]), redo), Replay(log[..commit]));
  }

  lemma ReplayFrom(log: seq<Entry>, from: nat, to: nat)
    requires from <= to <= |log|
    ensures Replay(log[..to]) == ApplyAll(Replay(log[..from]), log[from..to])
  {
    ApplyAllConcat(map[], log[..from], log[from..to]);
    assert log[..from] + log[from..to] == log[..to];
  }

  lemma RedoAt(log: seq<Entry>, applied: nat, ahead: nat, commit: nat, key: Bytes)
    requires applied <= ahead <= commit <= |log|
    requires forall i :: 0 <= i < |log| ==> Known(log[i].command)
    ensures Lookup(ApplyAll(Replay(log[..ahead]), log[applied..commit]), key) == Lookup(Replay(log[..commit]), key)
  {
    var base, done, redo := Replay(log[..applied]), log[applied..ahead], log[applied..commit];
    ReplayFrom(log, applied, ahead);
    ReplayFrom(log, applied, commit);
    if i :| 0 <= i < |done| && done[i].command.key == key {
      assert redo[i] == done[i];
    } else {
      ApplyAllUntouched(base, done, key);
    }
    ApplyAllAgrees(Replay(log[..ahead]), base, redo, key);
  }

  lemma SameLookupsSameTable(a: Table, b: Table)
    requires forall key: Bytes :: Lookup(a, key) == Lookup(b, key)
    ensures a == b
  {
    forall key: Bytes ensures key in a <==> key in b {
      assert Lookup(a, key) == Lookup(b, key);
    }
    forall key | key in a ensures a[key] == b[key] {
      assert Lookup(a, key) == Lookup(b, key);
    }
    assert a.Keys == b.Keys;
  }

  lemma {:induction false} WellFormedPrefix(log: seq<Entry>, n: nat)
    requires WellFormed(log) && n <= |log|
    ensures WellFormed(log[..n]) && 0 <= LastTerm(log[..n]) && NotAhead(log[..n], log)
  {
    if n == |log| {
      assert log[..n] == log;
    } else {
      WellFormedPrefix(log[..|log| - 1], n);
      assert log[..|log| - 1][..n] == log[..n];
    }
  }

  /** The same, position by position: consecutive indexes, and terms that never decrease. */
  lemma {:induction false} WellFormedAt(log: seq<Entry>, i: nat, j: nat)
    requires WellFormed(log) && i <= j < |log|
    ensures log[i].index == i + 1 && Known(log[i].command) && 0 < log[i].term <= log[j].term
  {
    WellFormedPrefix(log, j + 1);
    WellFormedPrefix(log[..j + 1], i + 1);
    assert log[..j + 1][..i + 1][i] == log[i] && log[..j + 1][j] == log[j];
  }

  lemma WellFormedSnoc(log: seq<Entry>, e: Entry)
    requires WellFormed(log) && LastTerm(log) <= e.term && 0 < e.term
    requires e.index == |log| + 1 && Known(e.command)
    ensures WellFormed(log + [e])
  {
    assert (log + [e])[..|log|] == log;
  }

  lemma NotAheadTransitive(a: seq<Entry>, b: seq<Entry>, c: seq<Entry>)
    requires NotAhead(a, b) && NotAhead(b, c)
    ensures NotAhead(a, c)
  {
  }
}
