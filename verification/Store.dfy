/** SqliteStore (src/sqlite_store.cpp): three tables, each statement atomic. */
module Store {
  import opened Log
  import opened Tables

  class SqliteStore {
    var kv: Table
    var log: LogTable
    var meta: MetaTable

    /** A new database: the tables exist and are empty. */
    constructor ()
      ensures kv == map[] && log == map[] && meta == map[] && Keyed()
    {
      kv, log, meta := map[], map[], map[];
    }

    /** Every row of the log sits under its own index. */
    ghost predicate Keyed()
      reads this
    {
      forall i :: i in log ==> log[i].index == i
    }

    method Put(key: Bytes, value: Bytes)
      modifies this`kv
      ensures kv == old(kv)[key := value]
    {
      kv := kv[key := value];
    }

    method Erase(key: Bytes)
      modifies this`kv
      ensures kv == old(kv) - {key}
    {
      kv := kv - {key};
    }

    method Get(key: Bytes) returns (value: Option<Bytes>)
      ensures value == Lookup(kv, key)
    {
      value := if key in kv then Some(kv[key]) else None;
    }

    method AppendLog(entry: Entry)
      requires Keyed()
      modifies this`log
      ensures log == old(log)[entry.index := entry] && Keyed()
    {
      log := log[entry.index := entry];
    }

    method TruncateLogFrom(index: int)
      requires Keyed()
      modifies this`log
      ensures log == (map i | i in old(log) && i < index :: old(log)[i]) && Keyed()
    {
      log := map i | i in log && i < index :: log[i];
    }

    method LogAt(index: int) returns (entry: Option<Entry>)
      ensures entry == if index in log then Some(log[index]) else None
    {
      entry := if index in log then Some(log[index]) else None;
    }

    /** Steps through the rows with index at least `index`, smallest first. */
    method LogsFrom(index: int) returns (entries: seq<Entry>)
      requires Keyed()
      ensures AreRowsFrom(entries, log, index)
    {
      entries := [];
      var cursor, rest := index, set i | i in log && index <= i;
      while rest != {}
        invariant rest == set i | i in log && cursor <= i
        invariant RowsUpTo(entries, log, index, cursor)
        decreases rest
      {
        var some :| some in rest;
        MinExists(rest, some);
        var next :| next in rest && forall i :: i in rest ==> next <= i;
        forall i | i in log && cursor <= i ensures next <= i { assert i in rest; }
        RowsSnoc(entries, log, index, cursor, next);
        entries := entries + [log[next]];
        cursor := next + 1;
        rest := set i | i in log && cursor <= i;
      }
      forall i | i in log ensures i < cursor { assert i !in rest; }
    }

    method LastLogIndex() returns (index: int)
      ensures index == LastIndexOf(log)
      ensures if log == map[] then index == 0 else index in log && forall i :: i in log ==> i <= index
    {
      if log.Keys == {} {
        assert log == map[];
        return 0;
      }
      assert IsMax(LastIndexOf(log), log.Keys);
      index :| index in log.Keys && forall i :: i in log.Keys ==> i <= index;
    }

    method LastLogTerm() returns (term: int)
      ensures term == LastTermOf(log)
      ensures if log == map[] then term == 0 else term == log[LastIndexOf(log)].term
    {
      if log.Keys == {} {
        assert log == map[];
        return 0;
      }
      var index := LastLogIndex();
      term := log[index].term;
    }

    method SetMeta(key: MetaKey, value: MetaValue)
      modifies this`meta
      ensures meta == old(meta)[key := value]
    {
      meta := meta[key := value];
    }

    method GetMeta(key: MetaKey) returns (value: Option<MetaValue>)
      ensures value == if key in meta then Some(meta[key]) else None
    {
      value := if key in meta then Some(meta[key]) else None;
    }

    /** One transaction over all three tables. */
    method ClearAll()
      modifies this
      ensures kv == map[] && log == map[] && meta == map[] && Keyed()
    {
      kv, log, meta := map[], map[], map[];
    }
  }

  /** Exactly the rows with lo <= index < hi, in order. */
  ghost predicate RowsUpTo(rows: seq<Entry>, log: LogTable, lo: int, hi: int) {
    && lo <= hi
    && (forall k :: 0 <= k < |rows| ==>
        lo <= rows[k].index < hi && rows[k].index in log && log[rows[k].index] == rows[k])
    && (forall j, k :: 0 <= j < k < |rows| ==> rows[j].index < rows[k].index)
    && (forall i :: i in log && lo <= i < hi ==> exists k :: 0 <= k < |rows| && rows[k].index == i)
  }

  lemma RowsSnoc(rows: seq<Entry>, log: LogTable, lo: int, hi: int, next: int)
    requires RowsUpTo(rows, log, lo, hi) && next in log && hi <= next && log[next].index == next
    requires forall i :: i in log && hi <= i ==> next <= i
    ensures RowsUpTo(rows + [log[next]], log, lo, next + 1)
  {
    var longer := rows + [log[next]];
    forall i | i in log && lo <= i < next + 1 ensures exists k :: 0 <= k < |longer| && longer[k].index == i {
      if i == next {
        assert longer[|rows|].index == i;
      } else {
        var k :| 0 <= k < |rows| && rows[k].index == i;
        assert longer[k].index == i;
      }
    }
  }

  lemma MinExists(s: set<int>, x: int)
    requires x in s
    ensures exists m :: m in s && forall k :: k in s ==> m <= k
  {
    var negated := set k | k in s :: -k;
    assert -x in negated;
    MaxExists(negated, -x);
    var m :| IsMax(m, negated);
    forall k | k in s ensures -m <= k {
      assert -k in negated;
    }
    assert -m in s;
  }
}
