/** Replica ids, "s<shard>-r<i>" (src/cluster.cpp:18): distinct for distinct i. */
module Names {
  import opened Safety

  /** std::to_string of an unsigned number. */
  function Decimal(n: nat): (s: string)
    ensures s != []
  {
    if n < 10 then [Digit(n)] else Decimal(n / 10) + [Digit(n % 10)]
  }

  function Digit(d: nat): char
    requires d < 10
  {
    "0123456789"[d]
  }

  lemma DigitInjective(a: nat, b: nat)
    requires a < 10 && b < 10 && Digit(a) == Digit(b)
    ensures a == b
  {
    assert forall i, j :: 0 <= i < j < 10 ==> "0123456789"[i] != "0123456789"[j];
  }

  lemma {:induction false} DecimalInjective(a: nat, b: nat)
    requires Decimal(a) == Decimal(b)
    ensures a == b
  {
    if a < 10 && b < 10 {
      DigitInjective(a, b);
    } else if a >= 10 && b >= 10 {
      var s, t := Decimal(a), Decimal(b);
      assert s[..|s| - 1] == Decimal(a / 10) && t[..|t| - 1] == Decimal(b / 10);
      assert s[|s| - 1] == Digit(a % 10) && t[|t| - 1] == Digit(b % 10);
      DigitInjective(a % 10, b % 10);
      DecimalInjective(a / 10, b / 10);
    }
  }

  function ReplicaId(shard: nat, i: nat): string { "s" + Decimal(shard) + "-r" + Decimal(i) }

  function ReplicaIds(shard: nat, n: nat): (ids: seq<string>)
    ensures |ids| == n
  {
    seq(n, i requires 0 <= i < n => ReplicaId(shard, i))
  }

  lemma ReplicaIdsDistinct(shard: nat, n: nat)
    ensures Distinct(ReplicaIds(shard, n))
  {
    var prefix := "s" + Decimal(shard) + "-r";
    forall i, j | 0 <= i < j < n ensures ReplicaId(shard, i) != ReplicaId(shard, j) {
      if ReplicaId(shard, i) == ReplicaId(shard, j) {
        assert Decimal(i) == ReplicaId(shard, i)[|prefix|..] == ReplicaId(shard, j)[|prefix|..] == Decimal(j);
        DecimalInjective(i, j);
      }
    }
  }

  /** The number a row of digits stands for. */
  function ValueOf(s: string): int {
    if s == "" then 0 else 10 * ValueOf(s[..|s| - 1]) + (s[|s| - 1] as int - '0' as int)
  }

  lemma DigitStands(d: nat)
    requires d < 10
    ensures '0' <= Digit(d) <= '9' && Digit(d) as int - '0' as int == d
  {
  }

  /** Digits only, no leading zero, and they stand for the number. */
  lemma {:induction false} DecimalStands(n: nat)
    ensures ValueOf(Decimal(n)) == n && (n > 0 ==> Decimal(n)[0] != '0') && (n == 0 ==> Decimal(n) == "0")
    ensures forall k :: 0 <= k < |Decimal(n)| ==> '0' <= Decimal(n)[k] <= '9'
  {
    if n < 10 {
      DigitStands(n);
      assert ValueOf("") == 0;
    } else {
      DecimalStands(n / 10);
      DigitStands(n % 10);
      assert Decimal(n)[..|Decimal(n)| - 1] == Decimal(n / 10);
    }
  }

  /** The letters around the numbers. */
  lemma ReplicaIdReads(shard: nat, i: nat)
    ensures ReplicaId(shard, i) == "s" + Decimal(shard) + "-r" + Decimal(i)
    ensures ReplicaId(1, 12) == "s1-r12"
  {
    assert Decimal(1) == "1" && Decimal(12) == Decimal(1) + "2";
  }
}
