/** fnv1a_64 (include/kv/common.hpp:22-29), with the start value the code uses, and the shard a
    key belongs to. */
module Hashing {
  import opened Log

  const MODULUS := 0x1_0000_0000_0000_0000
  const START := 1469598103934665603
  const PRIME := 1099511628211
  /** PRIME * INVERSE == 1 + MODULUS * CARRY, so PRIME has an inverse modulo 2^64. */
  const INVERSE := 14886173955864302971
  const CARRY := 887285111055

  /** An unsigned 64-bit value. */
  type Word = h: int | 0 <= h < MODULUS

  function Low(h: Word): bv8 { (h % 256) as bv8 }

  function WithLow(h: Word, x: bv8): Word { h - h % 256 + x as int }

  /** h ^= c for a byte c: only the low byte changes. */
  function XorByte(h: Word, b: bv8): Word { WithLow(h, Low(h) ^ b) }

  /** hash *= PRIME, with the wrap-around of unsigned arithmetic. */
  function Times(h: Word): Word { (h * PRIME) % MODULUS }

  function Mix(h: Word, b: bv8): Word { Times(XorByte(h, b)) }

  function HashFrom(h: Word, value: Bytes): Word {
    if value == [] then h else Mix(HashFrom(h, value[..|value| - 1]), value[|value| - 1])
  }

  method Fnv1a64(value: Bytes) returns (hash: Word)
    ensures hash == HashFrom(START, value)
  {
    hash := START;
    var i := 0;
    while i < |value|
      invariant i <= |value| && hash == HashFrom(START, value[..i])
    {
      assert value[..i + 1][..i] == value[..i];
      hash := XorByte(hash, value[i]);
      hash := Times(hash);
      i := i + 1;
    }
    assert value[..i] == value;
  }

  lemma TimesInjective(a: Word, b: Word)
    ensures Times(a) == Times(b) ==> a == b
  {
    if Times(a) == Times(b) {
      var k := a * PRIME / MODULUS - b * PRIME / MODULUS;
      assert (a - b) * PRIME == MODULUS * k;
      var d := k * INVERSE - CARRY * (a - b);
      assert PRIME * INVERSE == 1 + MODULUS * CARRY;
      assert a - b == MODULUS * d;
    }
  }

  lemma XorCancels(x: bv8, b: bv8)
    ensures (x ^ b) ^ b == x
  {
  }

  lemma XorCommutes(x: bv8, b: bv8)
    ensures x ^ b == b ^ x
  {
  }

  lemma ByteRoundTrip(x: bv8)
    ensures 0 <= x as int < 256 && (x as int) as bv8 == x
  {
  }

  lemma ByteSuccessor(x: bv8)
    requires x != 255
    ensures (x + 1) as int == x as int + 1
  {
  }

  lemma {:induction false} ByteFor(n: nat) returns (x: bv8)
    requires n < 256
    ensures x as int == n
  {
    if n == 0 {
      x := 0;
    } else {
      var y := ByteFor(n - 1);
      assert y != 255;
      ByteSuccessor(y);
      x := y + 1;
    }
  }

  lemma IntRoundTrip(n: int)
    requires 0 <= n < 256
    ensures (n as bv8) as int == n
  {
    var x := ByteFor(n);
  }

  lemma LowReplaced(h: int, n: int)
    requires 0 <= n < 256
    ensures (h - h % 256 + n) % 256 == n && (h - h % 256 + n) / 256 == h / 256
  {
    assert h - h % 256 == 256 * (h / 256);
    assert (256 * (h / 256) + n) % 256 == n;
    assert (256 * (h / 256) + n) / 256 == h / 256;
  }

  /** The value above the low byte, and the low byte, say which word it is. */
  lemma WordFromParts(h: Word, k: Word)
    requires h / 256 == k / 256 && Low(h) == Low(k)
    ensures h == k
  {
    IntRoundTrip(h % 256);
    IntRoundTrip(k % 256);
  }

  lemma WithLowParts(h: Word, x: bv8)
    ensures WithLow(h, x) / 256 == h / 256 && Low(WithLow(h, x)) == x
  {
    ByteRoundTrip(x);
    LowReplaced(h, x as int);
  }

  lemma XorParts(h: Word, b: bv8)
    ensures XorByte(h, b) / 256 == h / 256 && Low(XorByte(h, b)) == Low(h) ^ b
  {
    WithLowParts(h, Low(h) ^ b);
  }

  lemma XorByteInjective(h: Word, k: Word, b: bv8)
    requires XorByte(h, b) == XorByte(k, b)
    ensures h == k
  {
    XorParts(h, b);
    XorParts(k, b);
    XorCancels(Low(h), b);
    XorCancels(Low(k), b);
    WordFromParts(h, k);
  }

  /** One step can be undone, so it never merges two states, ... */
  lemma MixInjective(h: Word, k: Word, b: bv8)
    ensures Mix(h, b) == Mix(k, b) ==> h == k
  {
    TimesInjective(XorByte(h, b), XorByte(k, b));
    if XorByte(h, b) == XorByte(k, b) { XorByteInjective(h, k, b); }
  }

  /** ... and two different bytes take one state to two. */
  lemma MixSeparates(h: Word, a: bv8, b: bv8)
    requires a != b
    ensures Mix(h, a) != Mix(h, b)
  {
    XorParts(h, a);
    XorParts(h, b);
    XorCommutes(Low(h), a);
    XorCommutes(Low(h), b);
    XorCancels(a, Low(h));
    XorCancels(b, Low(h));
    TimesInjective(XorByte(h, a), XorByte(h, b));
  }

  lemma {:induction false} HashFromInjective(h: Word, k: Word, value: Bytes)
    ensures HashFrom(h, value) == HashFrom(k, value) ==> h == k
  {
    if value != [] {
      var front := value[..|value| - 1];
      MixInjective(HashFrom(h, front), HashFrom(k, front), value[|value| - 1]);
      HashFromInjective(h, k, front);
    }
  }

  lemma {:induction false} HashFromConcat(h: Word, a: Bytes, b: Bytes)
    ensures HashFrom(h, a + b) == HashFrom(HashFrom(h, a), b)
  {
    if b == [] {
      assert a + b == a;
    } else {
      HashFromConcat(h, a, b[..|b| - 1]);
      assert (a + b)[..|a + b| - 1] == a + b[..|b| - 1];
    }
  }

  /** Two keys of one length that differ in exactly one byte never share a hash. */
  lemma OneByteSeparates(x: Bytes, y: Bytes, i: nat)
    requires |x| == |y| && i < |x| && x[i] != y[i]
    requires forall j :: 0 <= j < |x| && j != i ==> x[j] == y[j]
    ensures HashFrom(START, x) != HashFrom(START, y)
  {
    var prefix, suffix := x[..i], x[i + 1..];
    assert x == prefix + [x[i]] + suffix && y == prefix + [y[i]] + suffix;
    HashFromConcat(START, prefix + [x[i]], suffix);
    HashFromConcat(START, prefix + [y[i]], suffix);
    HashFromConcat(START, prefix, [x[i]]);
    HashFromConcat(START, prefix, [y[i]]);
    var h := HashFrom(START, prefix);
    assert [x[i]][..0] == [] && [y[i]][..0] == [];
    assert HashFrom(h, [x[i]]) == Mix(HashFrom(h, []), x[i]) && HashFrom(h, [y[i]]) == Mix(HashFrom(h, []), y[i]);
    MixSeparates(h, x[i], y[i]);
    HashFromInjective(Mix(h, x[i]), Mix(h, y[i]), suffix);
  }

  // ---------------------------------------------------------------- the hash in plain numbers

  lemma HashOfNothing()
    ensures HashFrom(START, []) == 1469598103934665603
  {
  }

  /** One more byte: the low byte of the hash so far is xor-ed with it, the rest stays, and the result
      is multiplied by 1099511628211 modulo 2^64. With HashOfNothing this fixes every hash. */
  lemma HashOfOneMore(value: Bytes, b: bv8) returns (x: int, q: int)
    ensures var h, next := HashFrom(START, value), HashFrom(START, value + [b]);
            && x / 256 == h / 256 && (x % 256) as bv8 == ((h % 256) as bv8) ^ b
            && x * 1099511628211 == q * 18446744073709551616 + next
            && 0 <= next < 18446744073709551616
  {
    var h := HashFrom(START, value);
    assert (value + [b])[..|value|] == value;
    x := XorByte(h, b);
    q := x * PRIME / MODULUS;
    XorParts(h, b);
  }

  lemma XorOfB(y: int)
    requires 0 <= y < 256 && y as bv8 == (131 as bv8) ^ 0x62
    ensures y == 225
  {
    IntRoundTrip(y);
    assert (131 as bv8) ^ 0x62 == 0xe1;
  }

  lemma TimesOfB(x: int, q: int, next: int)
    requires x / 256 == 5740617593494787 && x % 256 == 225
    requires x * 1099511628211 == q * 18446744073709551616 + next && 0 <= next < 18446744073709551616
    ensures next == 4953266710746339155
  {
    assert x == 1469598103934665697;
  }

  lemma StepOfB(h: int, next: int, x: int, q: int)
    requires h == 1469598103934665603 && x / 256 == h / 256 && (x % 256) as bv8 == ((h % 256) as bv8) ^ 0x62
    requires x * 1099511628211 == q * 18446744073709551616 + next && 0 <= next < 18446744073709551616
    ensures next == 4953266710746339155
  {
    assert h % 256 == 131 && h / 256 == 5740617593494787;
    XorOfB(x % 256);
    TimesOfB(x, q, next);
  }

  /** The key "b" has hash 4953266710746339155. */
  lemma HashOfB()
    ensures HashFrom(START, [0x62]) == 4953266710746339155
  {
    HashOfNothing();
    var x, q := HashOfOneMore([], 0x62);
    StepOfB(HashFrom(START, []), HashFrom(START, [] + [0x62]), x, q);
    assert [] + [0x62] == [0x62];
  }

  lemma DivMod(h: int, n: nat)
    requires n > 0
    ensures 0 <= h % n < n && exists q: int :: h == q * n + h % n
  {
    assert h == (h / n) * n + h % n;
  }

  /** shard_for_key: the remainder of the hash by the number of shards. */
  function ShardOf(key: Bytes, n: nat): (i: nat)
    requires n > 0
    ensures i < n && exists q: int :: HashFrom(START, key) == q * n + i
  {
    DivMod(HashFrom(START, key), n);
    HashFrom(START, key) % n
  }

  /** Of four shards, the key "b" belongs to the last. */
  lemma ShardOfB()
    ensures ShardOf([0x62], 4) == 3
  {
    HashOfB();
  }
}
