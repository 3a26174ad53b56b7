/** Bytes, 64-bit unsigned integers, little-endian encodings and byte sums. */
module Bytes {

  type Byte = b: nat | b < 256

  const TwoTo64: nat := 0x1_0000_0000_0000_0000

  /** Rust's `u64`. */
  type U64 = x: nat | x < TwoTo64

  function Pow256(n: nat): (r: nat)
    ensures r > 0
  {
    if n == 0 then 1 else 256 * Pow256(n - 1)
  }

  lemma Pow256Of8()
    ensures Pow256(8) == TwoTo64
  {
  }

  lemma {:induction false} Pow256Add(a: nat, b: nat)
    ensures Pow256(a + b) == Pow256(a) * Pow256(b)
  {
    if a > 0 {
      Pow256Add(a - 1, b);
    }
  }

  /** 256^32 is 2^256: a 32-byte representation holds any 256-bit value. */
  lemma Pow256Of32()
    ensures Pow256(32) == TwoTo64 * TwoTo64 * TwoTo64 * TwoTo64
  {
    Pow256Of8();
    Pow256Add(8, 8);
    Pow256Add(16, 16);
  }

  /** The `n`-byte little-endian encoding of `x`, high bytes dropped. */
  function LeBytes(x: nat, n: nat): (r: seq<Byte>)
    ensures |r| == n
  {
    if n == 0 then [] else [x % 256] + LeBytes(x / 256, n - 1)
  }

  /** The number a little-endian byte string denotes (`u64::from_le_bytes`
      for eight bytes). */
  function LeValue(bs: seq<Byte>): nat
  {
    if bs == [] then 0 else bs[0] + 256 * LeValue(bs[1..])
  }

  lemma {:induction false} LeValueBound(bs: seq<Byte>)
    ensures LeValue(bs) < Pow256(|bs|)
  {
    if bs != [] {
      LeValueBound(bs[1..]);
      assert LeValue(bs[1..]) + 1 <= Pow256(|bs| - 1);
      assert 256 * (LeValue(bs[1..]) + 1) <= 256 * Pow256(|bs| - 1);
    }
  }

  lemma {:induction false} MulAtLeast(d: nat, k: nat)
    requires k >= 1
    ensures d * k >= d
  {
    if k > 1 {
      MulAtLeast(d, k - 1);
      assert d * k == d * (k - 1) + d;
    }
  }

  /** Division with remainder has exactly one answer. */
  lemma DivModUnique(x: nat, d: nat, q: nat, m: nat)
    requires d > 0 && m < d && x == d * q + m
    ensures x / d == q && x % d == m
  {
    var q', m' := x / d, x % d;
    assert x == d * q' + m';
    if q' < q {
      var k := q - q';
      assert d * q == d * q' + d * k;
      MulAtLeast(d, k);
      assert false;
    } else if q' > q {
      var k := q' - q;
      assert d * q' == d * q + d * k;
      MulAtLeast(d, k);
      assert false;
    }
  }

  lemma ModAdd(x: nat, y: nat, m: nat)
    requires m > 0
    ensures (x + y) % m == (x % m + y % m) % m
  {
    var qx, rx := x / m, x % m;
    var qy, ry := y / m, y % m;
    assert x + y == m * (qx + qy) + (rx + ry) by {
      assert m * (qx + qy) == m * qx + m * qy;
    }
    if rx + ry < m {
      DivModUnique(x + y, m, qx + qy, rx + ry);
      DivModUnique(rx + ry, m, 0, rx + ry);
    } else {
      assert x + y == m * (qx + qy + 1) + (rx + ry - m) by {
        assert m * (qx + qy + 1) == m * (qx + qy) + m;
      }
      DivModUnique(x + y, m, qx + qy + 1, rx + ry - m);
      DivModUnique(rx + ry, m, 1, rx + ry - m);
    }
  }

  /** Splitting off the lowest byte of a remainder modulo 256 * p. */
  lemma ModSplit(x: nat, p: nat)
    requires p > 0
    ensures x % (256 * p) == x % 256 + 256 * ((x / 256) % p)
  {
    var q := x / 256;
    var m := x % 256;
    var q2, m2 := q / p, q % p;
    assert x == 256 * q + m;
    assert q == p * q2 + m2;
    assert x == (256 * p) * q2 + (256 * m2 + m) by {
      assert 256 * q == 256 * (p * q2) + 256 * m2;
      assert 256 * (p * q2) == (256 * p) * q2;
    }
    assert 256 * m2 + m < 256 * p by {
      assert m2 + 1 <= p;
      assert 256 * (m2 + 1) <= 256 * p;
    }
    DivModUnique(x, 256 * p, q2, 256 * m2 + m);
  }

  /** Decoding the `n`-byte encoding gives the value modulo 256^n. */
  lemma {:induction false} LeValueOfLeBytes(x: nat, n: nat)
    ensures LeValue(LeBytes(x, n)) == x % Pow256(n)
  {
    if n > 0 {
      var bs := LeBytes(x, n);
      assert bs[1..] == LeBytes(x / 256, n - 1);
      LeValueOfLeBytes(x / 256, n - 1);
      ModSplit(x, Pow256(n - 1));
    }
  }

  /** The first `m` bytes of a longer encoding are the `m`-byte encoding. */
  lemma {:induction false} LeBytesPrefix(x: nat, n: nat, m: nat)
    requires m <= n
    ensures LeBytes(x, n)[..m] == LeBytes(x, m)
  {
    if m > 0 {
      LeBytesPrefix(x / 256, n - 1, m - 1);
      assert LeBytes(x, n)[..m] == [x % 256] + LeBytes(x / 256, n - 1)[..m - 1];
    }
  }

  /** Sum of the weights of the elements of a sequence
      (`iter.map(weight).sum()` without overflow). */
  function Total<T>(s: seq<T>, weight: T -> nat): nat
  {
    if s == [] then 0 else weight(s[0]) + Total(s[1..], weight)
  }

  lemma {:induction false} TotalAppend<T>(a: seq<T>, b: seq<T>, weight: T -> nat)
    ensures Total(a + b, weight) == Total(a, weight) + Total(b, weight)
  {
    if a == [] {
      assert a + b == b;
    } else {
      assert (a + b)[0] == a[0];
      assert (a + b)[1..] == a[1..] + b;
      TotalAppend(a[1..], b, weight);
    }
  }

  /** Reordering the elements does not change the total. */
  lemma {:induction false} TotalPermutation<T>(a: seq<T>, b: seq<T>, weight: T -> nat)
    requires multiset(a) == multiset(b)
    ensures Total(a, weight) == Total(b, weight)
  {
    if a == [] {
      assert |b| == |multiset(b)| == 0;
    } else {
      var x := a[0];
      assert x in multiset(b);
      var j :| 0 <= j < |b| && b[j] == x;
      var rest := b[..j] + b[j + 1..];
      assert b == b[..j] + [x] + b[j + 1..];
      assert a == [x] + a[1..];
      assert multiset(a[1..]) == multiset(rest) by {
        calc {
          multiset(b);
          multiset(b[..j] + [x] + b[j + 1..]);
          multiset(b[..j]) + multiset([x]) + multiset(b[j + 1..]);
          multiset(rest) + multiset([x]);
        }
        assert multiset(a) == multiset([x]) + multiset(a[1..]);
        assert multiset(a[1..]) == multiset(b) - multiset([x]);
        assert multiset(rest) == multiset(b) - multiset([x]);
      }
      TotalPermutation(a[1..], rest, weight);
      TotalAppend(b[..j] + [x], b[j + 1..], weight);
      TotalAppend(b[..j], [x], weight);
      TotalAppend(b[..j], b[j + 1..], weight);
      assert Total([x], weight) == weight(x);
    }
  }

  function ByteValue(b: Byte): nat
  {
    b
  }

  /** The sum of the byte values. */
  function ByteSum(bs: seq<Byte>): nat
  {
    Total(bs, ByteValue)
  }

  lemma {:induction false} ByteSumBound(bs: seq<Byte>)
    ensures ByteSum(bs) <= 255 * |bs|
  {
    if bs != [] {
      ByteSumBound(bs[1..]);
    }
  }
}
