// Bytes, and integers as little-endian bytes.

module LittleEndian {
  type Byte = x: nat | x < 256

  type Bytes = seq<Byte>

  function Pow256(k: nat): (r: nat)
    ensures r > 0
  {
    if k == 0 then 1 else 256 * Pow256(k - 1)
  }

  // The k lowest bytes of n.
  function Le(n: nat, k: nat): (r: Bytes)
    ensures |r| == k
  {
    if k == 0 then [] else [n % 256] + Le(n / 256, k - 1)
  }

  function UnLe(b: Bytes): nat {
    if b == [] then 0 else b[0] + 256 * UnLe(b[1..])
  }

  lemma {:induction false} LeRoundTrip(n: nat, k: nat)
    requires n < Pow256(k)
    ensures UnLe(Le(n, k)) == n
  {
    if k > 0 {
      LeRoundTrip(n / 256, k - 1);
      assert Le(n, k)[1..] == Le(n / 256, k - 1);
    }
  }

  lemma {:induction false} UnLeRoundTrip(b: Bytes)
    ensures UnLe(b) < Pow256(|b|) && Le(UnLe(b), |b|) == b
  {
    if b != [] {
      UnLeRoundTrip(b[1..]);
      assert UnLe(b) / 256 == UnLe(b[1..]) && UnLe(b) % 256 == b[0];
    }
  }

  const TWO_32: nat := 0x1_0000_0000
  const TWO_64: nat := 0x1_0000_0000_0000_0000

  lemma Pow256Values()
    ensures Pow256(4) == TWO_32 && Pow256(8) == TWO_64
  {
    assert Pow256(2) == 0x1_0000 && Pow256(3) == 0x100_0000 && Pow256(4) == TWO_32;
    assert Pow256(5) == 0x100_0000_0000 && Pow256(6) == 0x1_0000_0000_0000 && Pow256(7) == 0x100_0000_0000_0000;
  }

  // int64 to uint64 and back.
  function ToUint64(x: int): (r: nat)
    ensures r < TWO_64
  {
    x % TWO_64
  }

  function ToInt64(n: nat): int
    requires n < TWO_64
  {
    if n < TWO_64 / 2 then n else n - TWO_64
  }

  predicate IsInt64(x: int) {
    -0x8000_0000_0000_0000 <= x < 0x8000_0000_0000_0000
  }

  lemma Int64RoundTrip(x: int)
    ensures ToInt64(ToUint64(x)) == x <==> IsInt64(x)
  {
  }
}
