/** Fixed-width big-endian integers. */
module BigEndian {

  type byte = b: int | 0 <= b < 256

  function Pow256(k: nat): int { if k == 0 then 1 else 256 * Pow256(k - 1) }

  /** Big-endian, `k` bytes. */
  function Put(n: int, k: nat): (b: seq<byte>)
    ensures |b| == k
    decreases k
  {
    if k == 0 then [] else Put(n / 256, k - 1) + [(n % 256) as byte]
  }

  function Get(b: seq<byte>): int {
    if b == [] then 0 else 256 * Get(b[..|b| - 1]) + b[|b| - 1]
  }

  lemma {:induction false} GetPut(n: int, k: nat)
    requires 0 <= n < Pow256(k)
    ensures Get(Put(n, k)) == n
  {
    if k != 0 {
      GetPut(n / 256, k - 1);
      assert Put(n, k)[..k - 1] == Put(n / 256, k - 1);
    }
  }

  lemma {:induction false} PutGet(b: seq<byte>)
    ensures 0 <= Get(b) < Pow256(|b|) && Put(Get(b), |b|) == b
    decreases |b|
  {
    if b != [] {
      var k := |b| - 1;
      PutGet(b[..k]);
      var hi, lo: int := Get(b[..k]), b[k];
      assert (256 * hi + lo) / 256 == hi && (256 * hi + lo) % 256 == lo;
      assert b == b[..k] + [b[k]];
    }
  }

  lemma Widths()
    ensures Pow256(2) == 0x1_0000 && Pow256(4) == 0x1_0000_0000 && Pow256(8) == 0x1_0000_0000_0000_0000
  {
    assert Pow256(1) == 256;
    assert Pow256(3) == 0x100_0000;
    assert Pow256(5) == 0x100_0000_0000;
    assert Pow256(6) == 0x1_0000_0000_0000;
    assert Pow256(7) == 0x100_0000_0000_0000;
  }
}
