/** Fixed-width big-endian integers. */
module BigEndian {
  import opened RaftTypes

  function Pow256(w: nat): (p: nat)
    ensures p > 0
  {
    if w == 0 then 1 else 256 * Pow256(w - 1)
  }

  /** The low `w` bytes of `x`, most significant first. */
  function Put(x: nat, w: nat): (b: Bytes)
    ensures |b| == w
  {
    if w == 0 then [] else Put(x / 256, w - 1) + [x % 256]
  }

  function Get(b: Bytes): nat {
    if b == [] then 0 else 256 * Get(b[..|b| - 1]) + b[|b| - 1]
  }

  /** Writing then reading gives the number back, reduced to its width. */
  lemma {:induction false} GetPut(x: nat, w: nat)
    ensures Get(Put(x, w)) == x % Pow256(w)
  {
    if w > 0 {
      GetPut(x / 256, w - 1);
      var p := Put(x / 256, w - 1);
      assert Put(x, w)[..w - 1] == p;
      ModSplit(x, Pow256(w - 1));
    }
  }

  lemma ModSplit(x: nat, m: nat)
    requires m > 0
    ensures 256 * ((x / 256) % m) + x % 256 == x % (256 * m)
  {
    var q, r := x / 256, x % 256;
    var k, s := q / m, q % m;
    assert x == 256 * (k * m + s) + r == (256 * m) * k + (256 * s + r);
    assert 0 <= 256 * s + r < 256 * m;
    ModUnique(x, 256 * m, k, 256 * s + r);
  }

  lemma ModUnique(x: nat, m: nat, k: nat, r: nat)
    requires m > 0 && r < m && x == m * k + r
    ensures x % m == r
  {
    var d := x / m - k;
    assert x == m * (x / m) + x % m;
    assert m * d == r - x % m;
    if d != 0 { MultiplesApart(m, d); }
  }

  lemma MultiplesApart(m: int, d: int)
    requires m > 0 && d != 0
    ensures m * d >= m || m * d <= -m
  {
  }

  /** A number that fits comes back whole. */
  lemma GetPutFits(x: nat, w: nat)
    requires x < Pow256(w)
    ensures Get(Put(x, w)) == x
  {
    GetPut(x, w);
    ModUnique(x, Pow256(w), 0, x);
  }

  /** Reading then writing gives the bytes back. */
  lemma {:induction false} PutGet(b: Bytes)
    ensures Get(b) < Pow256(|b|) && Put(Get(b), |b|) == b
  {
    if b != [] {
      var a, z := b[..|b| - 1], b[|b| - 1];
      PutGet(a);
      assert Get(b) / 256 == Get(a) && Get(b) % 256 == z;
      assert b == a + [z];
    }
  }

  lemma Widths()
    ensures Pow256(1) == 0x100 && Pow256(4) == 0x1_0000_0000 && Pow256(8) == 0x1_0000_0000_0000_0000
  {
    assert Pow256(2) == 0x1_0000;
    assert Pow256(3) == 0x100_0000;
    assert Pow256(5) == 0x100_0000_0000;
    assert Pow256(6) == 0x1_0000_0000_0000;
    assert Pow256(7) == 0x100_0000_0000_0000;
  }
}
