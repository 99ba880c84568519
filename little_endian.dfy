/** Little-endian byte order and two's-complement reading, the meaning of
    Rust's `i16::from_le_bytes`, `i32::from_le_bytes` and of the raw bit
    pattern behind `f32::from_le_bytes`. */
module LittleEndian {
  import opened MachineInts

  /** 256 to the power n: the number of values n bytes can hold. */
  function Pow256(n: nat): (r: int)
    ensures r > 0
  {
    if n == 0 then 1 else 256 * Pow256(n - 1)
  }

  lemma SmallPowers()
    ensures Pow256(1) == 0x100 && Pow256(2) == 0x1_0000
    ensures Pow256(3) == 0x100_0000 && Pow256(4) == 0x1_0000_0000
  {
    assert Pow256(1) == 256 * Pow256(0);
    assert Pow256(2) == 256 * Pow256(1);
    assert Pow256(3) == 256 * Pow256(2);
    assert Pow256(4) == 256 * Pow256(3);
  }

  /** The unsigned value of `bs`, least significant byte first. */
  function FromLe(bs: seq<byte>): (r: nat)
    ensures r < Pow256(|bs|)
  {
    if |bs| == 0 then 0 else bs[0] + 256 * FromLe(bs[1..])
  }

  /** The n low-order bytes of v, least significant byte first. */
  function ToLe(v: nat, n: nat): (r: seq<byte>)
    ensures |r| == n
  {
    if n == 0 then [] else [v % 256] + ToLe(v / 256, n - 1)
  }

  /** Writing a value that fits in n bytes and reading it back gives the value. */
  lemma {:induction false} FromLeToLe(v: nat, n: nat)
    requires v < Pow256(n)
    ensures FromLe(ToLe(v, n)) == v
  {
    if n > 0 {
      FromLeToLe(v / 256, n - 1);
      assert ToLe(v, n)[1..] == ToLe(v / 256, n - 1);
    }
  }

  /** Reading bytes and writing the value back gives the same bytes. */
  lemma {:induction false} ToLeFromLe(bs: seq<byte>)
    ensures ToLe(FromLe(bs), |bs|) == bs
  {
    if |bs| > 0 {
      var v := FromLe(bs);
      assert v % 256 == bs[0] && v / 256 == FromLe(bs[1..]);
      ToLeFromLe(bs[1..]);
      assert bs == [bs[0]] + bs[1..];
    }
  }

  /** Two's-complement reading of an n-byte unsigned value. */
  function Signed(u: nat, n: nat): (r: int)
    requires 0 < n && u < Pow256(n)
    ensures -Pow256(n) / 2 <= r < Pow256(n) / 2
    ensures r == u || r == u - Pow256(n)
  {
    if u < Pow256(n) / 2 then u else u - Pow256(n)
  }

  /** The n-byte two's-complement pattern of v. */
  function Unsigned(v: int, n: nat): (u: nat)
    requires 0 < n && -Pow256(n) / 2 <= v < Pow256(n) / 2
    ensures u < Pow256(n)
  {
    if v < 0 then v + Pow256(n) else v
  }

  lemma {:induction false} SignedUnsigned(v: int, n: nat)
    requires 0 < n && -Pow256(n) / 2 <= v < Pow256(n) / 2
    ensures Signed(Unsigned(v, n), n) == v
  {
    var p := Pow256(n);
    assert p == 256 * Pow256(n - 1);
  }

  lemma {:induction false} UnsignedSigned(u: nat, n: nat)
    requires 0 < n && u < Pow256(n)
    ensures Unsigned(Signed(u, n), n) == u
  {
    var p := Pow256(n);
    assert p == 256 * Pow256(n - 1);
  }
  /** The value of two, three and four bytes, written out. */
  lemma LeExpansion(b: seq<byte>)
    ensures |b| >= 2 ==> FromLe([b[0], b[1]]) == b[0] as int + 0x100 * (b[1] as int)
    ensures |b| >= 3 ==>
      FromLe([b[0], b[1], b[2], 0]) == b[0] as int + 0x100 * (b[1] as int) + 0x1_0000 * (b[2] as int)
    ensures |b| >= 4 ==>
      FromLe([b[0], b[1], b[2], b[3]]) == b[0] as int + 0x100 * (b[1] as int) + 0x1_0000 * (b[2] as int) + 0x100_0000 * (b[3] as int)
  {
    if |b| >= 2 {
      assert FromLe([b[1]]) == b[1];
      assert [b[0], b[1]][1..] == [b[1]];
    }
    if |b| >= 3 {
      assert FromLe([0]) == 0;
      assert FromLe([b[2], 0]) == b[2];
      assert FromLe([b[1], b[2], 0]) == b[1] as int + 0x100 * (b[2] as int);
    }
    if |b| >= 4 {
      assert FromLe([b[3]]) == b[3];
      assert FromLe([b[2], b[3]]) == b[2] as int + 0x100 * (b[3] as int);
      assert FromLe([b[1], b[2], b[3]]) == b[1] as int + 0x100 * (b[2] as int) + 0x1_0000 * (b[3] as int);
    }
  }
}
