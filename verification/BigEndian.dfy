/** Fixed-width big-endian integers, the only number format on the wire. */
module BigEndian {
  import opened Wrappers

  function Pow256(n: nat): (p: nat)
    ensures 1 <= p
  {
    if n == 0 then 1 else 256 * Pow256(n - 1)
  }

  function Read(b: Bytes): (v: nat)
    ensures v < Pow256(|b|)
  {
    if b == [] then 0
    else
      var last := |b| - 1;
      256 * Read(b[..last]) + b[last]
  }

  function Write(v: nat, width: nat): (b: Bytes)
    ensures |b| == width
  {
    if width == 0 then [] else Write(v / 256, width - 1) + [v % 256]
  }

  lemma {:induction false} ReadWrite(v: nat, width: nat)
    requires v < Pow256(width)
    ensures Read(Write(v, width)) == v
  {
    if width > 0 {
      var b := Write(v, width);
      assert b[..width - 1] == Write(v / 256, width - 1) && b[width - 1] == v % 256;
      assert v / 256 < Pow256(width - 1);
      ReadWrite(v / 256, width - 1);
      assert v == 256 * (v / 256) + v % 256;
    }
  }

  lemma {:induction false} WriteRead(b: Bytes)
    ensures Write(Read(b), |b|) == b
  {
    if b != [] {
      var last := |b| - 1;
      WriteRead(b[..last]);
      assert (256 * Read(b[..last]) + b[last]) / 256 == Read(b[..last]);
      assert b == b[..last] + [b[last]];
    }
  }

  lemma Widths()
    ensures Pow256(1) == 0x100
    ensures Pow256(2) == 0x1_0000
    ensures Pow256(3) == 0x100_0000
    ensures Pow256(4) == 0x1_0000_0000
    ensures Pow256(5) == 0x100_0000_0000
    ensures Pow256(8) == 0x1_0000_0000_0000_0000
  {
    assert Pow256(1) == 256 * Pow256(0);
    assert Pow256(2) == 256 * Pow256(1);
    assert Pow256(3) == 256 * Pow256(2);
    assert Pow256(4) == 256 * Pow256(3);
    assert Pow256(5) == 256 * Pow256(4);
    assert Pow256(6) == 256 * Pow256(5);
    assert Pow256(7) == 256 * Pow256(6);
  }

  /** The leading byte of a number is its quotient by the rest of the width. */
  lemma LeadingByte(v: nat, width: nat)
    requires 0 < width && v < Pow256(width)
    ensures Write(v, width)[0] == v / Pow256(width - 1)
  {
    var b, p := Write(v, width)[0], Pow256(width - 1);
    LeadingPart(v, width);
    Quotient(v, p, b, v - p * b);
  }

  lemma {:induction false} LeadingPart(v: nat, width: nat)
    requires 0 < width && v < Pow256(width)
    ensures var b, p := Write(v, width)[0], Pow256(width - 1);
            p * b <= v < p * b + p
  {
    if width > 1 {
      var b, p := Write(v, width)[0], Pow256(width - 2);
      assert b == Write(v / 256, width - 1)[0];
      LeadingPart(v / 256, width - 1);
      Scaled(b, p);
    }
  }

  lemma Scaled(b: nat, p: nat)
    ensures (256 * p) * b == 256 * (p * b)
  {
  }

  lemma Quotient(v: nat, p: nat, q: nat, r: nat)
    requires r < p && v == p * q + r
    ensures v / p == q && v % p == r
  {
    var d := v / p;
    assert v == p * d + v % p;
    assert d < q ==> p * (d + 1) <= p * q;
    assert q < d ==> p * (q + 1) <= p * d;
  }
}
