/** The endpoint ids each side of a connection allocates (kyproto/src/lib.rs). */
module EndpointIds {
  import opened AvPacket

  const INITIATOR_SERVER: u16 := 0
  const INITIATOR_CLIENT: u16 := 1

  /** The id of the `n`-th allocation of a side. */
  function Id(initiator: u16, n: nat): u16 {
    (initiator + 2 * n) % 0x1_0000
  }

  lemma NextId(initiator: u16, n: nat)
    ensures Id(initiator, n + 1) == var id := Id(initiator, n); if id + 2 < 0x1_0000 then id + 2 else id + 2 - 0x1_0000
  {
    WrapTwo(initiator + 2 * n);
  }

  lemma WrapTwo(v: nat)
    ensures (v + 2) % 0x1_0000 == var w := v % 0x1_0000; if w + 2 < 0x1_0000 then w + 2 else w + 2 - 0x1_0000
  {
    var q, w := v / 0x1_0000, v % 0x1_0000;
    assert v + 2 == 0x1_0000 * q + (w + 2) == 0x1_0000 * (q + 1) + (w + 2 - 0x1_0000);
  }

  class Allocator {
    const initiator: u16
    var next: u16
    ghost var count: nat  // allocations so far

    ghost predicate Valid()
      reads this
    {
      next == Id(initiator, count)
    }

    constructor (initiator: u16)
      ensures Valid() && this.initiator == initiator && count == 0
    {
      this.initiator, next, count := initiator, initiator, 0;
    }

    /** A wrapping 16-bit fetch-and-add. */
    method GetEndpointId() returns (id: u16)
      requires Valid()
      modifies this
      ensures Valid() && count == old(count) + 1 && id == Id(initiator, old(count))
    {
      NextId(initiator, count);
      id := next;
      next := if next + 2 < 0x1_0000 then next + 2 else next + 2 - 0x1_0000;
      count := count + 1;
    }
  }

  /** The two sides never allocate the same id, however often their counters wrap around. */
  lemma SidesNeverCollide(n: nat, k: nat)
    ensures Id(INITIATOR_SERVER, n) != Id(INITIATOR_CLIENT, k)
  {
    KeepsParity(INITIATOR_SERVER, n);
    KeepsParity(INITIATOR_CLIENT, k);
  }

  lemma KeepsParity(initiator: u16, n: nat)
    ensures Id(initiator, n) % 2 == initiator % 2
  {
    var q := (initiator + 2 * n) / 0x1_0000;
    assert initiator + 2 * n == 0x1_0000 * q + Id(initiator, n);
  }

  /** One side repeats an id exactly every 32768 allocations. */
  lemma RepeatsAfterWrap(initiator: u16, n: nat, k: nat)
    ensures Id(initiator, n) == Id(initiator, k) <==> n % 0x8000 == k % 0x8000
  {
    ByIndex(initiator, n);
    ByIndex(initiator, k);
  }

  lemma ByIndex(initiator: u16, n: nat)
    ensures Id(initiator, n) == Id(initiator, n % 0x8000)
    ensures var d := 2 * (n % 0x8000);
            Id(initiator, n) == if initiator + d < 0x1_0000 then initiator + d else initiator + d - 0x1_0000
  {
    var q, k := n / 0x8000, n % 0x8000;
    assert initiator + 2 * n == 0x1_0000 * q + (initiator + 2 * k);
  }
}
