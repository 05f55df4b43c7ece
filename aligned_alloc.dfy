/**
  The aligned byte-buffer allocator that shadow storage comes from.

  The allocator itself belongs to the serialiser and is not part of this
  model; this module stands in for it with the one thing the tracking record
  relies on: every allocation returns a fresh, non-NULL address, and freeing
  an address releases exactly that block. The set of live blocks makes leaks
  and double frees visible in contracts.
*/
module AlignedAlloc {

  /** A byte pointer, by address; 0 is NULL. */
  type Address = nat

  const NullAddress: Address := 0

  /** What was asked for when a block was allocated. */
  datatype Block = Block(size: nat, alignment: nat)

  class AlignedHeap {
    /** The blocks allocated and not yet freed, by address. */
    var live: map<Address, Block>
    /** Every live address is below this one. */
    var next: Address

    ghost predicate Valid()
      reads this
    {
      next > NullAddress && forall p :: p in live ==> NullAddress < p < next
    }

    constructor ()
      ensures Valid() && live == map[]
    {
      live := map[];
      next := 1;
    }

    /** `AllocAlignedBuffer`: a fresh non-NULL block of `size` bytes. */
    method AllocAlignedBuffer(size: nat, alignment: nat) returns (p: Address)
      requires Valid()
      modifies this
      ensures Valid()
      ensures p != NullAddress && p !in old(live)
      ensures live == old(live)[p := Block(size, alignment)]
    {
      p := next;
      live := live[p := Block(size, alignment)];
      next := next + 1;
    }

    /** `FreeAlignedBuffer`: releases a live block, and only that one. */
    method FreeAlignedBuffer(p: Address)
      requires Valid() && p in live
      modifies this
      ensures Valid()
      ensures live == old(live) - {p}
    {
      live := live - {p};
    }
  }
}
