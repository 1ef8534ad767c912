/** The guest address space as the cache controller sees it: a byte-addressed
    store that a block of bytes can be copied into. It stands in for the
    memory interface's `as_memcpy_to_guest`, whose implementation (page
    lookup and device dispatch) is not part of this model. */
module GuestMemory {

  /** `mem` after `src` is copied to the consecutive addresses starting at
      `dst`, one byte at a time from the lowest address up. */
  function CopyTo(mem: map<nat, bv8>, dst: nat, src: seq<bv8>): (r: map<nat, bv8>)
    ensures forall a :: a in r <==> a in mem || dst <= a < dst + |src|
    ensures forall i :: 0 <= i < |src| ==> r[dst + i] == src[i]
    ensures forall a :: a in mem && !(dst <= a < dst + |src|) ==> r[a] == mem[a]
    decreases |src|
  {
    if src == [] then mem
    else
      var r := CopyTo(mem[dst := src[0]], dst + 1, src[1..]);
      assert forall i :: 1 <= i < |src| ==> src[i] == src[1..][i - 1];
      r
  }

  class AddressSpace {
    /** The bytes written so far, by guest physical address. */
    var bytes: map<nat, bv8>

    constructor ()
      ensures bytes == map[]
    {
      bytes := map[];
    }

    /** as_memcpy_to_guest: copy `src` to guest memory at `dst`. */
    method MemcpyToGuest(dst: nat, src: seq<bv8>)
      modifies this
      ensures bytes == CopyTo(old(bytes), dst, src)
    {
      bytes := CopyTo(bytes, dst, src);
    }
  }
}
