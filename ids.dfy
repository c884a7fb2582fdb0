/**
 * Resource identifiers: the tool hands out 1, 2, 3, ... from a 16-bit
 * counter that starts at 1 and is incremented after every id it gives out.
 */
module Ids {
  import opened Binary

  /**
   * The id handed out by the k-th draw (counting from 0). The counter is 16
   * bits wide, so draw 65535 yields 0 and the sequence then repeats.
   */
  function IdAt(k: nat): (id: uint16)
    ensures k < 0xFFFF ==> id as int == k + 1
  {
    ((k + 1) % 0x1_0000) as uint16
  }

  /** Below the wrap-around, later draws give strictly larger ids. */
  lemma IdsIncrease(j: nat, k: nat)
    requires j < k < 0xFFFF
    ensures IdAt(j) < IdAt(k)
  {
  }

  /** The 65536th draw wraps to 0 and the next one repeats the first id. */
  lemma IdsWrapAround()
    ensures IdAt(0xFFFE) == 0xFFFF
    ensures IdAt(0xFFFF) == 0
    ensures IdAt(0x1_0000) == IdAt(0)
  {
  }

  class IdAllocator {
    /** How many ids have been handed out. */
    var drawn: nat
    /** The ids handed out so far, in order. */
    ghost var Issued: seq<uint16>

    ghost predicate Valid()
      reads this
    {
      |Issued| == drawn && forall k :: 0 <= k < drawn ==> Issued[k] == IdAt(k)
    }

    constructor ()
      ensures Valid() && drawn == 0 && Issued == []
    {
      drawn := 0;
      Issued := [];
    }

    /** Hands out the next id: 1 first, then one more each time, until the counter wraps. */
    method Next() returns (id: uint16)
      requires Valid()
      modifies this
      ensures Valid() && drawn == old(drawn) + 1 && Issued == old(Issued) + [id]
      ensures id == IdAt(old(drawn))
      ensures old(drawn) < 0xFFFF ==>
        id as int == old(drawn) + 1 && forall k :: 0 <= k < |old(Issued)| ==> old(Issued)[k] < id
    {
      id := ((drawn + 1) % 0x1_0000) as uint16;
      drawn := drawn + 1;
      Issued := Issued + [id];
    }
  }
}
