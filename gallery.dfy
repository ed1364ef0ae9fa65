/** The image carousel of the icon variants: a click on the icon moves the
    current image index one step forward, wrapping around modulo the number of
    images. */
module Gallery {

  /** `(currentImageIndex + 1) % images.length`. Dafny's `%` agrees with the
      browser's here because both operands are non-negative. */
  function Next(index: nat, count: nat): (r: nat)
    requires count > 0
    ensures r < count
  {
    (index + 1) % count
  }

  /** From an index in range, one step is the successor, except that the last
      index wraps to the first. */
  lemma NextWraps(index: nat, count: nat)
    requires index < count
    ensures Next(index, count) == if index + 1 == count then 0 else index + 1
  {
  }

  /** The index reached after `k` clicks on the icon. */
  function Advance(index: nat, count: nat, k: nat): (r: nat)
    requires count > 0
    ensures index < count || k > 0 ==> r < count
    ensures k == 0 ==> r == index
    decreases k
  {
    if k == 0 then index else Next(Advance(index, count, k - 1), count)
  }

  /** Up to `count` clicks from an index in range move that many places
      forward, wrapping past the last index back to the first. */
  lemma {:induction false} AdvanceWraps(index: nat, count: nat, k: nat)
    requires index < count && k <= count
    ensures Advance(index, count, k)
         == if index + k < count then index + k else index + k - count
    decreases k
  {
    if k > 0 {
      AdvanceWraps(index, count, k - 1);
      NextWraps(Advance(index, count, k - 1), count);
    }
  }

  /** `count` clicks bring any index back to itself; from the first image
      they visit every index exactly once, in order. */
  lemma FullCycle(index: nat, count: nat)
    requires index < count
    ensures Advance(index, count, count) == index
    ensures forall k :: 0 <= k < count ==> Advance(0, count, k) == k
  {
    AdvanceWraps(index, count, count);
    forall k | 0 <= k < count
      ensures Advance(0, count, k) == k
    {
      AdvanceWraps(0, count, k);
    }
  }
}
