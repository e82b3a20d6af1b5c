/**
 * Round-robin choice of the frame slot that the next `Begin` records into.
 *
 * `Initialize` sets the current index to -1; every `Begin` (and
 * `BeginExternal`) increments it and reduces it modulo the number of swap
 * buffers N. The index is at least -1 and below N, so the increment is never
 * negative and the C++ conversion to `size_t` for the modulo changes nothing.
 */
module FrameSlots {

  /** The slot selected by a `Begin` that finds the index at `index`. */
  function NextSlot(index: int, count: int): (r: int)
    requires 0 < count && -1 <= index < count
    ensures 0 <= r < count
    ensures r == if index == count - 1 then 0 else index + 1
  {
    (index + 1) % count
  }

  /** The current index after `begins` calls of `Begin` that followed `Initialize`. */
  function SlotAfter(begins: nat, count: int): (r: int)
    requires 0 < count
    ensures -1 <= r < count
    ensures begins > 0 ==> 0 <= r
  {
    if begins == 0 then -1 else NextSlot(SlotAfter(begins - 1, count), count)
  }

  /** The first N calls of `Begin` after `Initialize` pick slots 0, 1, ..., N - 1 in turn. */
  lemma {:induction false} FirstRoundInOrder(k: nat, count: int)
    requires 1 <= k <= count
    ensures SlotAfter(k, count) == k - 1
  {
    if k > 1 {
      FirstRoundInOrder(k - 1, count);
    }
  }

  /**
   * Going d more calls of `Begin` (d < N) from slot s lands on s + d,
   * wrapped once around N.
   */
  lemma {:induction false} SlotAdvance(k: nat, d: nat, count: int)
    requires 0 < count && 1 <= k && d < count
    ensures var s := SlotAfter(k, count);
            SlotAfter(k + d, count) == if s + d < count then s + d else s + d - count
  {
    if d > 0 {
      SlotAdvance(k, d - 1, count);
    }
  }

  /** A slot is recycled every N calls of `Begin`. */
  lemma {:induction false} SlotRecycledEveryN(k: nat, count: int)
    requires 0 < count && 1 <= k
    ensures SlotAfter(k + count, count) == SlotAfter(k, count)
  {
    if k == 1 {
      FirstRoundInOrder(count, count);
      assert SlotAfter(1, count) == 0;
    } else {
      SlotRecycledEveryN(k - 1, count);
      assert SlotAfter(k + count, count) == NextSlot(SlotAfter(k - 1 + count, count), count);
    }
  }

  /** Any N consecutive calls of `Begin` record into N different slots. */
  lemma SlotsDistinctWithinN(j: nat, k: nat, count: int)
    requires 0 < count && 1 <= j < k < j + count
    ensures SlotAfter(j, count) != SlotAfter(k, count)
  {
    SlotAdvance(j, k - j, count);
    assert j + (k - j) == k;
  }
}
