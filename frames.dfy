/**
 * Frame slots: the engine keeps FRAME_OVERLAP copies of its per-frame
 * resources and picks one round-robin by frame number.
 */
module Frames {

  /** Number of frames in flight; an `unsigned int` in the engine. */
  const FRAME_OVERLAP: nat := 2

  /** 2^32: the signed frame number is converted to `unsigned int` before `%`. */
  const UINT32_RANGE: nat := 0x1_0000_0000

  /** The value of a signed `int` converted to a 32-bit `unsigned int` (reduction modulo 2^32). */
  function AsUnsigned32(n: int): (u: nat)
    ensures u < UINT32_RANGE
  {
    n % UINT32_RANGE
  }

  /**
   * The slot `get_current_frame` picks for a frame number. The expression
   * `_frameNumber % FRAME_OVERLAP` mixes an `int` with an `unsigned int`, so
   * the frame number is first converted to unsigned.
   */
  function CurrentSlot(frameNumber: int): (slot: nat)
    ensures slot < FRAME_OVERLAP
  {
    AsUnsigned32(frameNumber) % FRAME_OVERLAP
  }

  /** Because 2^32 is even, the unsigned conversion never changes the slot: it is the parity of the frame number. */
  lemma SlotIsParity(frameNumber: int)
    ensures CurrentSlot(frameNumber) == frameNumber % 2
  {
    var q := frameNumber / 0x1_0000_0000;
    var u := frameNumber % 0x1_0000_0000;
    assert frameNumber == 0x1_0000_0000 * q + u;
    assert frameNumber == 2 * (0x8000_0000 * q) + u;
    ParityIgnoresEvenPart(0x8000_0000 * q, u);
  }

  lemma ParityIgnoresEvenPart(a: int, b: int)
    ensures (2 * a + b) % 2 == b % 2
  {
  }

  /** Consecutive frames use different slots; frames two apart use the same one. */
  lemma SlotsAlternate(frameNumber: int)
    ensures CurrentSlot(frameNumber + 1) != CurrentSlot(frameNumber)
    ensures CurrentSlot(frameNumber + 2) == CurrentSlot(frameNumber)
  {
    SlotIsParity(frameNumber);
    SlotIsParity(frameNumber + 1);
    SlotIsParity(frameNumber + 2);
  }

  /** How many of the frames first, first+1, ..., first+count-1 use `slot`. */
  function SlotVisits(first: int, count: nat, slot: nat): nat
    decreases count
  {
    if count == 0 then 0
    else (if CurrentSlot(first) == slot then 1 else 0) + SlotVisits(first + 1, count - 1, slot)
  }

  /**
   * Over any run of `count` consecutive frames each slot is used
   * ceil(count / 2) or floor(count / 2) times: the slot of the first frame
   * gets the rounded-up share.
   */
  lemma {:induction false} SlotVisitsBalanced(first: int, count: nat, slot: nat)
    requires slot < FRAME_OVERLAP
    ensures SlotVisits(first, count, slot) == if CurrentSlot(first) == slot then (count + 1) / 2 else count / 2
    decreases count
  {
    if count > 0 {
      SlotsAlternate(first);
      SlotVisitsBalanced(first + 1, count - 1, slot);
    }
  }
}
