/**
 * The circular cursor arithmetic of `Player::next` and `Player::prev`,
 * on a playlist of `len` streams. The cursor is a `usize` that may start
 * out of range (a loaded file or an earlier deletion can leave it there).
 */
module Cursor {
  import opened Streams

  /** `x % len` is `x` itself below `len`, and 0 at `len`. */
  lemma ModBelowOrAt(x: nat, len: nat)
    requires 0 < len && x <= len
    ensures x % len == if x == len then 0 else x
  {
  }

  /** `(current + 1) % len`, the `+ 1` wrapping as a release build does. */
  function NextCursor(current: Usize, len: Usize): (r: Usize)
    requires 0 < len
    ensures r < len
    ensures current < len ==> r == if current == len - 1 then 0 else current + 1
  {
    if current < len then ModBelowOrAt(current + 1, len); WrappingInc(current) % len
    else WrappingInc(current) % len
  }

  /** `len - 1` from 0, otherwise `(current - 1) % len`. */
  function PrevCursor(current: Usize, len: Usize): (r: Usize)
    requires 0 < len
    ensures r < len
    ensures current < len ==> r == if current == 0 then len - 1 else current - 1
  {
    if current == 0 then len - 1
    else if current <= len then ModBelowOrAt(current - 1, len); (current - 1) % len
    else (current - 1) % len
  }

  /** An in-range cursor comes back to where it was after `next` then `prev`. */
  lemma PrevUndoesNext(current: Usize, len: Usize)
    requires current < len
    ensures PrevCursor(NextCursor(current, len), len) == current
  {
  }

  /** An in-range cursor comes back to where it was after `prev` then `next`. */
  lemma NextUndoesPrev(current: Usize, len: Usize)
    requires current < len
    ensures NextCursor(PrevCursor(current, len), len) == current
  {
  }

  /** The cursor after `k` calls of `next`. */
  function Advance(current: Usize, len: Usize, k: nat): Usize
    requires 0 < len
  {
    if k == 0 then current else NextCursor(Advance(current, len, k - 1), len)
  }

  /** Below the end of the list, `k` calls of `next` move the cursor `k` places. */
  lemma {:induction false} AdvanceWithin(current: Usize, len: Usize, k: nat)
    requires current + k < len
    ensures Advance(current, len, k) == current + k
  {
    if k > 0 {
      AdvanceWithin(current, len, k - 1);
    }
  }

  /** `a + b` calls of `next` are `a` calls followed by `b` calls. */
  lemma {:induction false} AdvanceSplit(current: Usize, len: Usize, a: nat, b: nat)
    requires 0 < len
    ensures Advance(current, len, a + b) == Advance(Advance(current, len, a), len, b)
  {
    if b > 0 {
      AdvanceSplit(current, len, a, b - 1);
    }
  }

  /** `len` calls of `next` bring an in-range cursor back to its start. */
  lemma FullCircle(current: Usize, len: Usize)
    requires current < len
    ensures Advance(current, len, len) == current
  {
    AdvanceWithin(current, len, len - current - 1);
    assert Advance(current, len, len - current) == 0;
    AdvanceSplit(current, len, len - current, current);
    if current > 0 {
      AdvanceWithin(0, len, current);
    }
  }
}
