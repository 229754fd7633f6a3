/** The ring of frames in flight: frame `c` uses the synchronisation objects
    of slot `c mod N`. */
module FrameRing {

  /** The slot of the frame with counter value `counter`: the counter
      modulo `n`, by repeated subtraction. */
  function Slot(counter: nat, n: nat): (s: nat)
    requires n > 0
    decreases counter
    ensures s < n
    ensures counter < n ==> s == counter
  {
    if counter < n then counter else Slot(counter - n, n)
  }

  /** Frames `n` apart use the same slot. */
  lemma SlotPeriodic(counter: nat, n: nat)
    requires n > 0
    ensures Slot(counter + n, n) == Slot(counter, n)
  {
  }

  /** How many of the `count` frames from `start` on use slot `s`. */
  function Visits(start: nat, count: nat, n: nat, s: nat): nat
    requires n > 0
  {
    if count == 0 then 0
    else Visits(start, count - 1, n, s) + (if Slot(start + count - 1, n) == s then 1 else 0)
  }

  /** Among the first `count <= n` frames, slot `s` is used once if
      `s < count` and never otherwise. */
  lemma {:induction false} FirstFramesVisitEachSlotOnce(count: nat, n: nat, s: nat)
    requires 0 < n && count <= n
    ensures Visits(0, count, n, s) == if s < count then 1 else 0
  {
    if count > 0 {
      FirstFramesVisitEachSlotOnce(count - 1, n, s);
      assert Slot(count - 1, n) == count - 1;
    }
  }

  /** Moving a window of frames by one drops the first frame's slot and adds
      the slot of the frame after the window. */
  lemma {:induction false} ShiftedVisits(start: nat, count: nat, n: nat, s: nat)
    requires n > 0
    ensures Visits(start + 1, count, n, s) + (if Slot(start, n) == s then 1 else 0)
            == Visits(start, count, n, s) + (if Slot(start + count, n) == s then 1 else 0)
  {
    if count > 0 {
      ShiftedVisits(start, count - 1, n, s);
    }
  }

  /** Any `n` consecutive frames use every slot exactly once: a fence is
      reused only after all other slots' frames have begun. */
  lemma {:induction false} EveryWindowVisitsEachSlotOnce(start: nat, n: nat, s: nat)
    requires s < n
    ensures Visits(start, n, n, s) == 1
  {
    if start == 0 {
      FirstFramesVisitEachSlotOnce(n, n, s);
    } else {
      EveryWindowVisitsEachSlotOnce(start - 1, n, s);
      ShiftedVisits(start - 1, n, n, s);
      SlotPeriodic(start - 1, n);
    }
  }
}
