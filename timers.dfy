/**
 * The host runtime's timer table, as seen by the placeholder animation.
 *
 * A browser keeps one pool of live timers keyed by numeric handles:
 * `setInterval` and `setTimeout` hand out a fresh handle, and `clearInterval`
 * or `clearTimeout` on a handle that is not live does nothing.
 */
module Timers {

  /** A live timer: a repeating interval with its period, or a one-shot timeout with its delay (ms). */
  datatype Timer = Interval(period: nat) | Timeout(delay: nat)

  /** Handles of the live repeating timers. */
  function IntervalsIn(live: map<nat, Timer>): set<nat>
  {
    set h | h in live && live[h].Interval?
  }

  /** Handles of the live one-shot timers. */
  function TimeoutsIn(live: map<nat, Timer>): set<nat>
  {
    set h | h in live && live[h].Timeout?
  }

  /**
   * The timer discipline: every live handle, and every handle held in a
   * slot, was handed out before `next` (handles start at 1); the only live interval is the one stored in the interval slot and the
   * only live timeout is the one stored in the timeout slot.
   */
  predicate Disciplined(live: map<nat, Timer>, intervalSlot: nat, timeoutSlot: nat, next: nat)
  {
    && 0 < next && intervalSlot < next && timeoutSlot < next
    && (forall h :: h in live ==> 0 < h < next)
    && (forall h :: h in live && live[h].Interval? ==> h == intervalSlot)
    && (forall h :: h in live && live[h].Timeout? ==> h == timeoutSlot)
  }

  /** Under the discipline at most one interval and at most one timeout are live. */
  lemma DisciplineBoundsLiveTimers(live: map<nat, Timer>, intervalSlot: nat, timeoutSlot: nat, next: nat)
    requires Disciplined(live, intervalSlot, timeoutSlot, next)
    ensures |IntervalsIn(live)| <= 1 && |TimeoutsIn(live)| <= 1
    ensures |live| <= 2
  {
    assert IntervalsIn(live) <= {intervalSlot};
    assert TimeoutsIn(live) <= {timeoutSlot};
    assert live.Keys == IntervalsIn(live) + TimeoutsIn(live);
    SubsetOfSingletonSize(IntervalsIn(live), intervalSlot);
    SubsetOfSingletonSize(TimeoutsIn(live), timeoutSlot);
  }

  lemma SubsetOfSingletonSize(s: set<nat>, x: nat)
    requires s <= {x}
    ensures |s| <= 1
  {
    if s != {} {
      assert s == {x};
    }
  }

  /** Clearing both slots of a disciplined table leaves no timer live. */
  lemma ClearingBothSlotsEmptiesTable(live: map<nat, Timer>, intervalSlot: nat, timeoutSlot: nat, next: nat)
    requires Disciplined(live, intervalSlot, timeoutSlot, next)
    ensures live - {timeoutSlot} - {intervalSlot} == map[]
  {
  }
}
