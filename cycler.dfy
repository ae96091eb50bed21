/**
 * The placeholder cycler: the search field's placeholder text types out an
 * example word letter by letter, removes it letter by letter and moves on to
 * the next word, driven by host timers. Focus stops it; blur with an empty
 * field restarts it after a delay.
 *
 * Timers are modelled as the host's timer table (`live`, handed-out handles
 * below `nextHandle`) plus the two variables that hold the last handles
 * (`intervalId`, `timeoutId`). The host runs `Tick` when the live interval
 * fires and `FireTimeout` when the live timeout fires.
 */
module PlaceholderCycler {
  import opened Animation
  import opened Timers

  /** The placeholder shown while the animation is idle or waiting to start. */
  const DefaultPrompt: string := "Pesquisar"
  /** Interval period while revealing letters and after advancing to a word (ms). */
  const ForwardPeriod: nat := 200
  /** Interval period while removing letters (ms). */
  const BackwardPeriod: nat := 100
  /** Delay between blur and the first tick (ms). */
  const StartDelay: nat := 3000

  /** The interval period that goes with a direction. */
  function PeriodFor(d: Direction): nat
  {
    if d == Forward then ForwardPeriod else BackwardPeriod
  }

  class Cycler {
    var count: nat
    var letter: nat
    var direction: Direction
    var wordToPrint: string
    /** The text the input currently shows as its placeholder. */
    var placeholder: string
    /** The host's table of live timers, by handle. */
    var live: map<nat, Timer>
    /** The next handle the host will hand out (handles start at 1; 0 is "never set"). */
    var nextHandle: nat
    var intervalId: nat
    var timeoutId: nat

    /** The animation variables as a value. */
    function CurrentFrame(): Frame
      reads this
    {
      Frame(count, letter, direction, wordToPrint)
    }

    /**
     * The object invariant: the animation frame is well formed; the
     * placeholder shows the printed text, or the default prompt while
     * nothing is printed; the timer discipline holds; a live interval runs
     * at the period of the current direction; while the start timeout is
     * pending no interval is live and the animation sits at the start of a
     * word showing the default prompt.
     */
    ghost predicate Valid()
      reads this
    {
      && WellFormed(CurrentFrame())
      && (placeholder == wordToPrint || (wordToPrint == "" && placeholder == DefaultPrompt))
      && (direction == Backward ==> placeholder == wordToPrint)
      && Disciplined(live, intervalId, timeoutId, nextHandle)
      && (intervalId in live ==> live[intervalId] == Interval(PeriodFor(direction)))
      && (timeoutId in live ==>
            && live[timeoutId] == Timeout(StartDelay)
            && intervalId !in live
            && CurrentFrame() == WordStart(count)
            && placeholder == DefaultPrompt)
    }

    /**
     * No timer accumulates: in every valid state at most one interval and at
     * most one timeout are live, and never both while the start delay runs.
     */
    lemma NoTimerAccumulates()
      requires Valid()
      ensures |IntervalsIn(live)| <= 1 && |TimeoutsIn(live)| <= 1
      ensures TimeoutsIn(live) != {} ==> IntervalsIn(live) == {}
    {
      DisciplineBoundsLiveTimers(live, intervalId, timeoutId, nextHandle);
    }

    /** The state the component starts in: first word, nothing printed, no timers. */
    constructor ()
      ensures Valid()
      ensures CurrentFrame() == WordStart(0) && placeholder == DefaultPrompt
      ensures live == map[]
    {
      count, letter, direction, wordToPrint := 0, 0, Forward, "";
      placeholder := DefaultPrompt;
      live, nextHandle := map[], 1;
      intervalId, timeoutId := 0, 0;
    }

    /** Host `clearInterval` / `clearTimeout`: the handle stops being live, if it was. */
    method ClearTimer(h: nat)
      modifies this`live
      ensures live == old(live) - {h}
    {
      live := live - {h};
    }

    /** Host `setInterval` / `setTimeout`: a fresh handle for a newly live timer. */
    method SetTimer(t: Timer) returns (h: nat)
      modifies this`live, this`nextHandle
      ensures h == old(nextHandle) && nextHandle == h + 1
      ensures live == old(live)[h := t]
    {
      h := nextHandle;
      live := live[h := t];
      nextHandle := nextHandle + 1;
    }

    /** Back to the start of the current word, with both timers cleared. */
    method ResetState()
      requires Valid()
      modifies this`letter, this`wordToPrint, this`direction, this`live
      ensures CurrentFrame() == WordStart(count)
      ensures live == map[]
    {
      letter := 0;
      wordToPrint := "";
      direction := Forward;
      ClearingBothSlotsEmptiesTable(live, intervalId, timeoutId, nextHandle);
      ClearTimer(timeoutId);
      ClearTimer(intervalId);
    }

    /** After the last letter is removed: start the next word and re-arm the slow interval. */
    method StartOver()
      requires Valid() && direction == Backward && wordToPrint == ""
      modifies this
      ensures Valid()
      ensures CurrentFrame() == WordStart(NextIndex(old(count)))
      ensures placeholder == old(placeholder) == ""
      ensures live == map[intervalId := Interval(ForwardPeriod)] && intervalId == old(nextHandle)
      ensures timeoutId == old(timeoutId)
    {
      ResetState();
      if count < |Words| - 1 {
        count := count + 1;
      } else {
        count := 0;
      }
      intervalId := SetTimer(Interval(ForwardPeriod));
    }

    /**
     * One firing of the live interval: the frame takes one animation `Step`;
     * reveals and removals show the new text; turning round replaces the
     * interval by a fast one; advancing replaces it by a slow one.
     */
    method Tick()
      requires Valid() && intervalId in live
      modifies this
      ensures Valid()
      ensures CurrentFrame() == Step(old(CurrentFrame()))
      ensures Kind(old(CurrentFrame())) in {Reveal, Retract} ==>
                placeholder == wordToPrint && live == old(live) && intervalId == old(intervalId)
      ensures Kind(old(CurrentFrame())) == Reverse ==>
                placeholder == old(placeholder)
                && live == map[intervalId := Interval(BackwardPeriod)] && intervalId == old(nextHandle)
      ensures Kind(old(CurrentFrame())) == Advance ==>
                placeholder == old(placeholder)
                && live == map[intervalId := Interval(ForwardPeriod)] && intervalId == old(nextHandle)
      ensures timeoutId == old(timeoutId)
    {
      StepKeepsWellFormed(CurrentFrame());
      var word := Words[count];
      if direction == Forward {
        if letter < |word| {
          wordToPrint := wordToPrint + [word[letter]];
          placeholder := wordToPrint;
          letter := letter + 1;
        } else {
          direction := Backward;
          assert live == map[intervalId := live[intervalId]];
          ClearTimer(intervalId);
          intervalId := SetTimer(Interval(BackwardPeriod));
        }
      } else {
        if |wordToPrint| > 0 {
          wordToPrint := wordToPrint[..|wordToPrint| - 1];
          placeholder := wordToPrint;
        } else {
          StartOver();
        }
      }
    }

    /** The start timeout fires (the host drops it) and arms the slow interval. */
    method FireTimeout()
      requires Valid() && timeoutId in live
      modifies this
      ensures Valid()
      ensures CurrentFrame() == old(CurrentFrame()) == WordStart(count)
      ensures placeholder == old(placeholder) == DefaultPrompt
      ensures live == map[intervalId := Interval(ForwardPeriod)] && intervalId == old(nextHandle)
      ensures timeoutId == old(timeoutId)
    {
      assert live == map[timeoutId := live[timeoutId]];
      ClearTimer(timeoutId);
      intervalId := SetTimer(Interval(ForwardPeriod));
    }

    /**
     * Blur: with an empty search field, reset, show the default prompt and
     * arm the start timeout; with a non-empty field, do nothing.
     */
    method StartCycle(nameIsEmpty: bool)
      requires Valid()
      modifies this
      ensures Valid()
      ensures !nameIsEmpty ==> unchanged(this)
      ensures nameIsEmpty ==>
                && CurrentFrame() == WordStart(old(count))
                && placeholder == DefaultPrompt
                && live == map[timeoutId := Timeout(StartDelay)] && timeoutId == old(nextHandle)
      ensures intervalId == old(intervalId)
    {
      if nameIsEmpty {
        ResetState();
        placeholder := DefaultPrompt;
        timeoutId := SetTimer(Timeout(StartDelay));
      }
    }

    /** Focus: reset, clear every timer and show the default prompt. */
    method StopCycle()
      requires Valid()
      modifies this
      ensures Valid()
      ensures CurrentFrame() == WordStart(old(count))
      ensures placeholder == DefaultPrompt
      ensures live == map[]
      ensures intervalId == old(intervalId)
    {
      ResetState();
      placeholder := DefaultPrompt;
    }
  }
}
