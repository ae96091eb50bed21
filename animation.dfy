/**
 * The placeholder "typing" animation as a value: which example word is
 * shown, how many letters have been revealed, the direction, and the text
 * currently printed. `Step` is what one tick of the animation does to it;
 * the class in cycler.dfy is proved to follow it.
 */
module Animation {

  /** The example words the placeholder cycles through, in order. */
  const Words: seq<string> := ["infernape", "empoleon", "xari", "charizard"]

  datatype Direction = Forward | Backward

  /** The animation variables: word index, letter index, direction and the printed text. */
  datatype Frame = Frame(count: nat, letter: nat, direction: Direction, text: string)

  /** What a tick does: reveal a letter, turn round, remove a letter, or advance to the next word. */
  datatype TickKind = Reveal | Reverse | Retract | Advance

  /** The start of word `c`: nothing printed, moving forward. */
  function WordStart(c: nat): Frame
  {
    Frame(c, 0, Forward, "")
  }

  /**
   * The frame invariant: the word index is in range, the letter index is
   * within the word, the printed text is a prefix of the word; moving forward
   * the text is exactly the first `letter` letters, moving backward the letter
   * index stays at the word's length.
   */
  predicate WellFormed(f: Frame)
  {
    && f.count < |Words|
    && f.letter <= |Words[f.count]|
    && f.text <= Words[f.count]
    && (f.direction == Forward ==> f.text == Words[f.count][..f.letter])
    && (f.direction == Backward ==> f.letter == |Words[f.count]|)
  }

  /** The index of the word after `c`, wrapping to the first after the last. */
  function NextIndex(c: nat): (r: nat)
    requires c < |Words|
    ensures r < |Words|
    ensures r == (c + 1) % |Words|
  {
    if c < |Words| - 1 then c + 1 else 0
  }

  /** Which of the four things a tick does in frame `f`. */
  function Kind(f: Frame): TickKind
    requires f.count < |Words|
  {
    match f.direction
    case Forward => if f.letter < |Words[f.count]| then Reveal else Reverse
    case Backward => if |f.text| > 0 then Retract else Advance
  }

  /** One tick of the animation; `StepEffects` says what each kind of tick does. */
  function Step(f: Frame): (r: Frame)
    requires f.count < |Words|
    ensures r.count < |Words|
  {
    var word := Words[f.count];
    match f.direction
    case Forward =>
      if f.letter < |word| then f.(text := f.text + [word[f.letter]], letter := f.letter + 1)
      else f.(direction := Backward)
    case Backward =>
      if |f.text| > 0 then f.(text := f.text[..|f.text| - 1])
      else WordStart(NextIndex(f.count))
  }

  /** A tick keeps the frame invariant. */
  lemma StepKeepsWellFormed(f: Frame)
    requires WellFormed(f)
    ensures WellFormed(Step(f))
  {
  }

  /**
   * What each kind of tick does: a reveal prints the next letter of the word,
   * turning round leaves the text alone and only flips the direction, a
   * removal drops exactly the last printed letter and leaves the letter index
   * where it is, and an advance starts the next word afresh.
   */
  lemma StepEffects(f: Frame)
    requires WellFormed(f)
    ensures Kind(f) == Reveal ==>
              Step(f) == Frame(f.count, f.letter + 1, Forward, Words[f.count][..f.letter + 1])
    ensures Kind(f) == Reverse ==> Step(f) == f.(direction := Backward) && f.text == Words[f.count]
    ensures Kind(f) == Retract ==>
              Step(f).text + [f.text[|f.text| - 1]] == f.text
              && Step(f) == f.(text := Step(f).text)
    ensures Kind(f) == Advance ==> Step(f) == WordStart(NextIndex(f.count))
  {
  }

  /** `n` ticks from frame `f`. */
  function Steps(f: Frame, n: nat): (r: Frame)
    requires f.count < |Words|
    ensures r.count < |Words|
  {
    if n == 0 then f else Step(Steps(f, n - 1))
  }

  /** `k` word advances from word index `c`. */
  function Advances(c: nat, k: nat): (r: nat)
    requires c < |Words|
    ensures r < |Words|
  {
    if k == 0 then c else NextIndex(Advances(c, k - 1))
  }

  /** Advancing `k` words moves the index by `k` modulo the number of words. */
  lemma {:induction false} AdvancesIsModular(c: nat, k: nat)
    requires c < |Words|
    ensures Advances(c, k) == (c + k) % |Words|
  {
    if k > 0 {
      AdvancesIsModular(c, k - 1);
    }
  }

  /** After as many advances as there are words the index is back where it started. */
  lemma AdvancesWrapAround(c: nat)
    requires c < |Words|
    ensures Advances(c, |Words|) == c
  {
    AdvancesIsModular(c, |Words|);
  }

  /** Ticks compose: `m + n` ticks are `m` ticks followed by `n` ticks. */
  lemma {:induction false} StepsCompose(f: Frame, m: nat, n: nat)
    requires f.count < |Words|
    ensures Steps(f, m + n) == Steps(Steps(f, m), n)
  {
    if n > 0 {
      calc {
        Steps(f, m + n);
        Step(Steps(f, m + n - 1));
        { StepsCompose(f, m, n - 1); }
        Step(Steps(Steps(f, m), n - 1));
      }
    }
  }

  /** The forward phase: `k` ticks from the start of a word reveal its first `k` letters. */
  lemma {:induction false} RevealPhase(c: nat, k: nat)
    requires c < |Words| && k <= |Words[c]|
    ensures Steps(WordStart(c), k) == Frame(c, k, Forward, Words[c][..k])
  {
    if k > 0 {
      RevealPhase(c, k - 1);
      assert Words[c][..k - 1] + [Words[c][k - 1]] == Words[c][..k];
    }
  }

  /** The backward phase: `j` ticks after turning round remove the last `j` letters one by one. */
  lemma {:induction false} RetractPhase(c: nat, j: nat)
    requires c < |Words| && j <= |Words[c]|
    ensures Steps(Frame(c, |Words[c]|, Backward, Words[c]), j)
            == Frame(c, |Words[c]|, Backward, Words[c][..|Words[c]| - j])
  {
    if j > 0 {
      RetractPhase(c, j - 1);
      var t := Words[c][..|Words[c]| - (j - 1)];
      assert t[..|t| - 1] == Words[c][..|Words[c]| - j];
    }
  }

  /** The number of ticks one word takes: reveal every letter, turn, remove every letter, advance. */
  function TicksPerWord(c: nat): (r: nat)
    requires c < |Words|
  {
    2 * |Words[c]| + 2
  }

  /**
   * One word's full cycle: from the start of word `c`, `TicksPerWord(c)` ticks
   * reach the start of the next word (wrapping after the last).
   */
  lemma WordCycle(c: nat)
    requires c < |Words|
    ensures Steps(WordStart(c), TicksPerWord(c)) == WordStart(NextIndex(c))
  {
    var w := Words[c];
    var n := |w|;
    RevealPhase(c, n);
    assert w[..n] == w;
    var full := Frame(c, n, Backward, w);
    assert Steps(WordStart(c), n + 1) == full;
    RetractPhase(c, n);
    assert Steps(full, n) == Frame(c, n, Backward, "");
    StepsCompose(WordStart(c), n + 1, n);
    assert Steps(WordStart(c), 2 * n + 1) == Frame(c, n, Backward, "");
  }

  /** Ticks needed for `k` consecutive words starting at word `c`. */
  function TicksForWords(c: nat, k: nat): nat
    requires c < |Words|
  {
    if k == 0 then 0 else TicksForWords(c, k - 1) + TicksPerWord(Advances(c, k - 1))
  }

  /** `k` whole word cycles from the start of word `c` reach the start of the `k`-th next word. */
  lemma {:induction false} WordCycles(c: nat, k: nat)
    requires c < |Words|
    ensures Steps(WordStart(c), TicksForWords(c, k)) == WordStart(Advances(c, k))
  {
    if k > 0 {
      WordCycles(c, k - 1);
      StepsCompose(WordStart(c), TicksForWords(c, k - 1), TicksPerWord(Advances(c, k - 1)));
      WordCycle(Advances(c, k - 1));
    }
  }

  /** Ticks of one full rotation through every word. */
  const RotationTicks: nat := 68

  /**
   * The animation is cyclic: from the start of any word, one rotation through
   * all the words (68 ticks) comes back to exactly the same frame.
   */
  lemma Rotation(c: nat)
    requires c < |Words|
    ensures Steps(WordStart(c), RotationTicks) == WordStart(c)
  {
    WordCycles(c, |Words|);
    AdvancesWrapAround(c);
    RotationTicksFrom(c);
  }

  /** The length of a rotation does not depend on the word it starts from. */
  lemma RotationTicksFrom(c: nat)
    requires c < |Words|
    ensures TicksForWords(c, |Words|) == RotationTicks
  {
    AdvancesIsModular(c, 0);
    AdvancesIsModular(c, 1);
    AdvancesIsModular(c, 2);
    AdvancesIsModular(c, 3);
    assert TicksForWords(c, 4) == TicksPerWord(c % 4) + TicksPerWord((c + 1) % 4)
                                 + TicksPerWord((c + 2) % 4) + TicksPerWord((c + 3) % 4);
  }
}
