# Pokémon catalog view: placeholder cycler and result-list state

A Dafny model of the logic inside `src/App.tsx`, the single React component of
a small catalog browser. Two pieces are modelled.

- **The placeholder cycler.** The search field's placeholder types out an
  example word letter by letter, pauses, deletes it letter by letter and moves
  on to the next of `infernape`, `empoleon`, `xari`, `charizard`, driven by a
  repeating timer. It ticks at 200 ms forward and 100 ms backward. Focus stops
  it; blur with an empty field restarts it after 3000 ms.
  - `animation.dfy` (module `Animation`) gives the animation variables as a value
    `Frame`, with one tick as the function `Step`.
  - `cycler.dfy` (module `PlaceholderCycler`) holds the class `Cycler`. Its fields
    are the source's variables. `Tick` is proved to follow `Step`, and its
    advance branch is `StartOver`. `StartCycle`, `StopCycle` and `FireTimeout`
    are proved to reach or keep the start of the current word, to leave a
    stated timer table and to keep the object invariant. The helper
    `ResetState` clears the frame and both timers and leaves the placeholder
    to its callers.
  - `timers.dfy` (module `Timers`) models the browser's timer pool as a table of
    live handles. A leaked timer would therefore show up in the model, and the
    invariant rules it out.
- **The result list.** `page.dfy` (module `PageController`) holds the list's
  state (`items`, `offset`, `loading`, `error`, `showScroll`) and the handlers.
  Each handler is a function from the old state to the new one:
  - `LoadMore`, `Reload`, `BeginLoad`/`FinishLoad` (the page load);
  - `BeginSearch`/`FinishSearch` (the name search);
  - `CheckScrollToTop`.

  A handler returns the catalog request it issues. The response comes back as
  the input of the matching `Finish…` function. The effect that reloads when the
  offset changes (`App.tsx:210-212`) is the explicit function `SetOffset`.
  `page_properties.dfy` relates several handlers.

Four behaviours of the code a reader might not expect; the model follows
the code in each:
- The page load has no staleness check. A page requested before a reload and
  answered after it is appended to the list anyway. If it lands before the
  fresh first page, it sits on the emptied list ahead of that page; if it
  lands after, it follows the fresh items (`StaleBatchLandsAfterReload`,
  `StaleThenFreshAfterReload`, `FreshThenStaleAfterReload`).
- A failed search keeps the current list. It does not empty it.
- Moving backward, the letter index stays at the word's length; only the
  printed text shrinks.
- Restarting after blur resumes at the current word, not at the first word.

## Model

| member | source | states |
|---|---|---|
| `Timers.DisciplineBoundsLiveTimers` | src/App.tsx:57-58 | while every live interval is the one in `intervalID` and every live timeout the one in `timeout`, at most one of each is live |
| `Timers.ClearingBothSlotsEmptiesTable` | src/App.tsx:100-107 | clearing `timeout` and `intervalID` under that discipline leaves no timer live |
| `Animation.NextIndex` | src/App.tsx:91-95 | the next word index stays in range and equals `(count + 1) mod 4` |
| `Animation.AdvancesIsModular` | src/App.tsx:88-98 | `k` word advances move the index by `k` modulo the number of words |
| `Animation.AdvancesWrapAround` | src/App.tsx:88-98 | after as many advances as there are words the index is back where it started |
| `Animation.Step` | src/App.tsx:60-82 | one tick keeps the word index among the four words (the effect of each branch is stated by `StepEffects`) |
| `Animation.StepKeepsWellFormed` | src/App.tsx:60-82 | a tick keeps the index in range, the letter index within the word and the text a prefix of the word (exactly `letter` letters going forward; letter at word length going backward) |
| `Animation.StepEffects` | src/App.tsx:60-82 | a tick reveals the next letter, or turns round without touching the text, or drops exactly the last letter keeping `letter`, or starts the next word with `letter` 0, empty text, forward |
| `Animation.RevealPhase` | src/App.tsx:63-67 | `k` ticks from the start of a word print exactly its first `k` letters |
| `Animation.RetractPhase` | src/App.tsx:74-77 | `j` ticks after turning round remove the last `j` letters one at a time |
| `Animation.WordCycle` | src/App.tsx:60-98 | from the start of a word, `2·length + 2` ticks reach the start of the next word |
| `Animation.WordCycles` | src/App.tsx:60-98 | `k` whole word cycles reach the start of the `k`-th next word |
| `Animation.Rotation` | src/App.tsx:52 | one rotation through all four words (68 ticks) returns to exactly the frame it started from |
| `PlaceholderCycler.Cycler.NoTimerAccumulates` | src/App.tsx:100-124 | in every valid state at most one interval and one timeout are live, never both at once |
| `PlaceholderCycler.Cycler.constructor` | src/App.tsx:52-58 | the cycler starts at the first word, nothing printed, forward, showing `Pesquisar`, with no timer |
| `PlaceholderCycler.Cycler.ResetState` | src/App.tsx:100-107 | letter 0, empty text, forward, word index kept, and no timer live afterwards |
| `PlaceholderCycler.Cycler.StartOver` | src/App.tsx:88-98 | moves to the next word with wrap-around, clears every timer and arms exactly one fresh 200 ms interval |
| `PlaceholderCycler.Cycler.Tick` | src/App.tsx:60-82 | the frame takes one `Step`; reveals and removals show the new text and keep the timer; turning round replaces the interval with one at 100 ms; advancing replaces it with one at 200 ms; the invariant is kept |
| `PlaceholderCycler.Cycler.FireTimeout` | src/App.tsx:115-117 | the fired timeout arms exactly one 200 ms interval with no other timer live, the animation at the start of a word |
| `PlaceholderCycler.Cycler.StartCycle` | src/App.tsx:109-119 | with a non-empty name nothing changes; otherwise reset, show `Pesquisar`, and exactly one 3000 ms timeout is live |
| `PlaceholderCycler.Cycler.StopCycle` | src/App.tsx:121-124 | reset, no timer live, placeholder `Pesquisar` |
| `PageController.BeginLoad` | src/App.tsx:164-167 | marks loading and requests the page `limit=6` at the current offset; nothing else changes |
| `PageController.Mount` | src/App.tsx:26-36 | mounting requests the first page; the state is then exactly: no items, offset 0, loading, no error, no scroll button |
| `PageController.SetOffset` | src/App.tsx:210-212 | changing the offset requests the page at the new offset and changes only the offset and the loading flag; setting the same offset changes nothing |
| `PageController.LoadMore` | src/App.tsx:146-148 | the offset grows by 6, exactly the page at the new offset is requested, and nothing but the offset and the loading flag changes |
| `PageController.Reload` | src/App.tsx:150-162 | error and scroll flags cleared; a load of page 0 on an emptied list is issued exactly when the offset is not 0 or one item is shown; otherwise items and offset are kept |
| `PageController.JoinAll` | src/App.tsx:169-178 | the batch succeeds exactly when every detail response succeeded, and then holds them in request order |
| `PageController.FinishLoad` | src/App.tsx:178-187 | loading stops; the old items are a prefix of the new; on full success the joined batch is appended, in page order; on any failure the items are unchanged and no error is set |
| `PageController.Lower` | src/App.tsx:132 | lower-casing keeps the length, turns each upper-case ASCII letter into its lower-case counterpart and keeps every other character |
| `PageController.LowerIdempotent` | src/App.tsx:132 | lower-casing a lower-cased name changes nothing |
| `PageController.BeginSearch` | src/App.tsx:126-133 | marks loading, clears the error, and requests the lower-cased name; items kept |
| `PageController.FinishSearch` | src/App.tsx:134-141 | loading stops; the error is set exactly on failure; on success the list is exactly the found item, on failure it is kept |
| `PageController.MoreButtonVisible` | src/App.tsx:241-262 | the predicate is exactly the rendering condition of the "more" button (no error displayed, not loading, not exactly one item); its consequences across the handlers are proved in `MoreButtonAcrossHandlers` |
| `PageController.CheckScrollToTop` | src/App.tsx:195-201 | afterwards the flag is `pageYOffset > 400` whatever it was; it changes exactly when it disagreed; nothing else changes |
| `PageProperties.LoadMoreTimesOffsets` | src/App.tsx:146-148 | `k` presses move the offset by `6k` and issue `k` page requests, the `i`-th at the offset it reached |
| `PageProperties.LoadMoreFromStart` | src/App.tsx:146-148 | from mount, `k` presses reach offset `6k` |
| `PageProperties.HandlersKeepAligned` | src/App.tsx:146-212 | every handler keeps the offset a multiple of 6 |
| `PageProperties.ReloadFromLaterPage` | src/App.tsx:151-154 | reload from offset 12 empties the list and returns to offset 0 before any load completes |
| `PageProperties.ReloadAfterSearch` | src/App.tsx:150-159 | with one searched item shown, at any offset, reload loads page 0 on an emptied list instead of repeating the search |
| `PageProperties.SearchMissThenHit` | src/App.tsx:126-144 | a missed search shows the error and keeps the list; a later hit clears it and shows exactly one item |
| `PageProperties.SingleResultHidesMore` | src/App.tsx:260 | a single found item hides the "more" button |
| `PageProperties.FailedDetailSwallowed` | src/App.tsx:184-187 | one failed detail response changes nothing but the loading flag |
| `PageProperties.StaleBatchLandsAfterReload` | src/App.tsx:150-188 | a page requested before a reload that is the first load to complete after it is appended to the emptied list (there is no staleness check) |
| `PageProperties.StaleThenFreshAfterReload` | src/App.tsx:150-188 | after a reload from a later page, when the stale batch completes first and the fresh first page second, the list is the stale items followed by the fresh ones |
| `PageProperties.FreshThenStaleAfterReload` | src/App.tsx:150-188 | after a reload from a later page, when the fresh first page completes first, the stale batch is still appended behind the fresh items |
| `PageProperties.MoreButtonAcrossHandlers` | src/App.tsx:146-188 | the "more" button is hidden while a page load or search is pending, and shown once a page lands on a list that does not end up with one item, unless an error is displayed |

## Left out

- Rendering, styles, images and the `Card`, `Loader` and `MoreButton` components (`App.tsx:9-20`, `214-273`) are presentation only. The "more" button's visibility rule is kept as `MoreButtonVisible`.
- The HTTP wrapper `api` is not part of this model. Each request is a `Request` value and each response an input: `Option<seq<string>>` for a page, `Option<Item>` per item. The `console.log` calls are left out.
- Host timers are a table of live handles with explicit `Tick` and `FireTimeout` steps. Real time, the cadence's wall-clock timing and `window.scrollTo` are left out.
- React's re-rendering and closure capture are left out. In the source the animation variables are re-declared on every render, and the listeners keep the first render's closure. The model keeps one `Cycler` object, and `StartCycle` takes "the name is empty" as a parameter. The blur listener keeps the first render's name, which is always empty, so in the code as written blur restarts the animation even when the field holds text; `StartCycle(false)` models the test at `App.tsx:110` as written, not what the listener actually sees.
- Overlapping loads and searches are not interleaved. Each completion is one atomic transition, and the model adds no staleness check because the code has none.
- `Item` keeps only the item's name; its other fields are only displayed.
- `Animation.Step`: its own contract states only that the word index stays in range. What each branch does is proved in `StepEffects` and `StepKeepsWellFormed`, because a fuller contract on `Step` makes the induction proofs over repeated ticks run out of resource.
- `PageController.Lower`: models ASCII lower-casing only, because `toLocaleLowerCase` depends on the host's locale tables.
- `PageController.CheckScrollToTop`: takes `pageYOffset` as an integer; fractional scroll positions are not modelled.
- `PageController.FinishLoad`: receives one detail response per name, `details[i]` answering the request for the `i`-th name; the detail requests themselves are not produced as values. It does not model the order in which the responses arrive, because the join waits for all of them and indexes them by request.
