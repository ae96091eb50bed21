/**
 * Properties of the result list that relate several handlers: repeated
 * "load more", the reload cases, a search that misses then hits, and a page
 * load that completes after a reload.
 */
module PageProperties {
  import opened Wrappers
  import opened PageController

  /** `k` presses of "load more": the final state and the page requests issued, in order. */
  function LoadMoreTimes(s: PageState, k: nat): (PageState, seq<Request>)
  {
    if k == 0 then (s, [])
    else
      var (t, issued) := LoadMoreTimes(s, k - 1);
      var o := LoadMore(t);
      (o.state, issued + [o.issued.value])
  }

  /**
   * `k` presses of "load more" move the offset by `6k`; the `i`-th press
   * requests exactly one page, the one at the offset it moved to; the list
   * itself is untouched until a load completes.
   */
  lemma {:induction false} LoadMoreTimesOffsets(s: PageState, k: nat)
    ensures LoadMoreTimes(s, k).0.offset == s.offset + PageSize * k
    ensures LoadMoreTimes(s, k).0.items == s.items
    ensures |LoadMoreTimes(s, k).1| == k
    ensures forall i :: 0 <= i < k ==>
              LoadMoreTimes(s, k).1[i] == PageRequest(PageSize, s.offset + PageSize * (i + 1))
  {
    if k > 0 {
      LoadMoreTimesOffsets(s, k - 1);
      var (t, issued) := LoadMoreTimes(s, k - 1);
      assert t.offset + PageSize == s.offset + PageSize * k;
    }
  }

  /** From the initial offset, `k` presses of "load more" reach offset `6k`. */
  lemma LoadMoreFromStart(k: nat)
    ensures LoadMoreTimes(Mount().state, k).0.offset == 6 * k
  {
    LoadMoreTimesOffsets(Mount().state, k);
  }

  /** The offset is always a whole number of pages. */
  predicate Aligned(s: PageState)
  {
    s.offset % PageSize == 0
  }

  /** Every handler and completion keeps the offset a whole number of pages. */
  lemma HandlersKeepAligned(s: PageState, query: string, page: Option<seq<string>>,
                            details: seq<Option<Item>>, response: Option<Item>, y: int)
    requires Aligned(s)
    requires page.Some? ==> |details| == |page.value|
    ensures Aligned(Mount().state)
    ensures Aligned(LoadMore(s).state) && Aligned(Reload(s).state)
    ensures Aligned(FinishLoad(s, page, details))
    ensures Aligned(BeginSearch(s, query).state) && Aligned(FinishSearch(s, response))
    ensures Aligned(CheckScrollToTop(s, y))
  {
  }

  /**
   * Reload from a later page (offset 12, say) empties the list and goes back
   * to offset 0 at once, before the first page's load completes.
   */
  lemma ReloadFromLaterPage(s: PageState)
    requires s.offset == 2 * PageSize
    ensures Reload(s).state.items == [] && Reload(s).state.offset == 0
    ensures Reload(s).issued == Some(PageRequest(PageSize, 0))
  {
  }

  /**
   * Reload while one searched item is shown loads the first browse page again
   * on an emptied list rather than repeating the search, whatever the offset.
   */
  lemma ReloadAfterSearch(s: PageState, query: string, item: Item)
    ensures var shown := FinishSearch(BeginSearch(s, query).state, Some(item));
            Reload(shown).issued == Some(PageRequest(PageSize, 0))
            && Reload(shown).state.items == []
  {
  }

  /**
   * A search that misses shows the error and keeps the list; a later search
   * that hits clears the error and shows exactly the found item.
   */
  lemma SearchMissThenHit(s: PageState, miss: string, hit: string, item: Item)
    ensures var missed := FinishSearch(BeginSearch(s, miss).state, None);
            && missed.error && !missed.loading && missed.items == s.items
            && var found := FinishSearch(BeginSearch(missed, hit).state, Some(item));
               !found.error && !found.loading && found.items == [item]
  {
  }

  /** One searched item on screen hides the "more" button. */
  lemma SingleResultHidesMore(s: PageState, item: Item)
    ensures !MoreButtonVisible(FinishSearch(s, Some(item)))
  {
  }

  /**
   * A batch in which one detail request failed changes nothing but the
   * loading flag, and shows no error.
   */
  lemma FailedDetailSwallowed(s: PageState, names: seq<string>, details: seq<Option<Item>>, j: nat)
    requires |details| == |names| && j < |details| && details[j].None?
    ensures FinishLoad(s, Some(names), details) == s.(loading := false)
  {
  }

  /**
   * No load is ever discarded as stale: a page whose load was issued before a
   * reload, if it is the first load to complete after the reload, is appended
   * to the freshly emptied list.
   */
  lemma StaleBatchLandsAfterReload(s: PageState, names: seq<string>, details: seq<Option<Item>>)
    requires s.offset != 0
    requires |details| == |names| && forall i :: 0 <= i < |details| ==> details[i].Some?
    ensures var reset := Reload(s).state;
            && reset.items == []
            && |FinishLoad(reset, Some(names), details).items| == |names|
            && forall i :: 0 <= i < |names| ==>
                 FinishLoad(reset, Some(names), details).items[i] == details[i].value
  {
  }

  /**
   * What the missing staleness check costs: after a reload from a later page,
   * the stale batch (requested before the reload) and the fresh first page
   * both land, so the list holds the stale items followed by the fresh ones.
   */
  lemma StaleThenFreshAfterReload(s: PageState,
                                  staleNames: seq<string>, staleDetails: seq<Option<Item>>,
                                  freshNames: seq<string>, freshDetails: seq<Option<Item>>)
    requires s.offset != 0
    requires |staleDetails| == |staleNames| && forall i :: 0 <= i < |staleDetails| ==> staleDetails[i].Some?
    requires |freshDetails| == |freshNames| && forall i :: 0 <= i < |freshDetails| ==> freshDetails[i].Some?
    ensures var afterStale := FinishLoad(Reload(s).state, Some(staleNames), staleDetails);
            var afterFresh := FinishLoad(afterStale, Some(freshNames), freshDetails);
            afterFresh.items == JoinAll(staleDetails).value + JoinAll(freshDetails).value
  {
  }

  /**
   * The "more" button across the handlers: it is hidden while a page load or
   * a search is pending, and shown again once a page lands on a list that
   * does not end up with exactly one item, unless an error is displayed.
   */
  lemma MoreButtonAcrossHandlers(s: PageState, query: string, names: seq<string>, details: seq<Option<Item>>)
    requires |details| == |names|
    ensures !MoreButtonVisible(LoadMore(s).state)
    ensures !MoreButtonVisible(BeginSearch(s, query).state)
    ensures Reload(s).issued.Some? ==> !MoreButtonVisible(Reload(s).state)
    ensures (!s.error && JoinAll(details).Some? && |s.items| + |names| != 1) ==>
              MoreButtonVisible(FinishLoad(s, Some(names), details))
  {
  }

  /**
   * The other order: when the fresh first page completes before the stale
   * batch, the stale items are still appended, behind the fresh ones.
   */
  lemma FreshThenStaleAfterReload(s: PageState,
                                  freshNames: seq<string>, freshDetails: seq<Option<Item>>,
                                  staleNames: seq<string>, staleDetails: seq<Option<Item>>)
    requires s.offset != 0
    requires |freshDetails| == |freshNames| && forall i :: 0 <= i < |freshDetails| ==> freshDetails[i].Some?
    requires |staleDetails| == |staleNames| && forall i :: 0 <= i < |staleDetails| ==> staleDetails[i].Some?
    ensures var afterFresh := FinishLoad(Reload(s).state, Some(freshNames), freshDetails);
            var afterStale := FinishLoad(afterFresh, Some(staleNames), staleDetails);
            afterStale.items == JoinAll(freshDetails).value + JoinAll(staleDetails).value
  {
  }
}
