/**
 * The result list's state and the handlers that change it: loading a page
 * of items, asking for more, reloading, searching one item by name and the
 * scroll-to-top flag.
 *
 * The component's state setters are modelled as functions from the old state
 * to the new one. A handler that issues a catalog request returns it beside
 * the new state; the response comes back later as the input of a completion
 * function (`FinishLoad`, `FinishSearch`), applied atomically.
 */
module PageController {
  import opened Wrappers

  /** Items per page (`limit=6`), and the step `loadMore` adds to the offset. */
  const PageSize: nat := 6
  /** Vertical scroll position (px) above which the scroll-to-top button shows. */
  const ScrollThreshold: int := 400

  /** A catalog item, identified by its name; its other fields are only displayed. */
  datatype Item = Item(name: string)

  datatype PageState = PageState(
    items: seq<Item>,
    offset: nat,
    loading: bool,
    error: bool,
    showScroll: bool)

  /** A catalog request: a page of names, or one item by name. */
  datatype Request = PageRequest(limit: nat, offset: nat) | ItemRequest(name: string)

  /** A handler's result: the new state and the request it issued, if any. */
  datatype Outcome = Outcome(state: PageState, issued: Option<Request>)

  /** The state at mount: no items, offset 0, no loading, no error, no scroll button. */
  function Initial(): PageState
  {
    PageState([], 0, false, false, false)
  }

  /** Starts a page load at the current offset: marks loading and requests that page. */
  function BeginLoad(s: PageState): (r: Outcome)
    ensures r.issued == Some(PageRequest(PageSize, s.offset))
    ensures r.state.loading
    ensures r.state.(loading := s.loading) == s
  {
    Outcome(s.(loading := true), Some(PageRequest(PageSize, s.offset)))
  }

  /** At mount the offset effect runs once and loads the first page. */
  function Mount(): (r: Outcome)
    ensures r.issued == Some(PageRequest(PageSize, 0))
    ensures r.state == PageState([], 0, true, false, false)
  {
    BeginLoad(Initial())
  }

  /**
   * Setting the offset: when the value changes, the effect on the offset
   * loads the page at the new offset; setting the same value does nothing.
   */
  function SetOffset(s: PageState, o: nat): (r: Outcome)
    ensures r.state.offset == o && r.state.items == s.items
    ensures r.issued.Some? <==> o != s.offset
    ensures o != s.offset ==> r.issued == Some(PageRequest(PageSize, o)) && r.state == s.(offset := o, loading := true)
    ensures o == s.offset ==> r.state == s
  {
    if o != s.offset then BeginLoad(s.(offset := o)) else Outcome(s, None)
  }

  /** "Load more": advance the offset by one page, which loads that page. */
  function LoadMore(s: PageState): (r: Outcome)
    ensures r.state.offset == s.offset + PageSize
    ensures r.issued == Some(PageRequest(PageSize, s.offset + PageSize))
    ensures r.state == s.(offset := s.offset + PageSize, loading := true)
  {
    SetOffset(s, s.offset + PageSize)
  }

  /**
   * Reload (the logo button). Away from the first page: clear the items and
   * go back to offset 0, which loads the first page. On the first page with a
   * single searched item shown: clear it and load the first page directly.
   * Otherwise keep items and offset. In every case clear the error and the
   * scroll-to-top flag.
   */
  function Reload(s: PageState): (r: Outcome)
    ensures !r.state.error && !r.state.showScroll
    ensures r.issued.Some? <==> (s.offset != 0 || |s.items| == 1)
    ensures r.issued.Some? ==>
              && r.issued == Some(PageRequest(PageSize, 0))
              && r.state.items == [] && r.state.offset == 0 && r.state.loading
    ensures r.issued.None? ==>
              r.state.items == s.items && r.state.offset == s.offset && r.state.loading == s.loading
  {
    if s.offset != 0 then
      SetOffset(s.(items := [], error := false, showScroll := false), 0)
    else if |s.items| == 1 then
      BeginLoad(s.(items := [], error := false, showScroll := false))
    else
      Outcome(s.(error := false, showScroll := false), None)
  }

  /**
   * Waiting for every detail response of a batch: fails as soon as one
   * response failed, otherwise yields all the items in request order.
   */
  function JoinAll(responses: seq<Option<Item>>): (r: Option<seq<Item>>)
    ensures r.Some? <==> forall i :: 0 <= i < |responses| ==> responses[i].Some?
    ensures r.Some? ==> |r.value| == |responses|
    ensures r.Some? ==> forall i :: 0 <= i < |responses| ==> r.value[i] == responses[i].value
  {
    if responses == [] then Some([])
    else if responses[0].None? then None
    else
      match JoinAll(responses[1..])
      case None => None
      case Some(rest) => Some([responses[0].value] + rest)
  }

  /**
   * A page load completes. `page` is the page response (the names in page
   * order, or a failure) and `details[i]` the response to the detail request
   * for the `i`-th name. If everything succeeded the whole batch is appended in
   * page order; on any failure nothing is appended and no error is shown.
   * Loading stops either way.
   */
  function FinishLoad(s: PageState, page: Option<seq<string>>, details: seq<Option<Item>>): (r: PageState)
    requires page.Some? ==> |details| == |page.value|
    ensures !r.loading
    ensures r.offset == s.offset && r.error == s.error && r.showScroll == s.showScroll
    ensures s.items <= r.items
    ensures (page.Some? && JoinAll(details).Some?) ==> r.items == s.items + JoinAll(details).value
    ensures (page.Some? && JoinAll(details).Some?) ==>
              |r.items| == |s.items| + |details|
              && forall i :: 0 <= i < |details| ==> r.items[|s.items| + i] == details[i].value
    ensures (page.None? || exists i :: 0 <= i < |details| && details[i].None?) ==> r.items == s.items
  {
    if page.None? then s.(loading := false)
    else
      match JoinAll(details)
      case None => s.(loading := false)
      case Some(batch) => s.(items := s.items + batch, loading := false)
  }

  /** Whether an ASCII character is an upper-case letter. */
  predicate IsUpper(c: char)
  {
    'A' <= c <= 'Z'
  }

  /** ASCII lower-casing of one character. */
  function LowerChar(c: char): char
  {
    if IsUpper(c) then (c as int - 'A' as int + 'a' as int) as char else c
  }

  /**
   * ASCII lower-casing of a name: same length, each upper-case letter
   * replaced by its lower-case counterpart, other characters kept.
   */
  function Lower(s: string): (r: string)
    ensures |r| == |s|
    ensures forall i :: 0 <= i < |r| ==> !IsUpper(r[i])
    ensures forall i :: 0 <= i < |s| && IsUpper(s[i]) ==> r[i] as int == s[i] as int + ('a' as int - 'A' as int)
    ensures forall i :: 0 <= i < |s| && !IsUpper(s[i]) ==> r[i] == s[i]
  {
    seq(|s|, i requires 0 <= i < |s| => LowerChar(s[i]))
  }

  /** Lower-casing is idempotent, so searching a lower-cased name asks for the same item. */
  lemma LowerIdempotent(s: string)
    ensures Lower(Lower(s)) == Lower(s)
  {
  }

  /** Submitting a search: marks loading, clears the error, requests the lower-cased name. */
  function BeginSearch(s: PageState, query: string): (r: Outcome)
    ensures r.issued == Some(ItemRequest(Lower(query)))
    ensures r.state.loading && !r.state.error
    ensures r.state.items == s.items && r.state.offset == s.offset && r.state.showScroll == s.showScroll
  {
    Outcome(s.(loading := true, error := false), Some(ItemRequest(Lower(query))))
  }

  /**
   * A search completes: on success the list becomes exactly the found item
   * and the error clears; on failure the error shows and the list is kept.
   * Loading stops either way.
   */
  function FinishSearch(s: PageState, response: Option<Item>): (r: PageState)
    ensures !r.loading
    ensures r.error <==> response.None?
    ensures response.Some? ==> r.items == [response.value]
    ensures response.None? ==> r.items == s.items
    ensures r.offset == s.offset && r.showScroll == s.showScroll
  {
    match response
    case Some(item) => s.(items := [item], error := false, loading := false)
    case None => s.(error := true, loading := false)
  }

  /**
   * The scroll listener: raise the flag when the page is scrolled below the
   * threshold and it is down, lower it when scrolled back up and it is up.
   */
  function CheckScrollToTop(s: PageState, pageYOffset: int): (r: PageState)
    ensures r.showScroll == (pageYOffset > ScrollThreshold)
    ensures r.showScroll != s.showScroll <==> s.showScroll != (pageYOffset > ScrollThreshold)
    ensures r == s.(showScroll := r.showScroll)
  {
    if !s.showScroll && pageYOffset > ScrollThreshold then s.(showScroll := true)
    else if s.showScroll && pageYOffset <= ScrollThreshold then s.(showScroll := false)
    else s
  }

  /** The "more" button shows when no error is displayed, nothing is loading and the list is not a single item. */
  predicate MoreButtonVisible(s: PageState)
  {
    !s.error && !s.loading && |s.items| != 1
  }
}
