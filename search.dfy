/** The incremental suggestion searcher, seen from the dispatcher: a session
    holding the candidates loaded for a prefix and the index of the current one.
    The suggestion provider (ranking, paging, the JSON index behind it) is a
    parameter: a total function from a prefix to the page it loads. */
module IncrementalSearch {
  import opened Wrappers

  /** What the provider loads for a prefix: the candidates and whether they are all of them. */
  datatype Page = Page(items: seq<string>, loaded: bool)

  datatype LoadState = LoadState(loaded: bool, loadedItemLen: nat)

  /** What `start_search` reports back to the dispatcher. */
  datatype SearchResult = SearchResult(headItem: Option<string>, loadState: LoadState)

  datatype IncrementalSearcher = IncrementalSearcher(
    provider: string -> Result<Page, string>,
    items: seq<string>,
    index: nat)

  /** A searcher whose index designates a loaded candidate, or is 0 with none loaded. */
  type Searcher = s: IncrementalSearcher | s.index < |s.items| || (s.items == [] && s.index == 0)
    witness IncrementalSearcher((prefix: string) => Err("no provider"), [], 0)

  /** A session with at least one candidate is open. */
  predicate Active(s: Searcher)
  {
    s.items != []
  }

  /** The candidate under the index (`get_current_item`); empty when no session is open. */
  function CurrentItem(s: Searcher): (r: string)
    ensures Active(s) ==> r in s.items
    ensures Active(s) && s.index == 0 ==> r == s.items[0]
    ensures !Active(s) ==> r == ""
  {
    if Active(s) then s.items[s.index] else ""
  }

  /** Starts a session for `prefix`. A provider failure is reported and leaves the
      searcher as it was; otherwise the session holds what was loaded, the head
      item is its first candidate (the current one), and the reported count is
      the number of candidates loaded. */
  function StartSearch(s: Searcher, prefix: string): (r: (Searcher, Result<SearchResult, string>))
    ensures r.1.Err? <==> s.provider(prefix).Err?
    ensures r.1.Err? ==> r.0 == s && r.1.error == s.provider(prefix).error
    ensures r.1.Ok? ==>
      && r.0.provider == s.provider
      && r.0.items == s.provider(prefix).value.items
      && r.1.value.loadState == LoadState(s.provider(prefix).value.loaded, |r.0.items|)
      && (r.1.value.headItem.None? <==> !Active(r.0))
      && (r.1.value.headItem.Some? ==> r.1.value.headItem.value == CurrentItem(r.0))
  {
    match s.provider(prefix)
    case Err(e) => (s, Err(e))
    case Ok(page) =>
      var head := if page.items == [] then None else Some(page.items[0]);
      (IncrementalSearcher(s.provider, page.items, 0),
       Ok(SearchResult(head, LoadState(page.loaded, |page.items|))))
  }

  /** Moves to the next loaded candidate (`down_with_load`); stays on the last one. */
  function DownWithLoad(s: Searcher): (r: Searcher)
    ensures r.provider == s.provider && r.items == s.items
    ensures s.index + 1 < |s.items| ==> r.index == s.index + 1
    ensures s.index + 1 >= |s.items| ==> r == s
  {
    if s.index + 1 < |s.items| then s.(index := s.index + 1) else s
  }

  /** Moves to the previous candidate (`up`); stays on the first one. */
  function Up(s: Searcher): (r: Searcher)
    ensures r.provider == s.provider && r.items == s.items
    ensures s.index > 0 ==> r.index == s.index - 1
    ensures s.index == 0 ==> r == s
  {
    if s.index > 0 then s.(index := s.index - 1) else s
  }

  /** Discards the session (`leave_search`); the provider stays. */
  function LeaveSearch(s: Searcher): (r: Searcher)
    ensures r.provider == s.provider && !Active(r)
  {
    IncrementalSearcher(s.provider, [], 0)
  }

  /** Stepping down and back up returns to the same candidate when there is a next one. */
  lemma UpUndoesDown(s: Searcher)
    requires s.index + 1 < |s.items|
    ensures Up(DownWithLoad(s)) == s
  {
  }

  /** Stepping keeps an open session open, so there is always a current candidate. */
  lemma SteppingKeepsSession(s: Searcher)
    requires Active(s)
    ensures Active(DownWithLoad(s)) && Active(Up(s))
    ensures CurrentItem(DownWithLoad(s)) in s.items && CurrentItem(Up(s)) in s.items
  {
  }
}
