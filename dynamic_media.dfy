/**
 * The paginated media feed behind the picker's grid (`DynamicMediaViewModel`).
 * Each load is split where the Swift code awaits the network: the
 * synchronous start, which checks the guard, marks the feed loading and
 * yields the request to send, and the completion, applied when that
 * request's response or error arrives.  Other calls may run in between.
 */
module DynamicMedia {
  import opened Options
  import opened InfraMediaType

  /** A GIF of the feed; items are compared by `id`.  Its file variants are
      not part of this model. */
  datatype GifItem = GifItem(id: int, title: string, slug: string, blurPreview: string, kind: MediaType)

  /** A request to the GIF service. */
  datatype Request = Trending(page: int, perPage: int) | Search(query: string, page: int, perPage: int)

  const PerPage := 24

  const DefaultErrorMessage := "An unknown error occurred. Please try again."

  /** The view model's observable state. */
  datatype Feed = Feed(
    gifs: seq<GifItem>, isLoading: bool, hasError: bool, errorMessage: Option<string>,
    hasMorePages: bool, searchQuery: string, currentPage: int)

  const Initial := Feed([], false, false, None, true, "", 1)

  /** The page counter starts at 1 and only grows or is reset to 1, and an
      error is flagged exactly when there is an error message. */
  predicate Valid(f: Feed) {
    f.currentPage >= 1 && (f.hasError <==> f.errorMessage.Some?)
  }

  /** The state every load sets before it awaits. */
  function Begin(f: Feed): Feed {
    f.(isLoading := true, hasError := false, errorMessage := None)
  }

  /** `loadTrendingGifs` up to its request: nothing happens while a load is
      running or when the last page has been seen. */
  function LoadTrending(f: Feed): (r: (Feed, Option<Request>))
    ensures r.1.Some? <==> !f.isLoading && f.hasMorePages
    ensures r.1.Some? ==> r == (Begin(f), Some(Trending(f.currentPage, PerPage)))
    ensures r.1.None? ==> r.0 == f
  {
    if !(!f.isLoading && f.hasMorePages) then (f, None)
    else (Begin(f), Some(Trending(f.currentPage, PerPage)))
  }

  /** `searchGifs(query:)` up to its request.  An empty query goes back to
      the first page of trending; any other is requested without a guard. */
  function SearchGifs(f: Feed, query: string): (r: (Feed, Option<Request>))
    ensures query == "" ==> r == LoadTrending(f.(currentPage := 1))
    ensures query != "" ==> r == (Begin(f), Some(Search(query, f.currentPage, PerPage)))
  {
    if query == "" then LoadTrending(f.(currentPage := 1))
    else (Begin(f), Some(Search(query, f.currentPage, PerPage)))
  }

  /** The dispatch `loadNextPageIfNeeded`, `refresh` and `retry` share:
      trending without a query, the query's search otherwise. */
  function LoadCurrent(f: Feed): (Feed, Option<Request>) {
    if f.searchQuery == "" then LoadTrending(f) else SearchGifs(f, f.searchQuery)
  }

  /** `loadNextPageIfNeeded`. */
  function LoadNextPageIfNeeded(f: Feed): (r: (Feed, Option<Request>))
    ensures f.isLoading || !f.hasMorePages ==> r == (f, None)
  {
    if !(!f.isLoading && f.hasMorePages) then (f, None) else LoadCurrent(f)
  }

  /** `refresh`: back to the first page, with more pages assumed. */
  function Refresh(f: Feed): (Feed, Option<Request>) {
    LoadCurrent(f.(currentPage := 1, hasMorePages := true))
  }

  /** `updateSearchQuery`: record the query, back to the first page, and search. */
  function UpdateSearchQuery(f: Feed, query: string): (Feed, Option<Request>) {
    SearchGifs(f.(searchQuery := query, currentPage := 1, hasMorePages := true), query)
  }

  /** `retry`. */
  function Retry(f: Feed): (Feed, Option<Request>) {
    LoadCurrent(f)
  }

  /** A successful response: the first page replaces the feed, a later page
      is appended, and the counter moves on. */
  function Succeeded(f: Feed, data: seq<GifItem>, hasNext: bool): (g: Feed)
    ensures g.gifs == if f.currentPage == 1 then data else f.gifs + data
    ensures g.hasMorePages == hasNext && g.currentPage == f.currentPage + 1 && !g.isLoading
    ensures g.hasError == f.hasError && g.errorMessage == f.errorMessage && g.searchQuery == f.searchQuery
  {
    var gifs := if f.currentPage == 1 then data else f.gifs + data;
    f.(gifs := gifs, hasMorePages := hasNext, currentPage := f.currentPage + 1, isLoading := false)
  }

  /** A failed request: the error is recorded, the feed and page are kept. */
  function Failed(f: Feed, message: string): (g: Feed)
    ensures g.gifs == f.gifs && g.currentPage == f.currentPage && g.hasMorePages == f.hasMorePages
    ensures g.hasError && g.errorMessage == Some(message) && !g.isLoading
  {
    f.(hasError := true, errorMessage := Some(message), isLoading := false)
  }

  /** Every operation keeps the state valid. */
  lemma OperationsKeepValid(f: Feed, query: string, data: seq<GifItem>, hasNext: bool, message: string)
    requires Valid(f)
    ensures Valid(LoadTrending(f).0) && Valid(SearchGifs(f, query).0)
    ensures Valid(LoadNextPageIfNeeded(f).0) && Valid(Refresh(f).0)
    ensures Valid(UpdateSearchQuery(f, query).0) && Valid(Retry(f).0)
    ensures Valid(Succeeded(f, data, hasNext)) && Valid(Failed(f, message))
  {
  }

  /** The guard: while a load runs or after the last page, trending and
      next-page loads send nothing, but a non-empty search still goes out. */
  lemma LoadGuard(f: Feed, query: string)
    requires f.isLoading || !f.hasMorePages
    ensures LoadTrending(f) == (f, None) && LoadNextPageIfNeeded(f) == (f, None)
    ensures query != "" ==> SearchGifs(f, query).1 == Some(Search(query, f.currentPage, PerPage))
  {
  }

  /** `refresh` and `updateSearchQuery` always ask for page 1 when they ask
      for anything; a refresh of the trending feed during a load asks for nothing. */
  lemma ResetsToFirstPage(f: Feed, query: string)
    ensures Refresh(f).0.currentPage == 1 && Refresh(f).0.hasMorePages
    ensures UpdateSearchQuery(f, query).0.currentPage == 1 && UpdateSearchQuery(f, query).0.searchQuery == query
    ensures Refresh(f).1.Some? ==> Refresh(f).1.value.page == 1
    ensures UpdateSearchQuery(f, query).1.Some? ==> UpdateSearchQuery(f, query).1.value.page == 1
    ensures Refresh(f).1.None? <==> f.isLoading && f.searchQuery == ""
  {
  }

  /** A page of a response. */
  datatype Page = Page(data: seq<GifItem>, hasNext: bool)

  /** The feed after loading the given pages one after another. */
  function LoadPages(f: Feed, pages: seq<Page>): Feed
    decreases |pages|
  {
    if pages == [] then f
    else LoadPages(Succeeded(Begin(f), pages[0].data, pages[0].hasNext), pages[1..])
  }

  /** All items of the given pages, in order. */
  function Concat(pages: seq<Page>): seq<GifItem>
    decreases |pages|
  {
    if pages == [] then [] else pages[0].data + Concat(pages[1..])
  }

  /** Past the first page, every response is appended and the counter
      advances by one per page. */
  lemma {:induction false} LaterPagesAppend(f: Feed, pages: seq<Page>)
    requires f.currentPage >= 2
    ensures LoadPages(f, pages).gifs == f.gifs + Concat(pages)
    ensures LoadPages(f, pages).currentPage == f.currentPage + |pages|
    decreases |pages|
  {
    if pages != [] {
      var g := Succeeded(Begin(f), pages[0].data, pages[0].hasNext);
      LaterPagesAppend(g, pages[1..]);
      assert f.gifs + pages[0].data + Concat(pages[1..]) == f.gifs + Concat(pages);
    }
  }

  /** From the first page, the feed holds exactly the pages loaded, in order,
      and `hasMorePages` is the last response's `hasNext`. */
  lemma {:induction false} PagesAccumulate(f: Feed, pages: seq<Page>)
    requires f.currentPage == 1 && |pages| >= 1
    ensures LoadPages(f, pages).gifs == Concat(pages)
    ensures LoadPages(f, pages).currentPage == 1 + |pages|
    ensures LoadPages(f, pages).hasMorePages == pages[|pages| - 1].hasNext
    ensures !LoadPages(f, pages).isLoading
  {
    var g := Succeeded(Begin(f), pages[0].data, pages[0].hasNext);
    LaterPagesAppend(g, pages[1..]);
    LastPageDecides(f, pages);
  }

  lemma {:induction false} LastPageDecides(f: Feed, pages: seq<Page>)
    requires |pages| >= 1
    ensures LoadPages(f, pages).hasMorePages == pages[|pages| - 1].hasNext
    ensures !LoadPages(f, pages).isLoading
    decreases |pages|
  {
    if |pages| > 1 {
      LastPageDecides(Succeeded(Begin(f), pages[0].data, pages[0].hasNext), pages[1..]);
    }
  }

  /** The index of the first item with the id, searching from `i`. */
  function FirstIndexFrom(gifs: seq<GifItem>, id: int, i: nat): (r: Option<nat>)
    requires i <= |gifs|
    ensures r.Some? ==> (i <= r.value < |gifs| && gifs[r.value].id == id &&
      forall j :: i <= j < r.value ==> gifs[j].id != id)
    ensures r.None? ==> forall j :: i <= j < |gifs| ==> gifs[j].id != id
    decreases |gifs| - i
  {
    if i == |gifs| then None
    else if gifs[i].id == id then Some(i)
    else FirstIndexFrom(gifs, id, i + 1)
  }

  /** `shouldLoadMore(currentItem:)`: the item's first occurrence is among
      the last five; false for an item not in the feed. */
  function ShouldLoadMore(gifs: seq<GifItem>, currentItem: GifItem): (b: bool)
    ensures (forall j :: 0 <= j < |gifs| ==> gifs[j].id != currentItem.id) ==> !b
    ensures b <==> exists i :: (0 <= i < |gifs| && gifs[i].id == currentItem.id &&
      (forall j :: 0 <= j < i ==> gifs[j].id != currentItem.id) && i >= |gifs| - 5)
  {
    match FirstIndexFrom(gifs, currentItem.id, 0)
    case None => false
    case Some(i) => i >= |gifs| - 5
  }

  /** With distinct ids, the item at index `i` asks for more exactly when it
      is one of the last five. */
  lemma ShouldLoadMoreAt(gifs: seq<GifItem>, i: nat)
    requires i < |gifs|
    requires forall j, k :: 0 <= j < k < |gifs| ==> gifs[j].id != gifs[k].id
    ensures ShouldLoadMore(gifs, gifs[i]) <==> i >= |gifs| - 5
  {
    var r := FirstIndexFrom(gifs, gifs[i].id, 0);
    assert r == Some(i);
  }

  /** `errorDisplayMessage`: the recorded message, or the default text. */
  function ErrorDisplayMessage(errorMessage: Option<string>): (m: string)
    ensures errorMessage.None? ==> m == DefaultErrorMessage
    ensures errorMessage.Some? ==> m == errorMessage.value
  {
    match errorMessage
    case None => DefaultErrorMessage
    case Some(message) => message
  }

  /** In a valid state the default text is shown whenever no error is flagged,
      and a flagged error shows its own message. */
  lemma ErrorMessageShown(f: Feed)
    requires Valid(f)
    ensures !f.hasError ==> ErrorDisplayMessage(f.errorMessage) == DefaultErrorMessage
    ensures f.hasError ==> ErrorDisplayMessage(f.errorMessage) == f.errorMessage.value
  {
  }

  class DynamicMediaViewModel {
    var gifs: seq<GifItem>
    var isLoading: bool
    var hasError: bool
    var errorMessage: Option<string>
    var hasMorePages: bool
    var searchQuery: string
    var currentPage: int

    function State(): Feed
      reads this
    {
      Feed(gifs, isLoading, hasError, errorMessage, hasMorePages, searchQuery, currentPage)
    }

    constructor()
      ensures State() == Initial && Valid(State())
    {
      gifs := [];
      isLoading := false;
      hasError := false;
      errorMessage := None;
      hasMorePages := true;
      searchQuery := "";
      currentPage := 1;
    }

    /** `loadTrendingGifs` up to its request. */
    method LoadTrendingGifs() returns (request: Option<Request>)
      modifies this
      ensures (State(), request) == LoadTrending(old(State()))
    {
      request := None;
      if !(!isLoading && hasMorePages) {
        return;
      }
      isLoading := true;
      hasError := false;
      errorMessage := None;
      request := Some(Trending(currentPage, PerPage));
    }

    /** `searchGifs(query:)` up to its request. */
    method SearchGifsFor(query: string) returns (request: Option<Request>)
      modifies this
      ensures (State(), request) == SearchGifs(old(State()), query)
    {
      if query == "" {
        currentPage := 1;
        request := LoadTrendingGifs();
        return;
      }
      isLoading := true;
      hasError := false;
      errorMessage := None;
      request := Some(Search(query, currentPage, PerPage));
    }

    method LoadCurrentQuery() returns (request: Option<Request>)
      modifies this
      ensures (State(), request) == LoadCurrent(old(State()))
    {
      if searchQuery == "" {
        request := LoadTrendingGifs();
      } else {
        request := SearchGifsFor(searchQuery);
      }
    }

    /** `loadNextPageIfNeeded` up to its request. */
    method LoadNextPage() returns (request: Option<Request>)
      modifies this
      ensures (State(), request) == LoadNextPageIfNeeded(old(State()))
    {
      request := None;
      if !(!isLoading && hasMorePages) {
        return;
      }
      request := LoadCurrentQuery();
    }

    /** `refresh` up to its request. */
    method RefreshFeed() returns (request: Option<Request>)
      modifies this
      ensures (State(), request) == Refresh(old(State()))
    {
      currentPage := 1;
      hasMorePages := true;
      request := LoadCurrentQuery();
    }

    /** `updateSearchQuery`, with the search its task starts. */
    method UpdateQuery(query: string) returns (request: Option<Request>)
      modifies this
      ensures (State(), request) == UpdateSearchQuery(old(State()), query)
    {
      searchQuery := query;
      currentPage := 1;
      hasMorePages := true;
      request := SearchGifsFor(query);
    }

    /** `retry` up to its request. */
    method RetryLoad() returns (request: Option<Request>)
      modifies this
      ensures (State(), request) == Retry(old(State()))
    {
      request := LoadCurrentQuery();
    }

    /** The completion of a load whose response arrived. */
    method LoadSucceeded(data: seq<GifItem>, hasNext: bool)
      modifies this
      ensures State() == Succeeded(old(State()), data, hasNext)
    {
      if currentPage == 1 {
        gifs := data;
      } else {
        gifs := gifs + data;
      }
      hasMorePages := hasNext;
      currentPage := currentPage + 1;
      isLoading := false;
    }

    /** The completion of a load whose request failed. */
    method LoadFailed(message: string)
      modifies this
      ensures State() == Failed(old(State()), message)
    {
      hasError := true;
      errorMessage := Some(message);
      isLoading := false;
    }
  }
}
