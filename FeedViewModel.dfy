/** The feed screen's view model: paged loading from the mock generator, with
    a re-entry guard, a `hasMore` guard and a cap of five pages.

    A `launch` block runs to completion inside the call that starts it, so a
    load is one atomic step from one state to the next; `FeedState` is that
    state and `Loaded` the step. The class holds the same fields and is
    proved to take exactly that step. */
module Feed {
  import opened Kotlin
  import opened Model
  import MockData

  /** Videos generated per page, and the number of pages the mock feed has. */
  const PageSize: int32 := 20
  const LastPage: int32 := 5

  /** The observable values (`LiveData`, null before the first assignment) and
      the private paging fields. */
  datatype FeedState = FeedState(
    videoList: Option<seq<VideoItem>>,
    isLoading: Option<bool>,
    isRefreshing: Option<bool>,
    errorMessage: Option<string>,
    currentCategory: string,
    currentPage: int32,
    isLoadingMore: bool,
    hasMore: bool)

  /** The view model as constructed. */
  function Initial(): (s: FeedState)
    ensures s.videoList.None? && s.currentPage == 0 && s.hasMore && !s.isLoadingMore
  {
    FeedState(None, None, None, None, "recommend", 0, false, true)
  }

  /** The list on screen; no list yet reads as the empty list. */
  function Videos(s: FeedState): seq<VideoItem>
  {
    s.videoList.GetOr([])
  }

  /** What every reachable state satisfies: at most five pages loaded, twenty
      videos per loaded page, and more pages exactly while fewer than five are
      loaded. */
  predicate Inv(s: FeedState)
  {
    && 0 <= s.currentPage <= LastPage
    && s.hasMore == (s.currentPage < LastPage)
    && |Videos(s)| == PageSize as int * s.currentPage as int
  }

  lemma InitialInv()
    ensures Inv(Initial())
  {
  }

  /** The two early returns: a non-refresh load while a load is running, or
      when there is nothing more to load. */
  predicate Ignored(s: FeedState, refresh: bool)
  {
    (s.isLoadingMore && !refresh) || (!s.hasMore && !refresh)
  }

  /** The first index a load generates from: `currentPage * 20`, after a
      refresh has reset the page. */
  function StartIndex(s: FeedState, refresh: bool): (i: int32)
    requires Inv(s)
    ensures 0 <= i as int <= PageSize as int * LastPage as int
    ensures refresh ==> i == 0
    ensures !refresh ==> i as int == PageSize as int * s.currentPage as int
  {
    if refresh then 0 else s.currentPage * PageSize
  }

  /** `loadVideos(category, refresh)`, `draws` being what the twenty generated
      videos consume. The generator's exception cannot occur from a state
      satisfying Inv (its start index is never negative), so the `catch`
      branch is not part of the step. */
  function Loaded(s: FeedState, category: string, refresh: bool, draws: seq<MockData.VideoDraw>): (t: FeedState)
    requires Inv(s) && |draws| == PageSize as int
    ensures Inv(t)
    ensures Ignored(s, refresh) ==> t == s
    ensures !Ignored(s, refresh) ==>
      && t.currentCategory == category
      && t.currentPage as int == (if refresh then 0 else s.currentPage as int) + 1
      && t.hasMore == (t.currentPage < LastPage)
      && Videos(t) == (if refresh then [] else Videos(s))
                      + MockData.GenerateVideos(category, PageSize, StartIndex(s, refresh), draws)
      && t.isLoading == Some(false) && t.isRefreshing == Some(false) && !t.isLoadingMore
      && t.errorMessage.None?
  {
    if Ignored(s, refresh) then s
    else
      var page := if refresh then 0 else s.currentPage;
      var generated := MockData.GenerateVideos(category, PageSize, StartIndex(s, refresh), draws);
      var list := (if refresh then [] else Videos(s)) + generated;
      var next := page + 1;
      FeedState(Some(list), Some(false), Some(false), None, category, next, false, next < LastPage)
  }

  /** `refresh(category)`. */
  function Refreshed(s: FeedState, category: string, draws: seq<MockData.VideoDraw>): (t: FeedState)
    requires Inv(s) && |draws| == PageSize as int
    ensures Inv(t)
    ensures t.currentPage == 1 && t.hasMore && t.currentCategory == category
    ensures Videos(t) == MockData.GenerateVideos(category, PageSize, 0, draws)
  {
    Loaded(s, category, true, draws)
  }

  /** `loadMore()`: the next page of the current category. */
  function LoadedMore(s: FeedState, draws: seq<MockData.VideoDraw>): (t: FeedState)
    requires Inv(s) && |draws| == PageSize as int
    ensures Inv(t)
    ensures Videos(s) <= Videos(t)
    ensures t.currentPage as int == (if Ignored(s, false) then s.currentPage as int else s.currentPage as int + 1)
  {
    Loaded(s, s.currentCategory, false, draws)
  }

  /** A non-refresh load from a settled state (no load running) takes effect
      exactly when fewer than five pages are loaded. */
  lemma LoadMoreTakesEffect(s: FeedState, draws: seq<MockData.VideoDraw>)
    requires Inv(s) && !s.isLoadingMore && |draws| == PageSize as int
    ensures LoadedMore(s, draws) != s <==> s.currentPage < LastPage
  {
    if s.currentPage < LastPage {
      assert |Videos(LoadedMore(s, draws))| > |Videos(s)|;
    }
  }

  /** The pages of draws that successive `loadMore()` calls consume. */
  predicate PagesOfDraws(ds: seq<seq<MockData.VideoDraw>>)
  {
    forall i :: 0 <= i < |ds| ==> |ds[i]| == PageSize as int
  }

  /** `loadMore()` called once for each page of draws. */
  function LoadMoreEach(s: FeedState, ds: seq<seq<MockData.VideoDraw>>): (t: FeedState)
    requires Inv(s) && PagesOfDraws(ds)
    ensures Inv(t)
    decreases |ds|
  {
    if ds == [] then s else LoadMoreEach(LoadedMore(s, ds[0]), ds[1..])
  }

  /** However many times `loadMore()` runs after a settled state, at most five
      pages and so at most 100 videos accumulate, each call after the fifth
      page being ignored; the earlier list always stays a prefix. */
  lemma {:induction false} LoadMoreCapped(s: FeedState, ds: seq<seq<MockData.VideoDraw>>)
    requires Inv(s) && !s.isLoadingMore && PagesOfDraws(ds)
    ensures var t := LoadMoreEach(s, ds);
      && t.currentPage as int == (if s.currentPage as int + |ds| <= LastPage as int then s.currentPage as int + |ds| else LastPage as int)
      && |Videos(t)| <= PageSize as int * LastPage as int
      && Videos(s) <= Videos(t)
      && !t.isLoadingMore
    decreases |ds|
  {
    if ds != [] {
      var s' := LoadedMore(s, ds[0]);
      assert !s'.isLoadingMore;
      LoadMoreCapped(s', ds[1..]);
    }
  }

  class FeedViewModel {
    var videoList: Option<seq<VideoItem>>
    var isLoading: Option<bool>
    var isRefreshing: Option<bool>
    var errorMessage: Option<string>
    var currentCategory: string
    var currentPage: int32
    var isLoadingMore: bool
    var hasMore: bool

    /** The fields as one state. */
    function State(): FeedState
      reads this
    {
      FeedState(videoList, isLoading, isRefreshing, errorMessage, currentCategory, currentPage, isLoadingMore, hasMore)
    }

    constructor ()
      ensures State() == Initial()
    {
      videoList := None;
      isLoading := None;
      isRefreshing := None;
      errorMessage := None;
      currentCategory := "recommend";
      currentPage := 0;
      isLoadingMore := false;
      hasMore := true;
    }

    /** `loadVideos(category, refresh)`: the guards and the bookkeeping before
        the coroutine is launched, then the coroutine. */
    method LoadVideos(category: string, refresh: bool, draws: seq<MockData.VideoDraw>)
      requires Inv(State()) && |draws| == PageSize as int
      modifies this
      ensures State() == Loaded(old(State()), category, refresh, draws)
    {
      if isLoadingMore && !refresh {
        return;
      }
      if !hasMore && !refresh {
        return;
      }
      ghost var s := State();
      currentCategory := category;
      if refresh {
        currentPage := 0;
        hasMore := true;
        isRefreshing := Some(true);
      } else {
        isLoading := Some(true);
      }
      isLoadingMore := true;
      assert StartIndex(s, refresh) == currentPage * PageSize;
      LaunchedLoad(category, refresh, draws);
    }

    /** The coroutine `loadVideos` launches: append (or, on a refresh, set)
        the generated page, advance the page, and clear the loading flags. */
    method LaunchedLoad(category: string, refresh: bool, draws: seq<MockData.VideoDraw>)
      requires 0 <= currentPage < LastPage && |draws| == PageSize as int
      modifies this
      ensures var generated := MockData.GenerateVideos(category, PageSize, old(currentPage) * PageSize, draws);
        State() == FeedState(
          Some((if refresh then [] else old(videoList).GetOr([])) + generated),
          Some(false), Some(false), None, old(currentCategory), old(currentPage) + 1, false, old(currentPage) + 1 < LastPage)
    {
      var mockVideos := MockData.GenerateVideos(category, PageSize, currentPage * PageSize, draws);
      var currentList := if refresh then [] else videoList.GetOr([]);
      videoList := Some(currentList + mockVideos);
      currentPage := currentPage + 1;
      hasMore := currentPage < LastPage;
      errorMessage := None;
      // finally
      isLoading := Some(false);
      isRefreshing := Some(false);
      isLoadingMore := false;
    }

    /** `refresh(category)`. */
    method Refresh(category: string, draws: seq<MockData.VideoDraw>)
      requires Inv(State()) && |draws| == PageSize as int
      modifies this
      ensures State() == Refreshed(old(State()), category, draws)
    {
      LoadVideos(category, true, draws);
    }

    /** `loadMore()`. */
    method LoadMore(draws: seq<MockData.VideoDraw>)
      requires Inv(State()) && |draws| == PageSize as int
      modifies this
      ensures State() == LoadedMore(old(State()), draws)
    {
      LoadVideos(currentCategory, false, draws);
    }
  }
}
