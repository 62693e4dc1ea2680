/** The comment sheet's view model: comment pages loaded from the mock
    generator, and posting through the comment repository with the posted
    comment put on top of the list. As for the feed, each call (with its
    launched coroutine) is one step of `CommentState`. */
module Comments {
  import opened Kotlin
  import opened Model
  import MockData
  import CommentRepo

  /** Comments generated per load. */
  const PageSize: int32 := 20

  /** The observable values (null before the first assignment) and the
      private fields. */
  datatype CommentState = CommentState(
    commentList: Option<seq<Comment>>,
    isLoading: Option<bool>,
    postSuccess: Option<bool>,
    currentVideoId: Option<string>,
    currentPage: int32)

  function Initial(): CommentState
  {
    CommentState(None, None, None, None, 0)
  }

  /** The list on screen; no list yet reads as the empty list. */
  function Shown(s: CommentState): seq<Comment>
  {
    s.commentList.GetOr([])
  }

  /** `loadComments(videoId, refresh)`, `draws` being what the twenty
      generated comments consume. `currentPage` is counted in 32-bit
      arithmetic and nothing bounds it. */
  function CommentsLoaded(s: CommentState, videoId: string, refresh: bool, draws: seq<MockData.CommentDraw>): (t: CommentState)
    requires |draws| == PageSize as int
    ensures Shown(t) == (if refresh then [] else Shown(s)) + MockData.GenerateComments(videoId, PageSize, draws)
    ensures |Shown(t)| == (if refresh then 0 else |Shown(s)|) + PageSize as int
    ensures t.isLoading == Some(false)
    ensures refresh ==> t.currentPage == 1 && t.currentVideoId == Some(videoId)
    ensures !refresh ==> t.currentPage == Wrap32(s.currentPage as int + 1) && t.currentVideoId == s.currentVideoId
    ensures t.postSuccess == s.postSuccess
  {
    var page := if refresh then 0 else s.currentPage;
    var current := if refresh then Some(videoId) else s.currentVideoId;
    var list := (if refresh then [] else Shown(s)) + MockData.GenerateComments(videoId, PageSize, draws);
    CommentState(Some(list), Some(false), s.postSuccess, current, Wrap32(page as int + 1))
  }

  /** After a refresh the sheet shows twenty comments of that video only,
      newest first when the clock is steady. */
  lemma RefreshShowsVideo(s: CommentState, videoId: string, draws: seq<MockData.CommentDraw>, i: nat, j: nat)
    requires |draws| == PageSize as int && MockData.SteadyClock(draws)
    requires i < j < PageSize as int
    ensures var shown := Shown(CommentsLoaded(s, videoId, true, draws));
      && shown[i].videoId == videoId && shown[j].videoId == videoId
      && shown[i].timestamp > shown[j].timestamp
  {
    var generated := MockData.GenerateComments(videoId, PageSize, draws);
    var shown := Shown(CommentsLoaded(s, videoId, true, draws));
    assert [] + generated == generated;
    assert shown[i] == generated[i] && shown[j] == generated[j];
    MockData.CommentTimestampsDecrease(videoId, PageSize, draws, i, j);
  }

  /** What a finished `postComment` coroutine does with the repository's
      result. */
  function AfterPost(s: CommentState, result: Result<Comment>): (t: CommentState)
    ensures result.Success? ==> Shown(t) == [result.value] + Shown(s) && t.postSuccess == Some(true)
    ensures result.Failure? ==> Shown(t) == Shown(s) && t.postSuccess == Some(false)
    ensures t.isLoading == s.isLoading && t.currentPage == s.currentPage && t.currentVideoId == s.currentVideoId
  {
    match result
    case Success(c) => s.(commentList := Some([c] + Shown(s)), postSuccess := Some(true))
    case Failure(_) => s.(postSuccess := Some(false))
  }

  /** A posted comment goes on top: it is shown first and the earlier list
      follows it unchanged. */
  lemma PostedOnTop(s: CommentState, c: Comment)
    ensures var shown := Shown(AfterPost(s, Success(c)));
      && |shown| == |Shown(s)| + 1
      && shown[0] == c
      && forall i :: 0 <= i < |Shown(s)| ==> shown[i + 1] == Shown(s)[i]
  {
  }

  class CommentViewModel {
    const repository: CommentRepo.CommentRepository
    var commentList: Option<seq<Comment>>
    var isLoading: Option<bool>
    var postSuccess: Option<bool>
    var currentVideoId: Option<string>
    var currentPage: int32

    ghost predicate Valid()
      reads this, repository, repository.dao
    {
      repository.Valid()
    }

    /** The view-model fields as one state. */
    function State(): CommentState
      reads this
    {
      CommentState(commentList, isLoading, postSuccess, currentVideoId, currentPage)
    }

    constructor (repository: CommentRepo.CommentRepository)
      requires repository.Valid()
      ensures Valid() && this.repository == repository && State() == Initial()
    {
      this.repository := repository;
      commentList := None;
      isLoading := None;
      postSuccess := None;
      currentVideoId := None;
      currentPage := 0;
    }

    /** `loadComments(videoId, refresh)`. */
    method LoadComments(videoId: string, refresh: bool, draws: seq<MockData.CommentDraw>)
      requires |draws| == PageSize as int
      modifies this
      ensures State() == CommentsLoaded(old(State()), videoId, refresh, draws)
    {
      if refresh {
        currentPage := 0;
        currentVideoId := Some(videoId);
      }
      isLoading := Some(true);
      // the body of the launched coroutine
      var mockComments := MockData.GenerateComments(videoId, PageSize, draws);
      var currentList := if refresh then [] else commentList.GetOr([]);
      commentList := Some(currentList + mockComments);
      currentPage := Wrap32(currentPage as int + 1);
      // finally
      isLoading := Some(false);
    }

    /** `postComment(videoId, content)`, posting with the repository's default
        author: `clock` and `userNumber` are what those defaults read, `id`,
        `now` and `reply` what the repository's own call consumes. Blank
        content is dropped before anything happens. */
    method PostComment(videoId: string, content: string, clock: int, userNumber: int,
                       id: string, now: int, reply: CallOutcome<Comment>)
      requires Valid()
      requires 1000 <= userNumber <= 9999
      modifies this, repository, repository.dao
      ensures Valid()
      ensures IsBlank(content) ==>
        && State() == old(State())
        && repository.dao.comments == old(repository.dao.comments)
        && repository.requests == old(repository.requests)
      ensures !IsBlank(content) ==>
        var local := CommentRepo.LocalComment(id, videoId, content, CommentRepo.DefaultUserId(clock),
                                              CommentRepo.DefaultUserName(userNumber), CommentRepo.DefaultAvatarUrl, now);
        var r := CommentRepo.PostCommentOutcome(old(repository.dao.comments), local, reply);
        && State() == AfterPost(old(State()), r.result)
        && repository.dao.comments == r.table
        && repository.requests == old(repository.requests) + [ApiRequest.PostComment(local)]
    {
      if IsBlank(content) {
        return;
      }
      // the body of the launched coroutine
      var result := repository.PostComment(videoId, content, CommentRepo.DefaultUserId(clock),
                                           CommentRepo.DefaultUserName(userNumber), CommentRepo.DefaultAvatarUrl,
                                           id, now, reply);
      if result.Success? {
        var currentList := commentList.GetOr([]);
        commentList := Some([result.value] + currentList);
      }
      postSuccess := Some(result.Success?);
    }
  }
}
