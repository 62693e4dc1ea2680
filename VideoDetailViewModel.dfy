/** The video detail screen's view model: the video on screen, the play flag,
    and the like button, which asks the repository and then flips the local
    copy whatever the repository answered. */
module Detail {
  import opened Kotlin
  import opened Model
  import VideoRepo

  /** The observable values: the current video (null until one is set) and
      the play flag, which starts as `true`. */
  datatype DetailState = DetailState(currentVideo: Option<VideoItem>, isPlaying: Option<bool>)

  function Initial(): (s: DetailState)
    ensures s.currentVideo.None? && s.isPlaying == Some(true)
  {
    DetailState(None, Some(true))
  }

  /** `togglePlayState()`: negate the flag, an unset flag counting as `true`. */
  function PlayToggled(s: DetailState): (t: DetailState)
    ensures t.currentVideo == s.currentVideo && t.isPlaying.Some?
    ensures s.isPlaying.Some? ==> t.isPlaying.value != s.isPlaying.value
    ensures s.isPlaying.None? ==> t.isPlaying == Some(false)
  {
    s.(isPlaying := Some(!s.isPlaying.GetOr(true)))
  }

  /** Two toggles restore a set play flag, and set an unset one to `true`, the
      value it was read as. */
  lemma PlayToggledTwice(s: DetailState)
    ensures s.isPlaying.Some? ==> PlayToggled(PlayToggled(s)) == s
    ensures s.isPlaying.None? ==> PlayToggled(PlayToggled(s)) == s.(isPlaying := Some(true))
  {
  }

  /** The local copy `toggleLike` shows: a liked video becomes unliked with
      its count decremented but floored at 0, an unliked one liked with its
      count incremented (in `Int` arithmetic). */
  function Toggled(v: VideoItem): (w: VideoItem)
    ensures w == v.(isLiked := !v.isLiked, likeCount := w.likeCount)
    ensures v.isLiked ==> w.likeCount >= 0
    ensures v.isLiked && v.likeCount > 0 ==> w.likeCount as int == v.likeCount as int - 1
    ensures v.isLiked && v.likeCount == 0 ==> w.likeCount == 0
    ensures !v.isLiked && v.likeCount as int < IntMax ==> w.likeCount as int == v.likeCount as int + 1
  {
    if v.isLiked then Unliked(v) else Liked(v)
  }

  /** Starting unliked with a non-negative count, liking and unliking again
      gives back the same video, flag and count. */
  lemma {:induction false} ToggledTwiceRestores(v: VideoItem)
    requires !v.isLiked && v.likeCount >= 0
    ensures Toggled(Toggled(v)) == v
  {
    LikeThenUnlikeRestores(v);
  }

  /** `toggleLike()` as seen on screen: nothing without a current video,
      otherwise the toggled copy. */
  function LikeToggled(s: DetailState): (t: DetailState)
    ensures s.currentVideo.None? ==> t == s
    ensures s.currentVideo.Some? ==> t == s.(currentVideo := Some(Toggled(s.currentVideo.value)))
  {
    match s.currentVideo
    case None => s
    case Some(v) => s.(currentVideo := Some(Toggled(v)))
  }

  class VideoDetailViewModel {
    const repository: VideoRepo.VideoRepository
    var currentVideo: Option<VideoItem>
    var isPlaying: Option<bool>

    ghost predicate Valid()
      reads this, repository, repository.dao
    {
      repository.Valid()
    }

    /** The view-model fields as one state. */
    function State(): DetailState
      reads this
    {
      DetailState(currentVideo, isPlaying)
    }

    constructor (repository: VideoRepo.VideoRepository)
      requires repository.Valid()
      ensures Valid() && this.repository == repository && State() == Initial()
    {
      this.repository := repository;
      currentVideo := None;
      isPlaying := Some(true);
    }

    /** `setCurrentVideo(video)`. */
    method SetCurrentVideo(video: VideoItem)
      modifies this
      ensures State() == old(State()).(currentVideo := Some(video))
    {
      currentVideo := Some(video);
    }

    /** `togglePlayState()`. */
    method TogglePlayState()
      modifies this
      ensures State() == PlayToggled(old(State()))
    {
      isPlaying := Some(!isPlaying.GetOr(true));
    }

    /** `toggleLike()`, `reply` being what the server answers the like or
        unlike request. The repository's result is discarded, so the screen
        shows the toggled copy even when the server refused. */
    method ToggleLike<D>(reply: CallOutcome<D>)
      requires Valid()
      modifies this, repository, repository.dao
      ensures Valid()
      ensures State() == LikeToggled(old(State()))
      ensures old(currentVideo).None? ==>
        repository.dao.videos == old(repository.dao.videos) && repository.requests == old(repository.requests)
      ensures old(currentVideo).Some? && old(currentVideo).value.isLiked ==>
        var v := old(currentVideo).value;
        && repository.dao.videos == VideoRepo.UnlikeOutcome(old(repository.dao.videos), v.id, reply).table
        && repository.requests == old(repository.requests) + [ApiRequest.UnlikeVideo(v.id)]
      ensures old(currentVideo).Some? && !old(currentVideo).value.isLiked ==>
        var v := old(currentVideo).value;
        && repository.dao.videos == VideoRepo.LikeOutcome(old(repository.dao.videos), v.id, reply).table
        && repository.requests == old(repository.requests) + [ApiRequest.LikeVideo(v.id)]
    {
      if currentVideo.None? {
        return;
      }
      var video := currentVideo.value;
      // the body of the launched coroutine
      if video.isLiked {
        var _ := repository.UnlikeVideo(video.id, reply);
        currentVideo := Some(Unliked(video));
      } else {
        var _ := repository.LikeVideo(video.id, reply);
        currentVideo := Some(Liked(video));
      }
    }
  }
}
