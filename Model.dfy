/** The records of the client (table rows and API envelopes), the outcome of a
    remote call, and the `Result` every repository operation returns. */
module Model {
  import opened Kotlin

  /** A row of the `videos` table; `id` is the primary key. */
  datatype VideoItem = VideoItem(
    id: string,
    coverUrl: string,
    videoUrl: string,
    title: string,
    description: string,
    authorName: string,
    authorAvatar: string,
    likeCount: int32,
    commentCount: int32,
    shareCount: int32,
    width: int32,
    height: int32,
    category: string,
    timestamp: int,
    isLiked: bool)

  /** A row of the `comments` table; `id` is the primary key and `videoId`
      refers to a video without being enforced. */
  datatype Comment = Comment(
    id: string,
    videoId: string,
    userId: string,
    userName: string,
    avatarUrl: string,
    content: string,
    timestamp: int,
    likeCount: int32)

  /** Primary keys and the `timestamp` column that orders query results. */
  function VideoKey(v: VideoItem): string { v.id }
  function CommentKey(c: Comment): string { c.id }
  function VideoTime(v: VideoItem): int { v.timestamp }
  function CommentTime(c: Comment): int { c.timestamp }

  /** The envelope every endpoint answers with; `data` may be null. */
  datatype ApiResponse<T> = ApiResponse(code: int32, message: string, data: Option<T>)

  datatype VideoListResponse = VideoListResponse(videos: seq<VideoItem>, hasMore: bool, nextPage: int32)
  datatype CommentListResponse = CommentListResponse(comments: seq<Comment>, hasMore: bool, nextPage: int32)

  /** An exception thrown by a remote call (transport fault, decoding error, ...),
      known only by its nullable message. */
  datatype Fault = Fault(message: Option<string>)

  /** What one call of the remote API does: it answers with an envelope, or it
      throws. Which of the two happens is decided by the server, so the model
      receives it as an input. */
  datatype CallOutcome<T> = Replied(response: ApiResponse<T>) | Threw(fault: Fault)

  /** The exception carried by a failed `Result`: one built from the envelope's
      message, or the exception the remote call threw. */
  datatype Error = ServerMessage(message: string) | Thrown(fault: Fault)

  /** Kotlin's `Result<T>`. */
  datatype Result<T> = Success(value: T) | Failure(error: Error)

  /** The list endpoints' success test: `code == 200 && data != null`. */
  predicate Delivered<T>(o: CallOutcome<T>)
  {
    o.Replied? && o.response.code == 200 && o.response.data.Some?
  }

  /** The like endpoints' success test, which ignores `data`: `code == 200`. */
  predicate Acknowledged<T>(o: CallOutcome<T>)
  {
    o.Replied? && o.response.code == 200
  }

  /** The failure a repository reports for an unsuccessful call: an exception
      with the envelope's message, or the thrown exception itself. */
  function FailureOf<T>(o: CallOutcome<T>): (e: Error)
    ensures o.Replied? ==> e == ServerMessage(o.response.message)
    ensures o.Threw? ==> e == Thrown(o.fault)
  {
    match o
    case Replied(r) => ServerMessage(r.message)
    case Threw(f) => Thrown(f)
  }

  /** The cache fallback of both list repositories: the cached page when it is
      non-empty, the failure otherwise. */
  function FromCache<T>(cached: seq<T>, failure: Error): (r: Result<seq<T>>)
    ensures r.Success? <==> |cached| > 0
    ensures r.Success? ==> r.value == cached
    ensures r.Failure? ==> r.error == failure
  {
    if |cached| > 0 then Success(cached) else Failure(failure)
  }

  /** `copy(isLiked = true, likeCount = likeCount + 1)`, with `Int` overflow. */
  function Liked(v: VideoItem): (w: VideoItem)
    ensures w.isLiked
    ensures v.likeCount as int < IntMax ==> w.likeCount as int == v.likeCount as int + 1
    ensures w == v.(isLiked := true, likeCount := w.likeCount)
  {
    v.(isLiked := true, likeCount := Wrap32(v.likeCount as int + 1))
  }

  /** `copy(isLiked = false, likeCount = maxOf(0, likeCount - 1))`, with `Int`
      overflow of the subtraction. */
  function Unliked(v: VideoItem): (w: VideoItem)
    ensures !w.isLiked
    ensures w.likeCount >= 0
    ensures v.likeCount > 0 ==> w.likeCount as int == v.likeCount as int - 1
    ensures v.likeCount == 0 ==> w.likeCount == 0
    ensures w == v.(isLiked := false, likeCount := w.likeCount)
  {
    v.(isLiked := false, likeCount := MaxOf(0, Wrap32(v.likeCount as int - 1)))
  }

  /** Liking and then unliking restores a non-negative like count exactly
      (including at `Int.MAX_VALUE`, where the increment wraps and the
      decrement wraps back). */
  lemma LikeThenUnlikeRestores(v: VideoItem)
    requires v.likeCount >= 0
    ensures Unliked(Liked(v)) == v.(isLiked := false)
  {
    if v.likeCount as int == IntMax {
      assert Liked(v).likeCount as int == IntMin;
    }
  }

  /** Unliking and then liking restores a positive like count exactly; a count
      of 0 comes back as 1 because the decrement is floored at 0. */
  lemma UnlikeThenLikeRestores(v: VideoItem)
    ensures v.likeCount > 0 ==> Liked(Unliked(v)) == v.(isLiked := true)
    ensures v.likeCount == 0 ==> Liked(Unliked(v)).likeCount == 1
  {
  }

  /** The requests the client sends to the server. */
  datatype ApiRequest =
    | GetVideos(category: string, page: int32, size: int32)
    | GetComments(videoId: string, page: int32, size: int32)
    | PostComment(comment: Comment)
    | LikeVideo(videoId: string)
    | UnlikeVideo(videoId: string)
}
