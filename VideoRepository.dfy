/** The video repository: the network-first list policy with its cache
    fallback, and the read-modify-write of a like or an unlike.

    Each operation is first given as a function of the table's contents and of
    the server's answer (what the repository returns and what the table holds
    afterwards); the repository class then runs the DAO calls in the source's
    order and is proved to reach exactly that outcome. */
module VideoRepo {
  import opened Kotlin
  import opened Model
  import Paging
  import Table
  import VideoStore

  /** What a list call produces: its result, the table afterwards, and whether
      the remote endpoint was called. */
  datatype Fetch<T> = Fetch(result: Result<seq<T>>, table: map<string, T>, called: bool)

  /** The page-0 cache test of `getVideos`: not forced, page 0, and a
      non-empty cached first page. */
  predicate ServedFromCache(m: map<string, VideoItem>, category: string, page: int32, size: int32, forceRefresh: bool)
    requires Table.KeyedBy(m, VideoKey)
  {
    !forceRefresh && page == 0 && |VideoStore.CategoryPage(m, category, size, 0)| > 0
  }

  /** `getVideos(category, page, size, forceRefresh)` against table `m`, the
      server answering `reply` if it is asked. */
  function GetVideosOutcome(m: map<string, VideoItem>, category: string, page: int32, size: int32,
                            forceRefresh: bool, reply: CallOutcome<VideoListResponse>): (r: Fetch<VideoItem>)
    requires Table.KeyedBy(m, VideoKey)
    ensures Table.KeyedBy(r.table, VideoKey)
    ensures r.called <==> !ServedFromCache(m, category, page, size, forceRefresh)
    ensures r.result.Failure? ==> r.called && !Delivered(reply) && r.result.error == FailureOf(reply)
    ensures !(r.called && Delivered(reply)) ==> r.table == m
  {
    if ServedFromCache(m, category, page, size, forceRefresh) then
      Fetch(Success(VideoStore.CategoryPage(m, category, size, 0)), m, false)
    else if Delivered(reply) then
      var videos := reply.response.data.value.videos;
      var base := if page == 0 then VideoStore.WithoutCategory(m, category) else m;
      Table.UpsertAllKeyed(base, videos, VideoKey);
      Fetch(Success(videos), Table.UpsertAll(base, videos, VideoKey), true)
    else
      Fetch(FromCache(VideoStore.CategoryPage(m, category, size, Paging.PageOffset(page, size)), FailureOf(reply)), m, true)
  }

  /** A cache hit answers with the cached first page, without calling the
      server and without touching the table. */
  lemma CacheHitSkipsRemote(m: map<string, VideoItem>, category: string, size: int32, reply: CallOutcome<VideoListResponse>)
    requires Table.KeyedBy(m, VideoKey)
    requires |VideoStore.CategoryPage(m, category, size, 0)| > 0
    ensures GetVideosOutcome(m, category, 0, size, false, reply)
         == Fetch(Success(VideoStore.CategoryPage(m, category, size, 0)), m, false)
  {
  }

  /** When the server delivers, the result is exactly the delivered list, and
      each delivered video (the last one of the batch with its id) is
      afterwards the row stored under its id. */
  lemma DeliveredVideosRetrievable(m: map<string, VideoItem>, category: string, page: int32, size: int32,
                                   forceRefresh: bool, reply: CallOutcome<VideoListResponse>, i: nat)
    requires Table.KeyedBy(m, VideoKey)
    requires !ServedFromCache(m, category, page, size, forceRefresh) && Delivered(reply)
    requires i < |reply.response.data.value.videos|
    requires var vs := reply.response.data.value.videos;
      forall j :: i < j < |vs| ==> vs[j].id != vs[i].id
    ensures var r := GetVideosOutcome(m, category, page, size, forceRefresh, reply);
      && r.result == Success(reply.response.data.value.videos)
      && reply.response.data.value.videos[i].id in r.table
      && r.table[reply.response.data.value.videos[i].id] == reply.response.data.value.videos[i]
  {
    var vs := reply.response.data.value.videos;
    var base := if page == 0 then VideoStore.WithoutCategory(m, category) else m;
    Table.UpsertAllLastWins(base, vs, VideoKey, i);
  }

  /** A delivered first page replaces the category: afterwards every row of
      the category is one the server sent, and every other row of the table
      is as it was. */
  lemma FirstPageReplacesCategory(m: map<string, VideoItem>, category: string, size: int32,
                                  forceRefresh: bool, reply: CallOutcome<VideoListResponse>)
    requires Table.KeyedBy(m, VideoKey)
    requires !ServedFromCache(m, category, 0, size, forceRefresh) && Delivered(reply)
    ensures var r := GetVideosOutcome(m, category, 0, size, forceRefresh, reply);
      var sent := Table.KeysOf(reply.response.data.value.videos, VideoKey);
      && (forall k :: k in r.table && r.table[k].category == category ==> k in sent)
      && (forall k :: k in m && m[k].category == category && k !in sent ==> k !in r.table)
      && (forall k :: k in m && m[k].category != category && k !in sent ==> k in r.table && r.table[k] == m[k])
  {
    var vs := reply.response.data.value.videos;
    var base := VideoStore.WithoutCategory(m, category);
    var r := GetVideosOutcome(m, category, 0, size, forceRefresh, reply);
    assert r.table == Table.UpsertAll(base, vs, VideoKey);
  }

  /** A delivered later page deletes nothing: every row stays, and the rows the
      server did not send are unchanged. */
  lemma LaterPageKeepsRows(m: map<string, VideoItem>, category: string, page: int32, size: int32,
                           forceRefresh: bool, reply: CallOutcome<VideoListResponse>)
    requires Table.KeyedBy(m, VideoKey)
    requires page != 0 && Delivered(reply)
    ensures var r := GetVideosOutcome(m, category, page, size, forceRefresh, reply);
      var sent := Table.KeysOf(reply.response.data.value.videos, VideoKey);
      && m.Keys <= r.table.Keys
      && (forall k :: k in m && k !in sent ==> r.table[k] == m[k])
  {
  }

  /** Without a delivered answer (an error code, a null body or an exception)
      the result is the cached page at offset `page * size`, failing with the
      message or the exception only when that page is empty. */
  lemma UndeliveredFallsBack(m: map<string, VideoItem>, category: string, page: int32, size: int32,
                             forceRefresh: bool, reply: CallOutcome<VideoListResponse>)
    requires Table.KeyedBy(m, VideoKey)
    requires !ServedFromCache(m, category, page, size, forceRefresh) && !Delivered(reply)
    ensures var r := GetVideosOutcome(m, category, page, size, forceRefresh, reply);
      var cached := VideoStore.CategoryPage(m, category, size, Paging.PageOffset(page, size));
      && (r.result.Success? <==> |cached| > 0)
      && (r.result.Success? ==> r.result.value == cached)
  {
    var cached := VideoStore.CategoryPage(m, category, size, Paging.PageOffset(page, size));
    assert GetVideosOutcome(m, category, page, size, forceRefresh, reply).result
        == FromCache(cached, FailureOf(reply));
  }

  /** A forced refresh of page 0 that the server does not deliver falls back
      to the cached first page, the very page the cache test skipped. */
  lemma ForcedRefreshFallsBackToFirstPage(m: map<string, VideoItem>, category: string, size: int32,
                                          reply: CallOutcome<VideoListResponse>)
    requires Table.KeyedBy(m, VideoKey)
    requires !Delivered(reply)
    ensures var cached := VideoStore.CategoryPage(m, category, size, 0);
      GetVideosOutcome(m, category, 0, size, true, reply) == Fetch(FromCache(cached, FailureOf(reply)), m, true)
  {
    assert Paging.PageOffset(0, size) == 0;
  }

  /** What a like or an unlike produces: its result and the table afterwards. */
  datatype Toggle = Toggle(result: Result<bool>, table: map<string, VideoItem>)

  /** The read-modify-write both like operations share: on `code == 200` the
      stored row, when there is one, is replaced by `change` of it. */
  function ToggleOutcome<D>(m: map<string, VideoItem>, videoId: string, reply: CallOutcome<D>,
                            change: VideoItem -> VideoItem): (r: Toggle)
    requires Table.KeyedBy(m, VideoKey)
    requires forall v :: change(v).id == v.id
    ensures Table.KeyedBy(r.table, VideoKey)
    ensures r.result.Success? <==> Acknowledged(reply)
    ensures r.result.Success? ==> r.result.value
    ensures r.result.Failure? ==> r.result.error == FailureOf(reply) && r.table == m
    ensures r.table.Keys == m.Keys
    ensures forall k :: k in m && k != videoId ==> r.table[k] == m[k]
    ensures videoId in m ==> r.table[videoId] == if Acknowledged(reply) then change(m[videoId]) else m[videoId]
  {
    if Acknowledged(reply) then
      var table := if videoId in m then VideoStore.Updated(m, change(m[videoId])) else m;
      Toggle(Success(true), table)
    else
      Toggle(Failure(FailureOf(reply)), m)
  }

  /** `likeVideo(videoId)`. */
  function LikeOutcome<D>(m: map<string, VideoItem>, videoId: string, reply: CallOutcome<D>): (r: Toggle)
    requires Table.KeyedBy(m, VideoKey)
    ensures Table.KeyedBy(r.table, VideoKey)
    ensures r.result.Success? <==> Acknowledged(reply)
    ensures r.result.Failure? ==> r.result.error == FailureOf(reply) && r.table == m
    ensures videoId !in m ==> r.table == m
    ensures Acknowledged(reply) && videoId in m ==>
      videoId in r.table && r.table[videoId].isLiked && r.table[videoId] == Liked(m[videoId])
  {
    ToggleOutcome(m, videoId, reply, Liked)
  }

  /** `unlikeVideo(videoId)`: the stored count never becomes negative. */
  function UnlikeOutcome<D>(m: map<string, VideoItem>, videoId: string, reply: CallOutcome<D>): (r: Toggle)
    requires Table.KeyedBy(m, VideoKey)
    ensures Table.KeyedBy(r.table, VideoKey)
    ensures r.result.Success? <==> Acknowledged(reply)
    ensures r.result.Failure? ==> r.result.error == FailureOf(reply) && r.table == m
    ensures videoId !in m ==> r.table == m
    ensures Acknowledged(reply) && videoId in m ==>
      videoId in r.table && !r.table[videoId].isLiked && r.table[videoId] == Unliked(m[videoId])
    ensures forall k :: k in r.table && k in m && m[k].likeCount >= 0 ==> r.table[k].likeCount >= 0
  {
    ToggleOutcome(m, videoId, reply, Unliked)
  }

  /** A like and then an unlike, both acknowledged, restore a stored row with
      a non-negative count, apart from the flag, which ends up false. */
  lemma LikeThenUnlikeRestoresRow<D>(m: map<string, VideoItem>, videoId: string, reply: CallOutcome<D>)
    requires Table.KeyedBy(m, VideoKey)
    requires Acknowledged(reply) && videoId in m && m[videoId].likeCount >= 0
    ensures UnlikeOutcome(LikeOutcome(m, videoId, reply).table, videoId, reply).table
         == m[videoId := m[videoId].(isLiked := false)]
  {
    var once := LikeOutcome(m, videoId, reply).table;
    var twice := UnlikeOutcome(once, videoId, reply).table;
    LikeThenUnlikeRestores(m[videoId]);
    assert twice.Keys == m[videoId := m[videoId].(isLiked := false)].Keys;
  }

  class VideoRepository {
    /** The local store. */
    const dao: VideoStore.VideoDao
    /** The requests sent to the server, oldest first. */
    ghost var requests: seq<ApiRequest>

    ghost predicate Valid()
      reads this, dao
    {
      dao.Valid()
    }

    constructor (dao: VideoStore.VideoDao)
      requires dao.Valid()
      ensures Valid() && this.dao == dao && requests == []
    {
      this.dao := dao;
      requests := [];
    }

    /** `getVideos(category, page, size, forceRefresh)`; `reply` is what the
        server answers if it is asked. */
    method GetVideos(category: string, page: int32, size: int32, forceRefresh: bool,
                     reply: CallOutcome<VideoListResponse>) returns (result: Result<seq<VideoItem>>)
      requires Valid()
      modifies this, dao
      ensures Valid()
      ensures var r := GetVideosOutcome(old(dao.videos), category, page, size, forceRefresh, reply);
        && result == r.result
        && dao.videos == r.table
        && requests == old(requests) + if r.called then [ApiRequest.GetVideos(category, page, size)] else []
    {
      if !forceRefresh && page == 0 {
        var cached := dao.GetVideosByCategory(category, size, 0);
        if |cached| > 0 {
          return Success(cached);
        }
      }
      result := FetchVideos(category, page, size, forceRefresh, reply);
    }

    /** The network part of `getVideos`, reached when the cache test fails:
        ask the server, store a delivered list (clearing the category first
        for page 0), or fall back to the cached page at `page * size`. */
    method FetchVideos(category: string, page: int32, size: int32, forceRefresh: bool,
                       reply: CallOutcome<VideoListResponse>) returns (result: Result<seq<VideoItem>>)
      requires Valid()
      requires !ServedFromCache(dao.videos, category, page, size, forceRefresh)
      modifies this, dao
      ensures Valid()
      ensures var r := GetVideosOutcome(old(dao.videos), category, page, size, forceRefresh, reply);
        result == r.result && dao.videos == r.table
      ensures requests == old(requests) + [ApiRequest.GetVideos(category, page, size)]
    {
      ghost var m := dao.videos;
      requests := requests + [ApiRequest.GetVideos(category, page, size)];
      if reply.Replied? && reply.response.code == 200 && reply.response.data.Some? {
        var videos := reply.response.data.value.videos;
        if page == 0 {
          dao.DeleteVideosByCategory(category);
        }
        ghost var base := dao.videos;
        assert GetVideosOutcome(m, category, page, size, forceRefresh, reply)
            == Fetch(Success(videos), Table.UpsertAll(base, videos, VideoKey), true);
        dao.InsertVideos(videos);
        result := Success(videos);
      } else {
        var cached := dao.GetVideosByCategory(category, size, Paging.PageOffset(page, size));
        assert GetVideosOutcome(m, category, page, size, forceRefresh, reply)
            == Fetch(FromCache(cached, FailureOf(reply)), m, true);
        if |cached| > 0 {
          result := Success(cached);
        } else {
          result := Failure(FailureOf(reply));
        }
      }
    }

    /** `getVideoById(videoId)`: the stored row, null when there is none. */
    method GetVideoById(videoId: string) returns (r: Option<VideoItem>)
      requires Valid()
      ensures r.None? <==> videoId !in dao.videos
      ensures r.Some? ==> r.value == dao.videos[videoId]
    {
      r := dao.GetVideoById(videoId);
    }

    /** `updateVideo(video)`. */
    method UpdateVideo(video: VideoItem)
      requires Valid()
      modifies dao
      ensures Valid()
      ensures dao.videos == VideoStore.Updated(old(dao.videos), video)
    {
      dao.UpdateVideo(video);
    }

    /** `likeVideo(videoId)`. */
    method LikeVideo<D>(videoId: string, reply: CallOutcome<D>) returns (result: Result<bool>)
      requires Valid()
      modifies this, dao
      ensures Valid()
      ensures var r := LikeOutcome(old(dao.videos), videoId, reply);
        result == r.result && dao.videos == r.table
      ensures requests == old(requests) + [ApiRequest.LikeVideo(videoId)]
    {
      requests := requests + [ApiRequest.LikeVideo(videoId)];
      if reply.Replied? && reply.response.code == 200 {
        var video := dao.GetVideoById(videoId);
        if video.Some? {
          dao.UpdateVideo(Liked(video.value));
        }
        result := Success(true);
      } else {
        result := Failure(FailureOf(reply));
      }
    }

    /** `unlikeVideo(videoId)`. */
    method UnlikeVideo<D>(videoId: string, reply: CallOutcome<D>) returns (result: Result<bool>)
      requires Valid()
      modifies this, dao
      ensures Valid()
      ensures var r := UnlikeOutcome(old(dao.videos), videoId, reply);
        result == r.result && dao.videos == r.table
      ensures requests == old(requests) + [ApiRequest.UnlikeVideo(videoId)]
    {
      requests := requests + [ApiRequest.UnlikeVideo(videoId)];
      if reply.Replied? && reply.response.code == 200 {
        var video := dao.GetVideoById(videoId);
        if video.Some? {
          dao.UpdateVideo(Unliked(video.value));
        }
        result := Success(true);
      } else {
        result := Failure(FailureOf(reply));
      }
    }
  }
}
