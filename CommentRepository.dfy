/** The comment repository: the cache-first list policy of `getComments` and
    the optimistic `postComment`, which stores the new comment locally before
    it contacts the server. Given, like the video repository, first as
    functions of the table and the server's answer, then as a class that runs
    the DAO calls in the source's order. */
module CommentRepo {
  import opened Kotlin
  import opened Model
  import Paging
  import Table
  import CommentStore

  /** What a list call produces: its result, the table afterwards, and whether
      the remote endpoint was called. */
  datatype Fetch = Fetch(result: Result<seq<Comment>>, table: map<string, Comment>, called: bool)

  /** The page-0 cache test of `getComments`; there is no way to force a
      refresh. */
  predicate ServedFromCache(m: map<string, Comment>, videoId: string, page: int32, size: int32)
    requires Table.KeyedBy(m, CommentKey)
  {
    page == 0 && |CommentStore.CommentPage(m, videoId, size, 0)| > 0
  }

  /** `getComments(videoId, page, size)` against table `m`, the server
      answering `reply` if it is asked. */
  function GetCommentsOutcome(m: map<string, Comment>, videoId: string, page: int32, size: int32,
                              reply: CallOutcome<CommentListResponse>): (r: Fetch)
    requires Table.KeyedBy(m, CommentKey)
    ensures Table.KeyedBy(r.table, CommentKey)
    ensures r.called <==> !ServedFromCache(m, videoId, page, size)
    ensures r.result.Failure? ==> r.called && !Delivered(reply) && r.result.error == FailureOf(reply)
    ensures !(r.called && Delivered(reply)) ==> r.table == m
  {
    if ServedFromCache(m, videoId, page, size) then
      Fetch(Success(CommentStore.CommentPage(m, videoId, size, 0)), m, false)
    else if Delivered(reply) then
      var comments := reply.response.data.value.comments;
      var base := if page == 0 then CommentStore.WithoutVideo(m, videoId) else m;
      Table.UpsertAllKeyed(base, comments, CommentKey);
      Fetch(Success(comments), Table.UpsertAll(base, comments, CommentKey), true)
    else
      Fetch(FromCache(CommentStore.CommentPage(m, videoId, size, Paging.PageOffset(page, size)), FailureOf(reply)), m, true)
  }

  /** A non-empty cached first page is answered without calling the server
      and without touching the table. */
  lemma CacheHitSkipsRemote(m: map<string, Comment>, videoId: string, size: int32, reply: CallOutcome<CommentListResponse>)
    requires Table.KeyedBy(m, CommentKey)
    requires |CommentStore.CommentPage(m, videoId, size, 0)| > 0
    ensures GetCommentsOutcome(m, videoId, 0, size, reply)
         == Fetch(Success(CommentStore.CommentPage(m, videoId, size, 0)), m, false)
  {
  }

  /** When the server delivers, the result is exactly the delivered list, and
      each delivered comment (the last one of the batch with its id) is
      afterwards the row stored under its id. */
  lemma DeliveredCommentsRetrievable(m: map<string, Comment>, videoId: string, page: int32, size: int32,
                                     reply: CallOutcome<CommentListResponse>, i: nat)
    requires Table.KeyedBy(m, CommentKey)
    requires !ServedFromCache(m, videoId, page, size) && Delivered(reply)
    requires i < |reply.response.data.value.comments|
    requires var cs := reply.response.data.value.comments;
      forall j :: i < j < |cs| ==> cs[j].id != cs[i].id
    ensures var r := GetCommentsOutcome(m, videoId, page, size, reply);
      && r.result == Success(reply.response.data.value.comments)
      && reply.response.data.value.comments[i].id in r.table
      && r.table[reply.response.data.value.comments[i].id] == reply.response.data.value.comments[i]
  {
    var cs := reply.response.data.value.comments;
    var base := if page == 0 then CommentStore.WithoutVideo(m, videoId) else m;
    Table.UpsertAllLastWins(base, cs, CommentKey, i);
  }

  /** A delivered first page replaces the video's comments: afterwards every
      comment of the video is one the server sent, and the comments of other
      videos that the server did not send are as they were. */
  lemma FirstPageReplacesComments(m: map<string, Comment>, videoId: string, size: int32,
                                  reply: CallOutcome<CommentListResponse>)
    requires Table.KeyedBy(m, CommentKey)
    requires !ServedFromCache(m, videoId, 0, size) && Delivered(reply)
    ensures var r := GetCommentsOutcome(m, videoId, 0, size, reply);
      var sent := Table.KeysOf(reply.response.data.value.comments, CommentKey);
      && (forall k :: k in r.table && r.table[k].videoId == videoId ==> k in sent)
      && (forall k :: k in m && m[k].videoId == videoId && k !in sent ==> k !in r.table)
      && (forall k :: k in m && m[k].videoId != videoId && k !in sent ==> k in r.table && r.table[k] == m[k])
  {
    var cs := reply.response.data.value.comments;
    var base := CommentStore.WithoutVideo(m, videoId);
    var r := GetCommentsOutcome(m, videoId, 0, size, reply);
    assert r.table == Table.UpsertAll(base, cs, CommentKey);
  }

  /** Without a delivered answer the result is the cached page at offset
      `page * size`, failing with the message or the exception only when that
      page is empty. */
  lemma UndeliveredFallsBack(m: map<string, Comment>, videoId: string, page: int32, size: int32,
                             reply: CallOutcome<CommentListResponse>)
    requires Table.KeyedBy(m, CommentKey)
    requires !ServedFromCache(m, videoId, page, size) && !Delivered(reply)
    ensures var r := GetCommentsOutcome(m, videoId, page, size, reply);
      var cached := CommentStore.CommentPage(m, videoId, size, Paging.PageOffset(page, size));
      && (r.result.Success? <==> |cached| > 0)
      && (r.result.Success? ==> r.result.value == cached)
  {
    var cached := CommentStore.CommentPage(m, videoId, size, Paging.PageOffset(page, size));
    assert GetCommentsOutcome(m, videoId, page, size, reply).result
        == FromCache(cached, FailureOf(reply));
  }

  /** The default `userId` of `postComment`: `"user_"` and the clock reading. */
  function DefaultUserId(clock: int): (s: string)
    ensures |s| > 5 && s[..5] == "user_" && s[5..] == IntToString(clock)
  {
    "user_" + IntToString(clock)
  }

  /** The default `userName` of `postComment`: `"用户"` and a number drawn from
      1000..9999, which always has four digits. */
  function DefaultUserName(draw: int): (s: string)
    requires 1000 <= draw <= 9999
    ensures |s| == 6 && s[..2] == "用户" && IsDecimal(s[2..]) && DecimalValue(s[2..]) == draw
  {
    DecimalRoundTrip(draw);
    DigitCount(draw);
    "用户" + NatToString(draw)
  }

  /** The decimal rendering of a number in 1000..9999 has four digits. */
  lemma DigitCount(n: nat)
    requires 1000 <= n <= 9999
    ensures |NatToString(n)| == 4
  {
    assert NatToString(n) == NatToString(n / 10) + [DigitChar(n % 10)];
    assert NatToString(n / 10) == NatToString(n / 100) + [DigitChar(n / 10 % 10)];
    assert NatToString(n / 100) == NatToString(n / 1000) + [DigitChar(n / 100 % 10)];
    assert NatToString(n / 1000) == [DigitChar(n / 1000)];
  }

  /** The default `avatarUrl` of `postComment`. */
  const DefaultAvatarUrl: string := "https://picsum.photos/100"

  /** The comment `postComment` builds: a fresh id, the author, the text, the
      time of posting, and the default like count 0. */
  function LocalComment(id: string, videoId: string, content: string, userId: string,
                        userName: string, avatarUrl: string, now: int): (c: Comment)
    ensures c.id == id && c.videoId == videoId && c.content == content
    ensures c.userId == userId && c.userName == userName && c.avatarUrl == avatarUrl
    ensures c.timestamp == now && c.likeCount == 0
  {
    Comment(id, videoId, userId, userName, avatarUrl, content, now, 0)
  }

  /** What `postComment` produces: its result and the table afterwards. */
  datatype Post = Post(result: Result<Comment>, table: map<string, Comment>)

  /** `postComment` storing `local` against table `m`, the server answering
      `reply`. The result is always a success: the server's copy when it is
      delivered, the local comment otherwise; and only the local comment is
      ever stored. */
  function PostCommentOutcome(m: map<string, Comment>, local: Comment, reply: CallOutcome<Comment>): (r: Post)
    ensures r.result.Success?
    ensures Delivered(reply) ==> r.result.value == reply.response.data.value
    ensures !Delivered(reply) ==> r.result.value == local
    ensures r.table.Keys == m.Keys + {local.id}
    ensures r.table[local.id] == local
    ensures forall k :: k in m && k != local.id ==> r.table[k] == m[k]
    ensures Table.KeyedBy(m, CommentKey) ==> Table.KeyedBy(r.table, CommentKey)
  {
    var table := m[local.id := local];
    if Delivered(reply) then Post(Success(reply.response.data.value), table)
    else Post(Success(local), table)
  }

  /** Whatever the server answers, the table afterwards is the same: the
      outcome of the remote call never reaches the store. */
  lemma PostStoresLocalOnly(m: map<string, Comment>, local: Comment, a: CallOutcome<Comment>, b: CallOutcome<Comment>)
    ensures PostCommentOutcome(m, local, a).table == PostCommentOutcome(m, local, b).table
  {
  }

  class CommentRepository {
    /** The local store. */
    const dao: CommentStore.CommentDao
    /** The requests sent to the server, oldest first. */
    ghost var requests: seq<ApiRequest>
    /** The table as it stood when the last comment was sent to the server. */
    ghost var tableAtSend: map<string, Comment>

    ghost predicate Valid()
      reads this, dao
    {
      dao.Valid()
    }

    constructor (dao: CommentStore.CommentDao)
      requires dao.Valid()
      ensures Valid() && this.dao == dao && requests == []
    {
      this.dao := dao;
      requests := [];
      tableAtSend := map[];
    }

    /** `getComments(videoId, page, size)`; `reply` is what the server answers
        if it is asked. */
    method GetComments(videoId: string, page: int32, size: int32,
                       reply: CallOutcome<CommentListResponse>) returns (result: Result<seq<Comment>>)
      requires Valid()
      modifies this, dao
      ensures Valid()
      ensures var r := GetCommentsOutcome(old(dao.comments), videoId, page, size, reply);
        && result == r.result
        && dao.comments == r.table
        && requests == old(requests) + if r.called then [ApiRequest.GetComments(videoId, page, size)] else []
    {
      if page == 0 {
        var cached := dao.GetCommentsByVideoId(videoId, size, 0);
        if |cached| > 0 {
          return Success(cached);
        }
      }
      result := FetchComments(videoId, page, size, reply);
    }

    /** The network part of `getComments`, reached when the cache test fails. */
    method FetchComments(videoId: string, page: int32, size: int32,
                         reply: CallOutcome<CommentListResponse>) returns (result: Result<seq<Comment>>)
      requires Valid()
      requires !ServedFromCache(dao.comments, videoId, page, size)
      modifies this, dao
      ensures Valid()
      ensures var r := GetCommentsOutcome(old(dao.comments), videoId, page, size, reply);
        result == r.result && dao.comments == r.table
      ensures requests == old(requests) + [ApiRequest.GetComments(videoId, page, size)]
    {
      ghost var m := dao.comments;
      requests := requests + [ApiRequest.GetComments(videoId, page, size)];
      if reply.Replied? && reply.response.code == 200 && reply.response.data.Some? {
        var comments := reply.response.data.value.comments;
        if page == 0 {
          dao.DeleteCommentsByVideoId(videoId);
        }
        ghost var base := dao.comments;
        assert GetCommentsOutcome(m, videoId, page, size, reply)
            == Fetch(Success(comments), Table.UpsertAll(base, comments, CommentKey), true);
        dao.InsertComments(comments);
        result := Success(comments);
      } else {
        var cached := dao.GetCommentsByVideoId(videoId, size, Paging.PageOffset(page, size));
        assert GetCommentsOutcome(m, videoId, page, size, reply)
            == Fetch(FromCache(cached, FailureOf(reply)), m, true);
        if |cached| > 0 {
          result := Success(cached);
        } else {
          result := Failure(FailureOf(reply));
        }
      }
    }

    /** `postComment(videoId, content, userId, userName, avatarUrl)`: `id` is
        the random UUID, `now` the clock reading and `reply` the server's
        answer. The comment is stored before the request is sent. */
    method PostComment(videoId: string, content: string, userId: string, userName: string,
                       avatarUrl: string, id: string, now: int, reply: CallOutcome<Comment>)
      returns (result: Result<Comment>)
      requires Valid()
      modifies this, dao
      ensures Valid()
      ensures var local := LocalComment(id, videoId, content, userId, userName, avatarUrl, now);
        var r := PostCommentOutcome(old(dao.comments), local, reply);
        && result == r.result
        && dao.comments == r.table
        && requests == old(requests) + [ApiRequest.PostComment(local)]
      ensures var local := LocalComment(id, videoId, content, userId, userName, avatarUrl, now);
        && tableAtSend == old(dao.comments)[local.id := local]
        && local.id in tableAtSend && tableAtSend[local.id] == local
    {
      var comment := Comment(id, videoId, userId, userName, avatarUrl, content, now, 0);
      dao.InsertComment(comment);
      tableAtSend := dao.comments;
      requests := requests + [ApiRequest.PostComment(comment)];
      if reply.Replied? && reply.response.code == 200 && reply.response.data.Some? {
        result := Success(reply.response.data.value);
      } else {
        result := Success(comment);
      }
    }
  }
}
