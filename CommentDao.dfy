/** The `comments` table and every query of its data-access object, defined on
    the table's contents as for the `videos` table. */
module CommentStore {
  import opened Kotlin
  import opened Model
  import Paging
  import Table

  /** The timestamps of the comments of one video, by primary key. */
  function VideoTimestamps(m: map<string, Comment>, videoId: string): (ts: map<string, int>)
    ensures forall k :: k in ts <==> k in m && m[k].videoId == videoId
    ensures forall k :: k in ts ==> ts[k] == m[k].timestamp
  {
    map k | k in m && m[k].videoId == videoId :: m[k].timestamp
  }

  /** The number of comments of a video. */
  function CommentCount(m: map<string, Comment>, videoId: string): nat
  {
    |VideoTimestamps(m, videoId).Keys|
  }

  /** The comments of a video in `ORDER BY timestamp DESC` order, one per
      primary key. */
  function VideoRows(m: map<string, Comment>, videoId: string): (r: seq<Comment>)
    requires Table.KeyedBy(m, CommentKey)
    ensures |r| == CommentCount(m, videoId)
    ensures forall i :: 0 <= i < |r| ==>
      r[i].videoId == videoId && r[i].id in m && m[r[i].id] == r[i]
  {
    Table.Lookup(m, Paging.OrderedKeys(VideoTimestamps(m, videoId)))
  }

  /** No comment of the video is missing from VideoRows. */
  lemma VideoRowsComplete(m: map<string, Comment>, videoId: string, k: string)
    requires Table.KeyedBy(m, CommentKey)
    requires k in m && m[k].videoId == videoId
    ensures m[k] in VideoRows(m, videoId)
  {
    var ks := Paging.OrderedKeys(VideoTimestamps(m, videoId));
    Paging.OrderedKeysComplete(VideoTimestamps(m, videoId), k);
    var i :| 0 <= i < |ks| && ks[i] == k;
    assert VideoRows(m, videoId)[i] == m[k];
  }

  /** The comments of a video are in result order: distinct, timestamps never
      increasing, equal timestamps in ascending id order. */
  lemma VideoRowsRanked(m: map<string, Comment>, videoId: string)
    requires Table.KeyedBy(m, CommentKey)
    ensures Paging.Ranked(VideoRows(m, videoId), CommentTime, CommentKey)
  {
    var ts := VideoTimestamps(m, videoId);
    var ks := Paging.OrderedKeys(ts);
    var r := VideoRows(m, videoId);
    forall i, j | 0 <= i < j < |r|
      ensures r[i].id != r[j].id && r[i].timestamp >= r[j].timestamp
      ensures r[i].timestamp == r[j].timestamp ==> Paging.IdBefore(r[i].id, r[j].id)
    {
      Paging.OrderedKeysSorted(ts, i, j);
      assert r[i] == m[ks[i]] && r[j] == m[ks[j]];
    }
  }

  /** The page `getCommentsByVideoId(videoId, limit, offset)` returns:
      comments of that video only, the window of VideoRows that LIMIT and
      OFFSET select. */
  function CommentPage(m: map<string, Comment>, videoId: string, limit: int32, offset: int32): (r: seq<Comment>)
    requires Table.KeyedBy(m, CommentKey)
    ensures |r| == Paging.PageLength(CommentCount(m, videoId), limit as int, offset as int)
    ensures forall i :: 0 <= i < |r| ==>
      r[i].videoId == videoId && r[i].id in m && m[r[i].id] == r[i]
    ensures forall i :: 0 <= i < |r| ==> r[i] == VideoRows(m, videoId)[Paging.WindowStart(offset as int) + i]
    ensures Paging.Ranked(r, CommentTime, CommentKey)
  {
    VideoRowsRanked(m, videoId);
    Paging.WindowRanked(VideoRows(m, videoId), CommentTime, CommentKey, limit as int, offset as int);
    Paging.Window(VideoRows(m, videoId), limit as int, offset as int)
  }

  /** The table after `DELETE FROM comments WHERE videoId = :videoId`. */
  function WithoutVideo(m: map<string, Comment>, videoId: string): (r: map<string, Comment>)
    ensures forall k :: k in r <==> k in m && m[k].videoId != videoId
    ensures forall k :: k in r ==> r[k] == m[k]
  {
    map k | k in m && m[k].videoId != videoId :: m[k]
  }

  class CommentDao {
    /** The rows of the table, by primary key. */
    var comments: map<string, Comment>

    ghost predicate Valid()
      reads this
    {
      Table.KeyedBy(comments, CommentKey)
    }

    constructor ()
      ensures Valid() && comments == map[]
    {
      comments := map[];
    }

    /** `getCommentsByVideoId(videoId, limit, offset)`: the CommentPage of the
        current table. */
    function GetCommentsByVideoId(videoId: string, limit: int32, offset: int32): (r: seq<Comment>)
      reads this
      requires Valid()
      ensures |r| == Paging.PageLength(CommentCount(comments, videoId), limit as int, offset as int)
      ensures forall i :: 0 <= i < |r| ==> r[i].videoId == videoId && r[i].id in comments && comments[r[i].id] == r[i]
    {
      CommentPage(comments, videoId, limit, offset)
    }

    /** `insertComments(comments)` with REPLACE on conflict. */
    method InsertComments(cs: seq<Comment>)
      requires Valid()
      modifies this
      ensures Valid()
      ensures comments == Table.UpsertAll(old(comments), cs, CommentKey)
    {
      Table.UpsertAllKeyed(comments, cs, CommentKey);
      comments := Table.UpsertAll(comments, cs, CommentKey);
    }

    /** `insertComment(comment)` with REPLACE on conflict. */
    method InsertComment(c: Comment)
      requires Valid()
      modifies this
      ensures Valid()
      ensures comments == old(comments)[c.id := c]
    {
      comments := comments[c.id := c];
    }

    /** `deleteCommentsByVideoId(videoId)`. */
    method DeleteCommentsByVideoId(videoId: string)
      requires Valid()
      modifies this
      ensures Valid()
      ensures comments == WithoutVideo(old(comments), videoId)
    {
      comments := WithoutVideo(comments, videoId);
    }
  }
}
