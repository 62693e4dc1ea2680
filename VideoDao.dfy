/** The `videos` table and every query of its data-access object.

    The queries are defined on the table's contents (a map from primary key to
    row), so that what is proved about them does not depend on the heap; the
    DAO class holds the table and answers its queries through them. */
module VideoStore {
  import opened Kotlin
  import opened Model
  import Paging
  import Table

  /** The timestamps of the rows of one category, by primary key. */
  function CategoryTimestamps(m: map<string, VideoItem>, category: string): (ts: map<string, int>)
    ensures forall k :: k in ts <==> k in m && m[k].category == category
    ensures forall k :: k in ts ==> ts[k] == m[k].timestamp
  {
    map k | k in m && m[k].category == category :: m[k].timestamp
  }

  /** The number of rows of a category. */
  function CategorySize(m: map<string, VideoItem>, category: string): nat
  {
    |CategoryTimestamps(m, category).Keys|
  }

  /** The rows of a category in `ORDER BY timestamp DESC` order, one per
      primary key of the category. */
  function CategoryRows(m: map<string, VideoItem>, category: string): (r: seq<VideoItem>)
    requires Table.KeyedBy(m, VideoKey)
    ensures |r| == CategorySize(m, category)
    ensures forall i :: 0 <= i < |r| ==>
      r[i].category == category && r[i].id in m && m[r[i].id] == r[i]
  {
    Table.Lookup(m, Paging.OrderedKeys(CategoryTimestamps(m, category)))
  }

  /** No row of the category is missing from CategoryRows. */
  lemma CategoryRowsComplete(m: map<string, VideoItem>, category: string, k: string)
    requires Table.KeyedBy(m, VideoKey)
    requires k in m && m[k].category == category
    ensures m[k] in CategoryRows(m, category)
  {
    var ks := Paging.OrderedKeys(CategoryTimestamps(m, category));
    Paging.OrderedKeysComplete(CategoryTimestamps(m, category), k);
    var i :| 0 <= i < |ks| && ks[i] == k;
    assert CategoryRows(m, category)[i] == m[k];
  }

  /** The rows of a category are in result order: distinct, timestamps never
      increasing, equal timestamps in ascending id order. */
  lemma CategoryRowsRanked(m: map<string, VideoItem>, category: string)
    requires Table.KeyedBy(m, VideoKey)
    ensures Paging.Ranked(CategoryRows(m, category), VideoTime, VideoKey)
  {
    var ts := CategoryTimestamps(m, category);
    var ks := Paging.OrderedKeys(ts);
    var r := CategoryRows(m, category);
    forall i, j | 0 <= i < j < |r|
      ensures r[i].id != r[j].id && r[i].timestamp >= r[j].timestamp
      ensures r[i].timestamp == r[j].timestamp ==> Paging.IdBefore(r[i].id, r[j].id)
    {
      Paging.OrderedKeysSorted(ts, i, j);
      assert r[i] == m[ks[i]] && r[j] == m[ks[j]];
    }
  }

  /** The page `getVideosByCategory(category, limit, offset)` returns: rows of
      the category only, the window of CategoryRows that LIMIT and OFFSET
      select. */
  function CategoryPage(m: map<string, VideoItem>, category: string, limit: int32, offset: int32): (r: seq<VideoItem>)
    requires Table.KeyedBy(m, VideoKey)
    ensures |r| == Paging.PageLength(CategorySize(m, category), limit as int, offset as int)
    ensures forall i :: 0 <= i < |r| ==>
      r[i].category == category && r[i].id in m && m[r[i].id] == r[i]
    ensures forall i :: 0 <= i < |r| ==> r[i] == CategoryRows(m, category)[Paging.WindowStart(offset as int) + i]
    ensures Paging.Ranked(r, VideoTime, VideoKey)
  {
    CategoryRowsRanked(m, category);
    Paging.WindowRanked(CategoryRows(m, category), VideoTime, VideoKey, limit as int, offset as int);
    Paging.Window(CategoryRows(m, category), limit as int, offset as int)
  }

  /** The table after `DELETE FROM videos WHERE category = :category`. */
  function WithoutCategory(m: map<string, VideoItem>, category: string): (r: map<string, VideoItem>)
    ensures forall k :: k in r <==> k in m && m[k].category != category
    ensures forall k :: k in r ==> r[k] == m[k]
  {
    map k | k in m && m[k].category != category :: m[k]
  }

  /** The table after `DELETE FROM videos WHERE timestamp < :timestamp`: rows
      exactly as old as the bound stay. */
  function WithoutOlderThan(m: map<string, VideoItem>, timestamp: int): (r: map<string, VideoItem>)
    ensures forall k :: k in r <==> k in m && m[k].timestamp >= timestamp
    ensures forall k :: k in r ==> r[k] == m[k]
  {
    map k | k in m && m[k].timestamp >= timestamp :: m[k]
  }

  /** The table after `@Update`: the row with the same primary key is replaced;
      without such a row nothing changes. */
  function Updated(m: map<string, VideoItem>, v: VideoItem): (r: map<string, VideoItem>)
    ensures r.Keys == m.Keys
    ensures forall k :: k in r && k != v.id ==> r[k] == m[k]
    ensures v.id in m ==> r[v.id] == v
  {
    if v.id in m then m[v.id := v] else m
  }

  class VideoDao {
    /** The rows of the table, by primary key. */
    var videos: map<string, VideoItem>

    ghost predicate Valid()
      reads this
    {
      Table.KeyedBy(videos, VideoKey)
    }

    constructor ()
      ensures Valid() && videos == map[]
    {
      videos := map[];
    }

    /** `getVideosByCategory(category, limit, offset)`: the CategoryPage of the
        current table. */
    function GetVideosByCategory(category: string, limit: int32, offset: int32): (r: seq<VideoItem>)
      reads this
      requires Valid()
      ensures |r| == Paging.PageLength(CategorySize(videos, category), limit as int, offset as int)
      ensures forall i :: 0 <= i < |r| ==> r[i].category == category && r[i].id in videos && videos[r[i].id] == r[i]
    {
      CategoryPage(videos, category, limit, offset)
    }

    /** `getVideoById(videoId)`: null exactly when no row has that id. */
    function GetVideoById(videoId: string): (r: Option<VideoItem>)
      reads this
      requires Valid()
      ensures r.None? <==> videoId !in videos
      ensures r.Some? ==> r.value == videos[videoId] && r.value.id == videoId
    {
      if videoId in videos then Some(videos[videoId]) else None
    }

    /** `insertVideos(videos)` with REPLACE on conflict. */
    method InsertVideos(vs: seq<VideoItem>)
      requires Valid()
      modifies this
      ensures Valid()
      ensures videos == Table.UpsertAll(old(videos), vs, VideoKey)
    {
      Table.UpsertAllKeyed(videos, vs, VideoKey);
      videos := Table.UpsertAll(videos, vs, VideoKey);
    }

    /** `insertVideo(video)` with REPLACE on conflict: whatever row had the id,
        of whatever category, is replaced. */
    method InsertVideo(v: VideoItem)
      requires Valid()
      modifies this
      ensures Valid()
      ensures videos == old(videos)[v.id := v]
    {
      videos := videos[v.id := v];
    }

    /** `updateVideo(video)`. */
    method UpdateVideo(v: VideoItem)
      requires Valid()
      modifies this
      ensures Valid()
      ensures videos == Updated(old(videos), v)
    {
      videos := Updated(videos, v);
    }

    /** `deleteVideosByCategory(category)`. */
    method DeleteVideosByCategory(category: string)
      requires Valid()
      modifies this
      ensures Valid()
      ensures videos == WithoutCategory(old(videos), category)
    {
      videos := WithoutCategory(videos, category);
    }

    /** `deleteOldVideos(timestamp)`. */
    method DeleteOldVideos(timestamp: int)
      requires Valid()
      modifies this
      ensures Valid()
      ensures videos == WithoutOlderThan(old(videos), timestamp)
    {
      videos := WithoutOlderThan(videos, timestamp);
    }
  }
}
