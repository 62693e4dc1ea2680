/** The mock data generator both list screens load from: records built from
    their position in the requested index range, by cycling through fixed
    lists.

    Its random UUIDs, random counts and clock readings are drawn once per
    record; the model receives them as one "draw" per record, and states the
    ranges `(a..b).random()` guarantees as a predicate on the draws. */
module MockData {
  import opened Kotlin
  import opened Model

  const CoverUrls: seq<string> := [
    "https://picsum.photos/400/600?random=1",
    "https://picsum.photos/400/700?random=2",
    "https://picsum.photos/400/550?random=3",
    "https://picsum.photos/400/650?random=4",
    "https://picsum.photos/400/600?random=5",
    "https://picsum.photos/400/720?random=6",
    "https://picsum.photos/400/580?random=7",
    "https://picsum.photos/400/640?random=8",
    "https://picsum.photos/400/620?random=9",
    "https://picsum.photos/400/680?random=10"]

  const VideoUrls: seq<string> := [
    "https://www.w3schools.com/html/mov_bbb.mp4",
    "https://www.w3schools.com/html/movie.mp4",
    "https://interactive-examples.mdn.mozilla.net/media/cc0-videos/flower.mp4",
    "https://interactive-examples.mdn.mozilla.net/media/cc0-videos/flower.webm",
    "https://www.w3schools.com/html/mov_bbb.mp4",
    "https://www.w3schools.com/html/movie.mp4",
    "https://interactive-examples.mdn.mozilla.net/media/cc0-videos/flower.mp4",
    "https://www.w3schools.com/html/mov_bbb.mp4",
    "https://www.w3schools.com/html/movie.mp4",
    "https://interactive-examples.mdn.mozilla.net/media/cc0-videos/flower.mp4"]

  const Titles: seq<string> := [
    "太美了！这个地方一定要去",
    "今天的vlog分享给大家",
    "教你做最简单的美食",
    "这个技巧太实用了！",
    "我的日常生活记录",
    "分享一个超酷的发现",
    "旅行中的美好瞬间",
    "学会这个你就是大神",
    "超级治愈的一天",
    "必看！这个太有趣了"]

  const Descriptions: seq<string> := [
    "真的太好看了，大家一定要试试看！#推荐 #分享",
    "喜欢的话记得点赞关注哦❤️",
    "这是我最近发现的宝藏！",
    "简单易学，新手也能轻松掌握",
    "每天都要开心鸭🦆",
    "这个真的绝了！必须分享给你们",
    "生活需要仪式感✨",
    "治愈系的一天，心情美美哒",
    "快来一起体验吧！",
    "这个太酷了，必须安利！"]

  const AuthorNames: seq<string> := [
    "旅行达人小张", "美食博主李四", "摄影师王五", "生活家赵六",
    "Vlogger陈七", "探店小分队", "创意工作室", "日常记录者",
    "技能分享官", "快乐制造机"]

  /** The cover heights of the waterfall layout. */
  const Heights: seq<int32> := [600, 700, 550, 650, 720, 580, 640, 620, 680]

  const CommentContents: seq<string> := [
    "太好看了！", "赞赞赞👍", "爱了爱了❤️", "这个绝了",
    "哈哈哈笑死我了😂", "学到了！", "太厉害了吧", "我也要试试",
    "收藏了！", "必须关注", "第一次见到", "太治愈了",
    "超级喜欢", "感谢分享", "这也太酷了", "我的天哪",
    "真的假的？", "在哪里可以买", "求教程", "已经转发了"]

  /** The random and clock values one generated video consumes. */
  datatype VideoDraw = VideoDraw(id: string, likeCount: int32, commentCount: int32, shareCount: int32, clock: int)

  /** The ranges of the three `random()` calls. */
  predicate VideoDrawInRange(d: VideoDraw)
  {
    1000 <= d.likeCount <= 50000 && 100 <= d.commentCount <= 5000 && 50 <= d.shareCount <= 1000
  }

  /** The random and clock values one generated comment consumes. */
  datatype CommentDraw = CommentDraw(id: string, userNumber: int32, clock: int, likeCount: int32)

  predicate CommentDrawInRange(d: CommentDraw)
  {
    1000 <= d.userNumber <= 9999 && 0 <= d.likeCount <= 999
  }

  /** The number of indices in `startIndex until startIndex + count`, where the
      end is computed in 32-bit arithmetic (an overflowing end gives an empty
      range). */
  function RangeLength(startIndex: int32, count: int32): (n: nat)
    ensures IntMin <= startIndex as int + count as int <= IntMax ==> n == if count > 0 then count as int else 0
    ensures startIndex as int + n <= IntMax
  {
    var end := Wrap32(startIndex as int + count as int);
    if end > startIndex then end as int - startIndex as int else 0
  }

  /** The video at index `index`: every list is read at `index` modulo its
      length. */
  function MockVideo(category: string, index: nat, d: VideoDraw): (v: VideoItem)
    ensures v.id == d.id
    ensures v.coverUrl == CoverUrls[index % |CoverUrls|] && v.videoUrl == VideoUrls[index % |VideoUrls|]
    ensures v.title == Titles[index % |Titles|] && v.description == Descriptions[index % |Descriptions|]
    ensures v.authorName == AuthorNames[index % |AuthorNames|]
    ensures v.height == Heights[index % |Heights|] && v.width == 400
    ensures v.category == category && !v.isLiked && v.timestamp == d.clock
    ensures VideoDrawInRange(d) ==>
      1000 <= v.likeCount <= 50000 && 100 <= v.commentCount <= 5000 && 50 <= v.shareCount <= 1000
  {
    VideoItem(
      id := d.id,
      coverUrl := CoverUrls[index % 10],
      videoUrl := VideoUrls[index % 10],
      title := Titles[index % 10],
      description := Descriptions[index % 10],
      authorName := AuthorNames[index % 10],
      authorAvatar := "https://picsum.photos/100?random=" + NatToString(index % 10 + 1),
      likeCount := d.likeCount,
      commentCount := d.commentCount,
      shareCount := d.shareCount,
      width := 400,
      height := Heights[index % 9],
      category := category,
      timestamp := d.clock,
      isLiked := false)
  }

  /** `generateVideos(category, count, startIndex)`, for a non-negative start
      (a negative index would make the list lookups throw). */
  function GenerateVideos(category: string, count: int32, startIndex: int32, draws: seq<VideoDraw>): (r: seq<VideoItem>)
    requires startIndex >= 0
    requires |draws| == RangeLength(startIndex, count)
    ensures |r| == RangeLength(startIndex, count)
    ensures forall k :: 0 <= k < |r| ==> r[k] == MockVideo(category, startIndex as int + k, draws[k])
  {
    seq(|draws|, k requires 0 <= k < |draws| => MockVideo(category, startIndex as int + k, draws[k]))
  }

  /** Two consecutive ranges generate what their union generates: loading
      page after page yields one run of the generator from the first index. */
  lemma {:induction false} GenerateVideosConcat(category: string, n: int32, m: int32, start: int32,
                                                ds: seq<VideoDraw>, es: seq<VideoDraw>)
    requires start >= 0 && n >= 0 && m >= 0 && start as int + n as int + m as int <= IntMax
    requires |ds| == n as int && |es| == m as int
    ensures RangeLength(start, n) == n as int && RangeLength((start as int + n as int) as int32, m) == m as int
    ensures RangeLength(start, (n as int + m as int) as int32) == n as int + m as int
    ensures GenerateVideos(category, n, start, ds) + GenerateVideos(category, m, (start as int + n as int) as int32, es)
         == GenerateVideos(category, (n as int + m as int) as int32, start, ds + es)
  {
    var a := GenerateVideos(category, n, start, ds);
    var b := GenerateVideos(category, m, (start as int + n as int) as int32, es);
    var c := GenerateVideos(category, (n as int + m as int) as int32, start, ds + es);
    assert |a + b| == |c|;
    forall k | 0 <= k < |c| ensures (a + b)[k] == c[k] {
      if k < |a| {
        assert (a + b)[k] == a[k] && (ds + es)[k] == ds[k];
      } else {
        assert (a + b)[k] == b[k - |a|] && (ds + es)[k] == es[k - |a|];
        assert b[k - |a|] == MockVideo(category, start as int + k, es[k - |a|]);
      }
    }
  }

  /** Videos 90 indices apart (the least common multiple of the list lengths
      10 and 9) are the same video for the same draw: only the draws tell
      them apart. */
  lemma MockVideoPeriodic(category: string, index: nat, d: VideoDraw)
    ensures MockVideo(category, index + 90, d) == MockVideo(category, index, d)
  {
    assert (index + 90) % 10 == index % 10;
    assert (index + 90) % 9 == index % 9;
  }

  /** The comment at index `index`; the index is below `Int.MAX_VALUE`, so
      `index + 1` does not overflow. */
  function MockComment(videoId: string, index: nat, d: CommentDraw): (c: Comment)
    requires index < IntMax
    ensures c.id == d.id && c.videoId == videoId
    ensures c.userId == "user_" + NatToString(index + 1)
    ensures c.content == CommentContents[index % |CommentContents|]
    ensures c.timestamp == d.clock - index * 60000
    ensures CommentDrawInRange(d) ==>
      0 <= c.likeCount <= 999 && c.userName == "用户" + NatToString(d.userNumber as int)
  {
    Comment(
      id := d.id,
      videoId := videoId,
      userId := "user_" + IntToString(Wrap32(index + 1) as int),
      userName := "用户" + IntToString(d.userNumber as int),
      avatarUrl := "https://picsum.photos/100?random=" + IntToString(Wrap32(index + 100) as int),
      content := CommentContents[index % 20],
      timestamp := d.clock - index * 60000,
      likeCount := d.likeCount)
  }

  /** `generateComments(videoId, count)`: indices `0 until count`. */
  function GenerateComments(videoId: string, count: int32, draws: seq<CommentDraw>): (r: seq<Comment>)
    requires |draws| == if count > 0 then count as int else 0
    ensures |r| == |draws|
    ensures forall k :: 0 <= k < |r| ==> r[k] == MockComment(videoId, k, draws[k])
  {
    seq(|draws|, k requires 0 <= k < |draws| => MockComment(videoId, k, draws[k]))
  }

  /** The clock advances by less than a minute from one comment to the next
      (it may also step back). */
  predicate SteadyClock(draws: seq<CommentDraw>)
  {
    forall k :: 0 <= k < |draws| - 1 ==> draws[k + 1].clock < draws[k].clock + 60000
  }

  /** On a steady clock the comments come out newest first, strictly: each one
      is more than a minute younger than its successor is old. Read once, the
      clock gives exactly `now - index * 60000`. */
  lemma {:induction false} CommentTimestampsDecrease(videoId: string, count: int32, draws: seq<CommentDraw>, i: nat, j: nat)
    requires |draws| == if count > 0 then count as int else 0
    requires SteadyClock(draws)
    requires i < j < |draws|
    ensures GenerateComments(videoId, count, draws)[i].timestamp > GenerateComments(videoId, count, draws)[j].timestamp
    decreases j - i
  {
    var r := GenerateComments(videoId, count, draws);
    if i + 1 < j {
      CommentTimestampsDecrease(videoId, count, draws, i + 1, j);
    }
    assert r[i + 1].timestamp == draws[i + 1].clock - (i + 1) * 60000;
  }
}
