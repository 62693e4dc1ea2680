# TikTok demo client core, modelled in Dafny

This project models the data and state logic of a short-video Android client written in Kotlin. It covers these parts:

- **Local store:** the two Room tables, `videos` and `comments`, and their DAO queries.
- **Repositories, list policy:** cache-first on page 0, network otherwise, and a fallback to the cached page on failure.
- **Repositories, writes:** the read-modify-write of a like or an unlike, and the optimistic comment post.
- **View models:** the three view-model state machines (feed paging, comment sheet, video detail).
- **Mock data generator:** the generator the list screens load from.
- **Comment adapter:** the list and the relative-time labels of the comment adapter.
- **Avatar helper:** the crop rectangle and permission logic of the avatar helper.

Modelling choices:

- **Numbers:** Kotlin `Int` is the newtype `Kotlin.int32`. Where `Int` arithmetic can overflow (`likeCount + 1`, `likeCount - 1`, `page * size`, `currentPage + 1` in the comment view model), the wrap-around is written out with `Kotlin.Wrap32`. `Long` timestamps and clock readings are unbounded integers.
- **Tables:** a table is a map from primary key to row.
- **Query order:** the scoped queries return their rows in `ORDER BY timestamp DESC` order. SQL leaves equal timestamps in no particular order, so the model fixes one tie-break: ascending primary key (`Paging.IdBefore`). Every ordering property is stated through `Paging.Ranked`.
- **LIMIT and OFFSET:** these follow SQLite. A negative `LIMIT` means no limit, and a negative `OFFSET` counts as 0.
- **The server:** it is an input, `reply: Model.CallOutcome<T>`. A call either answers with an `ApiResponse` envelope or throws a `Fault`.
- **Request log:** each repository keeps a ghost log of the requests it sent. So "the server is not called" is a statement about that log.
- **Repositories:**
  - Each repository operation is first a function of the table's contents and the server's answer. That function gives the result, the table afterwards, and whether the server was called.
  - The repository class runs the DAO calls in the source's order. Its methods are proved to reach exactly that outcome.
  - The lemmas state the policy properties about the outcome functions.
- **Coroutines:** a `viewModelScope.launch` body runs to completion inside the call that starts it.
- **View models:**
  - Each view model is a class whose methods are proved to take one step of a pure state machine (`Feed.Loaded`, `Comments.CommentsLoaded`, `Comments.AfterPost`, `Detail.PlayToggled`, `Detail.LikeToggled`).
  - Invariants and multi-step lemmas are proved on that state machine.
- **Randomness and clocks:** the random UUIDs, random numbers and clock readings the generator and the repositories consume are passed in as parameters ("draws").

Where the code and the written design of the system disagree, the model follows the code:

- **Like count:** the design says like counts never become negative. In the code, `likeCount + 1` wraps at `Int.MAX_VALUE` (`Kotlin.IncrementWraps`), so only unlike is proved never to produce a negative count.
- **Posted comment:** the design says a posted comment is returned with the content the user typed. In the code, the server's copy is returned when the server delivers one (`CommentRepo.PostCommentOutcome`).

All paths below are relative to the repository root, under `TikTokApp/app/src/main/java/com/tiktok/app/`, written in full.

## Model

| member | source | states |
|---|---|---|
| Kotlin.Wrap32 | TikTokApp/app/src/main/java/com/tiktok/app/data/repository/VideoRepository.kt:89 | `Int` arithmetic: the exact result when it fits in 32 bits, otherwise the value congruent to it modulo 2^32 |
| Kotlin.MaxOf | TikTokApp/app/src/main/java/com/tiktok/app/data/repository/VideoRepository.kt:113 | `maxOf(a, b)` is one of its arguments and at least both |
| Kotlin.IncrementWraps | TikTokApp/app/src/main/java/com/tiktok/app/data/repository/VideoRepository.kt:89 | helper fact about Wrap32: `likeCount + 1` is exact below `Int.MAX_VALUE` and wraps to `Int.MIN_VALUE` at it |
| Kotlin.Option.GetOr | TikTokApp/app/src/main/java/com/tiktok/app/viewmodel/FeedViewModel.kt:60 | definition of the elvis operator: the value when present, the default when null |
| Kotlin.NatToString | TikTokApp/app/src/main/java/com/tiktok/app/data/mock/MockDataGenerator.kt:96 | a template-rendered number is a non-empty digit string without leading zeros, one digit exactly for numbers below 10 |
| Kotlin.DecimalRoundTrip | TikTokApp/app/src/main/java/com/tiktok/app/data/repository/CommentRepository.kt:69 | reading back a rendered number gives the number, so distinct numbers render differently |
| Kotlin.IntToString | TikTokApp/app/src/main/java/com/tiktok/app/data/repository/CommentRepository.kt:68 | definition of `Int`/`Long` rendering: the decimal digits of the magnitude, after a minus sign for a negative value; its read-back is Kotlin.DecimalRoundTrip |
| Model.FailureOf | TikTokApp/app/src/main/java/com/tiktok/app/data/repository/VideoRepository.kt:43-59 | definition of the failure reason: the envelope's message when the server answered, the thrown exception when the call threw; used by VideoRepo.UndeliveredFallsBack |
| Model.FromCache | TikTokApp/app/src/main/java/com/tiktok/app/data/repository/VideoRepository.kt:45-50 | definition of the cache fallback: success with the cached page exactly when it is non-empty, otherwise the given error; used by VideoRepo.UndeliveredFallsBack |
| Model.Liked | TikTokApp/app/src/main/java/com/tiktok/app/data/repository/VideoRepository.kt:87-90 | a liked copy is flagged liked, has its count incremented when below `Int.MAX_VALUE`, and differs in no other field |
| Model.Unliked | TikTokApp/app/src/main/java/com/tiktok/app/data/repository/VideoRepository.kt:111-114 | an unliked copy is not flagged, its count is never negative, is decremented when positive and stays 0 at 0, and no other field differs |
| Model.LikeThenUnlikeRestores | TikTokApp/app/src/main/java/com/tiktok/app/data/repository/VideoRepository.kt:87-114 | liking then unliking a video with a non-negative count restores it exactly apart from the flag, including at `Int.MAX_VALUE` |
| Model.UnlikeThenLikeRestores | TikTokApp/app/src/main/java/com/tiktok/app/data/repository/VideoRepository.kt:87-114 | unliking then liking restores a positive count; a count of 0 comes back as 1 |
| Paging.IdBeforeIrreflexive | TikTokApp/app/src/main/java/com/tiktok/app/data/db/VideoDao.kt:9 | the tie-break order on primary keys never puts a key before itself |
| Paging.IdBeforeTransitive | TikTokApp/app/src/main/java/com/tiktok/app/data/db/VideoDao.kt:9 | the tie-break order is transitive |
| Paging.IdBeforeTotal | TikTokApp/app/src/main/java/com/tiktok/app/data/db/VideoDao.kt:9 | any two different keys are ordered one way or the other, so the result order is fully determined |
| Paging.FirstExists | TikTokApp/app/src/main/java/com/tiktok/app/data/db/VideoDao.kt:9 | a non-empty set of keyed timestamps has a key that comes before all others |
| Paging.FirstUnique | TikTokApp/app/src/main/java/com/tiktok/app/data/db/VideoDao.kt:9 | at most one key comes first |
| Paging.OrderedKeys | TikTokApp/app/src/main/java/com/tiktok/app/data/db/VideoDao.kt:9 | the keys in result order are keys of the table, as many as the table has |
| Paging.OrderedKeysComplete | TikTokApp/app/src/main/java/com/tiktok/app/data/db/VideoDao.kt:9 | every key appears in the result order |
| Paging.OrderedKeysRanked | TikTokApp/app/src/main/java/com/tiktok/app/data/db/VideoDao.kt:9 | each key in the result order ranks before every later one |
| Paging.OrderedKeysSorted | TikTokApp/app/src/main/java/com/tiktok/app/data/db/VideoDao.kt:9 | keys in result order are distinct with non-increasing timestamps, equal timestamps in ascending key order |
| Paging.PageOffset | TikTokApp/app/src/main/java/com/tiktok/app/data/repository/VideoRepository.kt:45 | the fallback offset `page * size` is 0 for page 0 and exact whenever the product fits in an `Int` |
| Paging.PageLength | TikTokApp/app/src/main/java/com/tiktok/app/data/db/VideoDao.kt:9 | `LIMIT`/`OFFSET` keep at most the rows available and at most a non-negative limit, and keep none exactly when the limit is 0 or the offset passes the end |
| Paging.Window | TikTokApp/app/src/main/java/com/tiktok/app/data/db/VideoDao.kt:9 | the page is the slice of the ordered rows starting at the offset, of length PageLength |
| Paging.WindowPair | TikTokApp/app/src/main/java/com/tiktok/app/data/db/VideoDao.kt:9 | helper for Paging.WindowRanked: two rows of a page are the ordered rows at the same positions shifted by the offset |
| Paging.WindowRanked | TikTokApp/app/src/main/java/com/tiktok/app/data/db/VideoDao.kt:9 | a page of rows in result order is in result order |
| Table.UpsertAll | TikTokApp/app/src/main/java/com/tiktok/app/data/db/VideoDao.kt:15-16 | a REPLACE batch insert leaves exactly the old keys plus the batch's keys, and rows whose key is not in the batch unchanged |
| Table.UpsertAllLastWins | TikTokApp/app/src/main/java/com/tiktok/app/data/db/VideoDao.kt:15-16 | after a batch insert, a key of the batch holds the last row of the batch with that key |
| Table.UpsertAllKeyed | TikTokApp/app/src/main/java/com/tiktok/app/data/db/VideoDao.kt:15-16 | a batch insert keeps every row under its own primary key |
| Table.Lookup | TikTokApp/app/src/main/java/com/tiktok/app/data/db/VideoDao.kt:9 | definition of a key-sequence read: the rows under the keys, in the keys' order; its order is proved in VideoStore.CategoryRowsRanked |
| VideoStore.CategoryTimestamps | TikTokApp/app/src/main/java/com/tiktok/app/data/db/VideoDao.kt:9 | `WHERE category = :category`: exactly the rows of the category, by timestamp |
| VideoStore.CategoryRows | TikTokApp/app/src/main/java/com/tiktok/app/data/db/VideoDao.kt:9 | the ordered rows of a category are stored rows of that category, one per row of the category |
| VideoStore.CategoryRowsComplete | TikTokApp/app/src/main/java/com/tiktok/app/data/db/VideoDao.kt:9 | no row of the category is missing from the ordered rows |
| VideoStore.CategoryRowsRanked | TikTokApp/app/src/main/java/com/tiktok/app/data/db/VideoDao.kt:9 | the ordered rows of a category are distinct, by non-increasing timestamp, ties by ascending id |
| VideoStore.CategoryPage | TikTokApp/app/src/main/java/com/tiktok/app/data/db/VideoDao.kt:9-10 | `getVideosByCategory` returns only stored rows of the category, in result order, the `[offset, offset+limit)` window of the category's ordered rows, of length `min(limit, max(0, n - offset))` |
| VideoStore.WithoutCategory | TikTokApp/app/src/main/java/com/tiktok/app/data/db/VideoDao.kt:24-25 | deleting a category removes exactly its rows and leaves every other row unchanged |
| VideoStore.WithoutOlderThan | TikTokApp/app/src/main/java/com/tiktok/app/data/db/VideoDao.kt:27-28 | deleting old videos removes exactly rows with `timestamp < t`; rows at exactly `t` survive unchanged |
| VideoStore.Updated | TikTokApp/app/src/main/java/com/tiktok/app/data/db/VideoDao.kt:21-22 | `@Update` replaces the row with the same id, changes no other key, and without such a row leaves the table as it was |
| VideoStore.VideoDao.constructor | TikTokApp/app/src/main/java/com/tiktok/app/data/db/VideoDao.kt:7 | a new table is empty |
| VideoStore.VideoDao.GetVideosByCategory | TikTokApp/app/src/main/java/com/tiktok/app/data/db/VideoDao.kt:9-10 | the query answers with a page of the current table's category rows of the LIMIT/OFFSET length |
| VideoStore.VideoDao.GetVideoById | TikTokApp/app/src/main/java/com/tiktok/app/data/db/VideoDao.kt:12-13 | null exactly when no row has the id, otherwise the stored row with that id; the table is only read |
| VideoStore.VideoDao.InsertVideos | TikTokApp/app/src/main/java/com/tiktok/app/data/db/VideoDao.kt:15-16 | the table becomes the REPLACE batch insert of the old table and stays keyed |
| VideoStore.VideoDao.InsertVideo | TikTokApp/app/src/main/java/com/tiktok/app/data/db/VideoDao.kt:18-19 | the row takes the place of any row with its id, whatever that row's category |
| VideoStore.VideoDao.UpdateVideo | TikTokApp/app/src/main/java/com/tiktok/app/data/db/VideoDao.kt:21-22 | the table becomes Updated of the old table |
| VideoStore.VideoDao.DeleteVideosByCategory | TikTokApp/app/src/main/java/com/tiktok/app/data/db/VideoDao.kt:24-25 | the table becomes WithoutCategory of the old table |
| VideoStore.VideoDao.DeleteOldVideos | TikTokApp/app/src/main/java/com/tiktok/app/data/db/VideoDao.kt:27-28 | the table becomes WithoutOlderThan of the old table |
| CommentStore.VideoTimestamps | TikTokApp/app/src/main/java/com/tiktok/app/data/db/CommentDao.kt:9 | `WHERE videoId = :videoId`: exactly the comments of the video, by timestamp |
| CommentStore.VideoRows | TikTokApp/app/src/main/java/com/tiktok/app/data/db/CommentDao.kt:9 | the ordered comments of a video are stored comments of that video, one per comment |
| CommentStore.VideoRowsComplete | TikTokApp/app/src/main/java/com/tiktok/app/data/db/CommentDao.kt:9 | no comment of the video is missing from the ordered comments |
| CommentStore.VideoRowsRanked | TikTokApp/app/src/main/java/com/tiktok/app/data/db/CommentDao.kt:9 | the ordered comments are distinct, by non-increasing timestamp, ties by ascending id |
| CommentStore.CommentPage | TikTokApp/app/src/main/java/com/tiktok/app/data/db/CommentDao.kt:9-10 | `getCommentsByVideoId` returns only stored comments of the video, in result order, at most `limit` of them, the slice of the ordered comments starting at the offset |
| CommentStore.WithoutVideo | TikTokApp/app/src/main/java/com/tiktok/app/data/db/CommentDao.kt:18-19 | deleting a video's comments removes exactly those and leaves the others untouched |
| CommentStore.CommentDao.constructor | TikTokApp/app/src/main/java/com/tiktok/app/data/db/CommentDao.kt:7 | a new table is empty |
| CommentStore.CommentDao.GetCommentsByVideoId | TikTokApp/app/src/main/java/com/tiktok/app/data/db/CommentDao.kt:9-10 | the query answers with a page of the current table's comments of the video of the LIMIT/OFFSET length |
| CommentStore.CommentDao.InsertComments | TikTokApp/app/src/main/java/com/tiktok/app/data/db/CommentDao.kt:12-13 | the table becomes the REPLACE batch insert of the old table and stays keyed |
| CommentStore.CommentDao.InsertComment | TikTokApp/app/src/main/java/com/tiktok/app/data/db/CommentDao.kt:15-16 | the comment is afterwards the one stored under its id |
| CommentStore.CommentDao.DeleteCommentsByVideoId | TikTokApp/app/src/main/java/com/tiktok/app/data/db/CommentDao.kt:18-19 | the table becomes WithoutVideo of the old table |
| VideoRepo.GetVideosOutcome | TikTokApp/app/src/main/java/com/tiktok/app/data/repository/VideoRepository.kt:17-61 | the server is called exactly when the cache test fails; a failure only follows an undelivered call and carries its message or exception; the table only changes on a delivered call and stays keyed |
| VideoRepo.CacheHitSkipsRemote | TikTokApp/app/src/main/java/com/tiktok/app/data/repository/VideoRepository.kt:25-30 | page 0, not forced, non-empty cached first page: that page is returned, the server is not called and the table is unchanged |
| VideoRepo.DeliveredVideosRetrievable | TikTokApp/app/src/main/java/com/tiktok/app/data/repository/VideoRepository.kt:34-42 | on a delivered answer the result is exactly the delivered videos, and each (last of its id in the batch) is afterwards stored under its id |
| VideoRepo.FirstPageReplacesCategory | TikTokApp/app/src/main/java/com/tiktok/app/data/repository/VideoRepository.kt:37-41 | a delivered page 0 leaves only sent rows in the category, drops every unsent old row of the category, and keeps other categories' unsent rows unchanged |
| VideoRepo.LaterPageKeepsRows | TikTokApp/app/src/main/java/com/tiktok/app/data/repository/VideoRepository.kt:37-41 | a delivered later page deletes nothing and leaves unsent rows unchanged |
| VideoRepo.UndeliveredFallsBack | TikTokApp/app/src/main/java/com/tiktok/app/data/repository/VideoRepository.kt:43-59 | an error code, a null body or an exception yields the cached page at offset `page * size` when it is non-empty and fails otherwise |
| VideoRepo.ForcedRefreshFallsBackToFirstPage | TikTokApp/app/src/main/java/com/tiktok/app/data/repository/VideoRepository.kt:43-59 | an undelivered forced refresh of page 0 falls back to the cached first page at offset 0, with the table unchanged |
| VideoRepo.ToggleOutcome | TikTokApp/app/src/main/java/com/tiktok/app/data/repository/VideoRepository.kt:80-124 | a like toggle succeeds iff the code is 200, whatever the data; failure carries its reason and leaves the table unchanged; only the video's own row changes, to the changed copy |
| VideoRepo.LikeOutcome | TikTokApp/app/src/main/java/com/tiktok/app/data/repository/VideoRepository.kt:80-100 | `likeVideo` succeeds iff the code is 200; an acknowledged like stores the Liked copy of a present row; an absent row leaves the table unchanged |
| VideoRepo.UnlikeOutcome | TikTokApp/app/src/main/java/com/tiktok/app/data/repository/VideoRepository.kt:105-124 | `unlikeVideo` succeeds iff the code is 200, stores the Unliked copy of a present row, and never makes a non-negative count negative |
| VideoRepo.LikeThenUnlikeRestoresRow | TikTokApp/app/src/main/java/com/tiktok/app/data/repository/VideoRepository.kt:80-124 | an acknowledged like followed by an acknowledged unlike restores the stored row's count exactly, leaving it unliked |
| VideoRepo.VideoRepository.constructor | TikTokApp/app/src/main/java/com/tiktok/app/data/repository/VideoRepository.kt:9-12 | the repository holds the given DAO and has sent nothing |
| VideoRepo.VideoRepository.GetVideos | TikTokApp/app/src/main/java/com/tiktok/app/data/repository/VideoRepository.kt:17-61 | the result, the table afterwards and the requests sent are those of GetVideosOutcome |
| VideoRepo.VideoRepository.FetchVideos | TikTokApp/app/src/main/java/com/tiktok/app/data/repository/VideoRepository.kt:32-59 | past the cache test: one request is sent, and delete-then-insert or the fallback read reach GetVideosOutcome |
| VideoRepo.VideoRepository.GetVideoById | TikTokApp/app/src/main/java/com/tiktok/app/data/repository/VideoRepository.kt:66-68 | null exactly when no row has the id, otherwise that row |
| VideoRepo.VideoRepository.UpdateVideo | TikTokApp/app/src/main/java/com/tiktok/app/data/repository/VideoRepository.kt:73-75 | the table becomes Updated of the old table |
| VideoRepo.VideoRepository.LikeVideo | TikTokApp/app/src/main/java/com/tiktok/app/data/repository/VideoRepository.kt:80-100 | sends one like request; result and table are those of LikeOutcome |
| VideoRepo.VideoRepository.UnlikeVideo | TikTokApp/app/src/main/java/com/tiktok/app/data/repository/VideoRepository.kt:105-124 | sends one unlike request; result and table are those of UnlikeOutcome |
| CommentRepo.GetCommentsOutcome | TikTokApp/app/src/main/java/com/tiktok/app/data/repository/CommentRepository.kt:18-60 | the server is called exactly when the page-0 cache test fails (no forcing); failure only follows an undelivered call and carries its reason; the table only changes on a delivered call |
| CommentRepo.CacheHitSkipsRemote | TikTokApp/app/src/main/java/com/tiktok/app/data/repository/CommentRepository.kt:25-30 | a non-empty cached first page is returned without a call and without a table change |
| CommentRepo.DeliveredCommentsRetrievable | TikTokApp/app/src/main/java/com/tiktok/app/data/repository/CommentRepository.kt:34-41 | on a delivered answer the result is exactly the delivered comments, each (last of its id) afterwards stored under its id |
| CommentRepo.FirstPageReplacesComments | TikTokApp/app/src/main/java/com/tiktok/app/data/repository/CommentRepository.kt:37-40 | a delivered page 0 deletes the video's old comments before inserting: only sent comments of the video remain, other videos' unsent comments are unchanged |
| CommentRepo.UndeliveredFallsBack | TikTokApp/app/src/main/java/com/tiktok/app/data/repository/CommentRepository.kt:43-59 | without a delivered answer the result is the cached page at offset `page * size`, failing only when it is empty |
| CommentRepo.DefaultUserId | TikTokApp/app/src/main/java/com/tiktok/app/data/repository/CommentRepository.kt:68 | definition of the default author id: `user_` followed by the rendered clock reading |
| CommentRepo.DefaultUserName | TikTokApp/app/src/main/java/com/tiktok/app/data/repository/CommentRepository.kt:69 | the default author name is `用户` and four digits that read back as the drawn number |
| CommentRepo.DigitCount | TikTokApp/app/src/main/java/com/tiktok/app/data/repository/CommentRepository.kt:69 | a number in 1000..9999 renders with four digits |
| CommentRepo.LocalComment | TikTokApp/app/src/main/java/com/tiktok/app/data/repository/CommentRepository.kt:73-81 | definition of the locally built comment: the fresh id, video, author, text and time, and like count 0; that it alone is stored is CommentRepo.PostStoresLocalOnly |
| CommentRepo.PostCommentOutcome | TikTokApp/app/src/main/java/com/tiktok/app/data/repository/CommentRepository.kt:84-96 | always a success: the server copy iff delivered, the local comment otherwise; the table is the old one plus the local comment only |
| CommentRepo.PostStoresLocalOnly | TikTokApp/app/src/main/java/com/tiktok/app/data/repository/CommentRepository.kt:84-96 | whatever the server answers, the table afterwards is the same: the server copy is never stored |
| CommentRepo.CommentRepository.constructor | TikTokApp/app/src/main/java/com/tiktok/app/data/repository/CommentRepository.kt:10-13 | the repository holds the given DAO and has sent nothing |
| CommentRepo.CommentRepository.GetComments | TikTokApp/app/src/main/java/com/tiktok/app/data/repository/CommentRepository.kt:18-60 | result, table and requests sent are those of GetCommentsOutcome |
| CommentRepo.CommentRepository.FetchComments | TikTokApp/app/src/main/java/com/tiktok/app/data/repository/CommentRepository.kt:32-59 | past the cache test: one request, then delete-then-insert or the fallback read reach GetCommentsOutcome |
| CommentRepo.CommentRepository.PostComment | TikTokApp/app/src/main/java/com/tiktok/app/data/repository/CommentRepository.kt:65-100 | the table as it stood when the one request was sent already holds the local comment under its id (the old table plus it); result and final table are those of PostCommentOutcome |
| MockData.RangeLength | TikTokApp/app/src/main/java/com/tiktok/app/data/mock/MockDataGenerator.kt:78 | `startIndex until startIndex + count` has `count` indices (none for a non-positive count) when the end does not overflow, and never reaches past `Int.MAX_VALUE` |
| MockData.MockVideo | TikTokApp/app/src/main/java/com/tiktok/app/data/mock/MockDataGenerator.kt:79-105 | the video at an index reads each list at index modulo its length, width 400, the given category, not liked, the clock as timestamp, and counts in their random ranges |
| MockData.GenerateVideos | TikTokApp/app/src/main/java/com/tiktok/app/data/mock/MockDataGenerator.kt:77-107 | one video per index of the range, in order, item k being the video at `startIndex + k` |
| MockData.GenerateVideosConcat | TikTokApp/app/src/main/java/com/tiktok/app/data/mock/MockDataGenerator.kt:78 | generating two consecutive ranges equals generating their union |
| MockData.MockVideoPeriodic | TikTokApp/app/src/main/java/com/tiktok/app/data/mock/MockDataGenerator.kt:79-87 | indices 90 apart give the same video for the same draw |
| MockData.MockComment | TikTokApp/app/src/main/java/com/tiktok/app/data/mock/MockDataGenerator.kt:121-132 | the comment at index i has the video id, user id `user_{i+1}`, content at `i mod 20`, timestamp `clock - i*60000`, and like count and user number in range |
| MockData.GenerateComments | TikTokApp/app/src/main/java/com/tiktok/app/data/mock/MockDataGenerator.kt:112-133 | one comment per index `0 until count`, in order |
| MockData.CommentTimestampsDecrease | TikTokApp/app/src/main/java/com/tiktok/app/data/mock/MockDataGenerator.kt:129 | when the clock advances by less than a minute between readings (stepping back allowed), the generated timestamps strictly decrease with the index |
| Feed.Initial | TikTokApp/app/src/main/java/com/tiktok/app/viewmodel/FeedViewModel.kt:16-31 | the view model starts with no list, page 0, more to load, and no load running |
| Feed.InitialInv | TikTokApp/app/src/main/java/com/tiktok/app/viewmodel/FeedViewModel.kt:28-31 | the start state satisfies the paging invariant |
| Feed.StartIndex | TikTokApp/app/src/main/java/com/tiktok/app/viewmodel/FeedViewModel.kt:57 | the generator starts at 0 after a refresh and at `currentPage * 20` otherwise, never beyond 100 |
| Feed.Loaded | TikTokApp/app/src/main/java/com/tiktok/app/viewmodel/FeedViewModel.kt:36-75 | a guarded load changes nothing; otherwise the list is replaced (refresh) or extended by the 20 generated videos, the page advances by one from 0 or from the current page, `hasMore == page < 5`, every loading flag is cleared and the error is null; the invariant is kept |
| Feed.Refreshed | TikTokApp/app/src/main/java/com/tiktok/app/viewmodel/FeedViewModel.kt:80-82 | a refresh always proceeds: page 1, more to load, the 20 videos from index 0 |
| Feed.LoadedMore | TikTokApp/app/src/main/java/com/tiktok/app/viewmodel/FeedViewModel.kt:87-89 | load-more keeps the old list as a prefix and advances the page unless guarded |
| Feed.LoadMoreTakesEffect | TikTokApp/app/src/main/java/com/tiktok/app/viewmodel/FeedViewModel.kt:37-38 | from a settled state, load-more changes the state exactly when fewer than five pages are loaded |
| Feed.LoadMoreEach | TikTokApp/app/src/main/java/com/tiktok/app/viewmodel/FeedViewModel.kt:87-89 | repeated load-more keeps the paging invariant |
| Feed.LoadMoreCapped | TikTokApp/app/src/main/java/com/tiktok/app/viewmodel/FeedViewModel.kt:63-64 | any number of load-more calls reaches `min(page + calls, 5)` pages, at most 100 videos, the old list a prefix |
| Feed.FeedViewModel.constructor | TikTokApp/app/src/main/java/com/tiktok/app/viewmodel/FeedViewModel.kt:16-31 | the fields start in the Initial state |
| Feed.FeedViewModel.LoadVideos | TikTokApp/app/src/main/java/com/tiktok/app/viewmodel/FeedViewModel.kt:36-75 | guards, bookkeeping and coroutine take exactly the Loaded step |
| Feed.FeedViewModel.LaunchedLoad | TikTokApp/app/src/main/java/com/tiktok/app/viewmodel/FeedViewModel.kt:51-74 | the coroutine appends (or sets) the generated page, advances the page, recomputes `hasMore`, clears the error and the flags |
| Feed.FeedViewModel.Refresh | TikTokApp/app/src/main/java/com/tiktok/app/viewmodel/FeedViewModel.kt:80-82 | `refresh(c)` takes the Refreshed step, that is `loadVideos(c, true)` |
| Feed.FeedViewModel.LoadMore | TikTokApp/app/src/main/java/com/tiktok/app/viewmodel/FeedViewModel.kt:87-89 | `loadMore()` takes the LoadedMore step, that is `loadVideos(currentCategory, false)` |
| Comments.CommentsLoaded | TikTokApp/app/src/main/java/com/tiktok/app/viewmodel/CommentViewModel.kt:31-54 | a refresh replaces the list with 20 generated comments, page 1, current video set; otherwise 20 are appended and the page is incremented; loading is false afterwards |
| Comments.RefreshShowsVideo | TikTokApp/app/src/main/java/com/tiktok/app/viewmodel/CommentViewModel.kt:32-45 | after a refresh all shown comments belong to the video and, on a steady clock, come newest first |
| Comments.AfterPost | TikTokApp/app/src/main/java/com/tiktok/app/viewmodel/CommentViewModel.kt:64-75 | on success the comment is prepended and `postSuccess` is true; on failure the list is unchanged and `postSuccess` is false |
| Comments.PostedOnTop | TikTokApp/app/src/main/java/com/tiktok/app/viewmodel/CommentViewModel.kt:65-69 | a posted comment is first and the earlier list follows it unchanged |
| Comments.CommentViewModel.constructor | TikTokApp/app/src/main/java/com/tiktok/app/viewmodel/CommentViewModel.kt:12-26 | every value starts unset, page 0 |
| Comments.CommentViewModel.LoadComments | TikTokApp/app/src/main/java/com/tiktok/app/viewmodel/CommentViewModel.kt:31-54 | the call and its coroutine take exactly the CommentsLoaded step |
| Comments.CommentViewModel.PostComment | TikTokApp/app/src/main/java/com/tiktok/app/viewmodel/CommentViewModel.kt:59-77 | blank content changes nothing and sends nothing; otherwise the repository posts the default-author comment and the state takes the AfterPost step |
| Detail.Initial | TikTokApp/app/src/main/java/com/tiktok/app/viewmodel/VideoDetailViewModel.kt:15-18 | no current video, playing |
| Detail.PlayToggled | TikTokApp/app/src/main/java/com/tiktok/app/viewmodel/VideoDetailViewModel.kt:31-33 | the flag is negated, an unset flag read as true, and the video untouched |
| Detail.PlayToggledTwice | TikTokApp/app/src/main/java/com/tiktok/app/viewmodel/VideoDetailViewModel.kt:31-33 | two play toggles restore a set flag |
| Detail.Toggled | TikTokApp/app/src/main/java/com/tiktok/app/viewmodel/VideoDetailViewModel.kt:42-53 | the flag flips and nothing but the count changes; unliking never gives a negative count, decrements a positive one and keeps 0; liking increments below `Int.MAX_VALUE` |
| Detail.ToggledTwiceRestores | TikTokApp/app/src/main/java/com/tiktok/app/viewmodel/VideoDetailViewModel.kt:42-53 | starting unliked with a non-negative count, two toggles restore flag and count |
| Detail.LikeToggled | TikTokApp/app/src/main/java/com/tiktok/app/viewmodel/VideoDetailViewModel.kt:38-59 | with no current video nothing changes; otherwise the current video becomes its toggled copy |
| Detail.VideoDetailViewModel.constructor | TikTokApp/app/src/main/java/com/tiktok/app/viewmodel/VideoDetailViewModel.kt:11-19 | the fields start in the Initial state |
| Detail.VideoDetailViewModel.SetCurrentVideo | TikTokApp/app/src/main/java/com/tiktok/app/viewmodel/VideoDetailViewModel.kt:24-26 | the current video is replaced and nothing else changes |
| Detail.VideoDetailViewModel.TogglePlayState | TikTokApp/app/src/main/java/com/tiktok/app/viewmodel/VideoDetailViewModel.kt:31-33 | takes the PlayToggled step |
| Detail.VideoDetailViewModel.ToggleLike | TikTokApp/app/src/main/java/com/tiktok/app/viewmodel/VideoDetailViewModel.kt:38-59 | takes the LikeToggled step whatever the repository answers; the repository runs unlike for a liked video and like otherwise, and nothing without a video |
| Adapter.Classify | TikTokApp/app/src/main/java/com/tiktok/app/ui/comment/CommentAdapter.kt:66-70 | the buckets are disjoint and tested in threshold order, negative ages are "just now", and each count is the whole units elapsed, 1..59 minutes, 1..23 hours, 1..6 days |
| Adapter.ClassifyMonotone | TikTokApp/app/src/main/java/com/tiktok/app/ui/comment/CommentAdapter.kt:66-70 | an older comment never reads younger than a newer one |
| Adapter.RelativeTimeText | TikTokApp/app/src/main/java/com/tiktok/app/ui/comment/CommentAdapter.kt:62-77 | the label per bucket: `刚刚`, `{n}分钟前`, `{n}小时前`, `{n}天前`, none for a week or more |
| Adapter.MinutesLabelReadsBack | TikTokApp/app/src/main/java/com/tiktok/app/ui/comment/CommentAdapter.kt:68 | the number in a minutes label is decimal and reads back as the minutes elapsed |
| Adapter.CommentAdapter.constructor | TikTokApp/app/src/main/java/com/tiktok/app/ui/comment/CommentAdapter.kt:13 | a new adapter holds no comments |
| Adapter.CommentAdapter.SubmitList | TikTokApp/app/src/main/java/com/tiktok/app/ui/comment/CommentAdapter.kt:15-19 | the held list equals the submitted one and `getItemCount` is its length |
| Adapter.CommentAdapter.AddComment | TikTokApp/app/src/main/java/com/tiktok/app/ui/comment/CommentAdapter.kt:21-24 | the comment is at position 0, old items shift by one in order, and the count grows by one |
| Avatar.CropToSquare | TikTokApp/app/src/main/java/com/tiktok/app/utils/AvatarUploadHelper.kt:150-162 | the square side is `min(width, height)`, both offsets are non-negative and one is 0, the square is in bounds and centred up to rounding, and the output is `size × size` |
| Avatar.RequiredPermissions | TikTokApp/app/src/main/java/com/tiktok/app/utils/AvatarUploadHelper.kt:35-46 | {CAMERA, READ_MEDIA_IMAGES} from TIRAMISU on, {CAMERA, READ/WRITE_EXTERNAL_STORAGE} before, without repeats; CAMERA always |
| Avatar.AllGranted | TikTokApp/app/src/main/java/com/tiktok/app/utils/AvatarUploadHelper.kt:53-55 | `all` holds iff every listed permission is granted |
| Avatar.CheckPermissions | TikTokApp/app/src/main/java/com/tiktok/app/utils/AvatarUploadHelper.kt:52-56 | true iff every required permission is granted |
| Avatar.CheckPermissionsBySdk | TikTokApp/app/src/main/java/com/tiktok/app/utils/AvatarUploadHelper.kt:35-56 | the check needs the camera; from TIRAMISU it is camera and media images, before it camera and both storage permissions |

## Left out

- The remote API (`ApiService`, Retrofit): it is foreign code. Each call's outcome is an input, either an answer or a thrown fault. Only the requests sent are recorded.
- Room and SQLite failures: a storage call is assumed never to throw. So the outer `catch` of `postComment` (CommentRepository.kt:97-99), which yields a failure only when storing the local comment throws, cannot be reached in the model.
- CommentRepo.PostCommentOutcome: it never produces a Failure, because storage exceptions are not modelled.
- Comments.CommentViewModel.PostComment: the repository always succeeds in the model, so the failure branch of the view model (CommentViewModel.kt:70-75) is never taken from here. It is modelled in Comments.AfterPost.
- Feed.Loaded: the `catch` branch of `loadVideos` and its message "加载失败" are not modelled. From every state that satisfies the paging invariant, the generator is called with a non-negative start index and cannot throw.
- MockData.GenerateVideos: it requires a non-negative start index. With a negative index the list lookups would throw, and no caller passes one.
- `Long` overflow of timestamps and of `now - timestamp`: not modelled. Timestamps are unbounded integers.
- The `DateUtils` branch of `getRelativeTime` (CommentAdapter.kt:71-75): it is a platform call. The model returns no label for ages of a week or more.
- `getItemCount` (CommentAdapter.kt:39): it is the conditional-free length of the held list, `Adapter.CommentAdapter.GetItemCount`. It is stated through the SubmitList and AddComment contracts.
- The clock and randomness: UUIDs, `(a..b).random()` and `System.currentTimeMillis()` are passed in as draws. The model does not produce them.
- MockData.CommentTimestampsDecrease: `generateComments` reads the clock once per comment. Strictly decreasing timestamps are therefore proved only for a clock that never advances by a minute or more between two readings; a clock that steps back is covered.
- The RecyclerView notifications `notifyDataSetChanged()` and `notifyItemInserted(0)` (CommentAdapter.kt:18, 23) are not modelled: they are UI effects with no state of their own.
- Intermediate `LiveData` emissions (such as `isLoading = true` while a load runs) are not modelled, because each coroutine runs to completion inside the call.
- Concurrency and coroutine dispatch (`Dispatchers.IO`, `withContext`), including the race between a refresh and a like toggle: every operation is sequential and atomic.
- The repositories held by `FeedViewModel` and `CommentViewModel` are not used by their loaders, which read the mock generator. The feed view model therefore holds no repository in the model.
- Ties in `ORDER BY timestamp DESC`: the model fixes the order. SQL itself leaves ties unspecified.
- `createBitmap`, `createScaledBitmap`, and the decoding, compression and file handling of `AvatarUploadHelper`, together with `openCamera`, `openGallery`, `cropImageWithUCrop`, `manualCropImage`, `saveBitmapToFile`, `createImageFile`, `cleanup` and the `currentPhotoUri` field they set: these are platform I/O. Only the rectangle arithmetic and the permission checks are modelled. Bitmap's rejection of a non-positive scaled size is a platform check and is not modelled.
- The permission state of the device: it is an input, the set of granted permissions.
