/** The comment list's adapter: the list it holds, replaced wholesale or
    grown at the top, and the relative age shown beside each comment. */
module Adapter {
  import opened Kotlin
  import opened Model

  const MinuteMillis: int := 60000
  const HourMillis: int := 3600000
  const DayMillis: int := 86400000
  const WeekMillis: int := 604800000

  /** The age classes `getRelativeTime` distinguishes; `Older` is the one the
      platform's date formatter renders. */
  datatype RelativeTime =
    | JustNow
    | MinutesAgo(minutes: int)
    | HoursAgo(hours: int)
    | DaysAgo(days: int)
    | Older

  /** The class of an age of `diff` milliseconds, thresholds tested in
      increasing order; a negative age (a timestamp in the future) is "just
      now". Each count is the whole number of units elapsed. */
  function Classify(diff: int): (b: RelativeTime)
    ensures b.JustNow? <==> diff < MinuteMillis
    ensures b.MinutesAgo? <==> MinuteMillis <= diff < HourMillis
    ensures b.HoursAgo? <==> HourMillis <= diff < DayMillis
    ensures b.DaysAgo? <==> DayMillis <= diff < WeekMillis
    ensures b.Older? <==> WeekMillis <= diff
    ensures b.MinutesAgo? ==> 1 <= b.minutes <= 59 && b.minutes * MinuteMillis <= diff < (b.minutes + 1) * MinuteMillis
    ensures b.HoursAgo? ==> 1 <= b.hours <= 23 && b.hours * HourMillis <= diff < (b.hours + 1) * HourMillis
    ensures b.DaysAgo? ==> 1 <= b.days <= 6 && b.days * DayMillis <= diff < (b.days + 1) * DayMillis
  {
    if diff < MinuteMillis then JustNow
    else if diff < HourMillis then MinutesAgo(diff / MinuteMillis)
    else if diff < DayMillis then HoursAgo(diff / HourMillis)
    else if diff < WeekMillis then DaysAgo(diff / DayMillis)
    else Older
  }

  /** How old a class reads: its rank among the classes, and its count within
      the class. */
  function Tier(b: RelativeTime): nat
  {
    match b
    case JustNow => 0
    case MinutesAgo(_) => 1
    case HoursAgo(_) => 2
    case DaysAgo(_) => 3
    case Older => 4
  }

  function Amount(b: RelativeTime): int
  {
    match b
    case JustNow => 0
    case MinutesAgo(n) => n
    case HoursAgo(n) => n
    case DaysAgo(n) => n
    case Older => 0
  }

  /** An older comment never reads younger: a larger age falls in the same or
      a later class, and within one class its count is not smaller. */
  lemma ClassifyMonotone(d1: int, d2: int)
    requires d1 <= d2
    ensures Tier(Classify(d1)) <= Tier(Classify(d2))
    ensures Tier(Classify(d1)) == Tier(Classify(d2)) ==> Amount(Classify(d1)) <= Amount(Classify(d2))
  {
  }

  /** `getRelativeTime(timestamp)` read at clock `now`: the label, or None for
      an age of a week or more, which the platform's date formatter renders. */
  function RelativeTimeText(timestamp: int, now: int): (s: Option<string>)
    ensures s.None? <==> Classify(now - timestamp).Older?
    ensures Classify(now - timestamp).JustNow? ==> s == Some("刚刚")
    ensures Classify(now - timestamp).MinutesAgo? ==>
      s == Some(NatToString((now - timestamp) / MinuteMillis) + "分钟前")
    ensures Classify(now - timestamp).HoursAgo? ==>
      s == Some(NatToString((now - timestamp) / HourMillis) + "小时前")
    ensures Classify(now - timestamp).DaysAgo? ==>
      s == Some(NatToString((now - timestamp) / DayMillis) + "天前")
  {
    match Classify(now - timestamp)
    case JustNow => Some("刚刚")
    case MinutesAgo(n) => Some(IntToString(n) + "分钟前")
    case HoursAgo(n) => Some(IntToString(n) + "小时前")
    case DaysAgo(n) => Some(IntToString(n) + "天前")
    case Older => None
  }

  /** The number in a minutes label reads back as the whole minutes elapsed. */
  lemma MinutesLabelReadsBack(timestamp: int, now: int)
    requires MinuteMillis <= now - timestamp < HourMillis
    ensures var s := RelativeTimeText(timestamp, now).value;
      var digits := NatToString((now - timestamp) / MinuteMillis);
      && s == digits + "分钟前"
      && IsDecimal(digits)
      && DecimalValue(digits) * MinuteMillis <= now - timestamp < (DecimalValue(digits) + 1) * MinuteMillis
  {
    DecimalRoundTrip((now - timestamp) / MinuteMillis);
  }

  class CommentAdapter {
    /** The comments shown, top first. */
    var commentList: seq<Comment>

    constructor ()
      ensures commentList == []
    {
      commentList := [];
    }

    /** `submitList(newList)`: clear, then add all. */
    method SubmitList(newList: seq<Comment>)
      modifies this
      ensures commentList == newList
      ensures GetItemCount() == |newList|
    {
      commentList := [];
      commentList := commentList + newList;
    }

    /** `addComment(comment)`: insert at position 0. */
    method AddComment(comment: Comment)
      modifies this
      ensures commentList == [comment] + old(commentList)
      ensures GetItemCount() == old(GetItemCount()) + 1
      ensures commentList[0] == comment
      ensures forall i :: 0 <= i < old(|commentList|) ==> commentList[i + 1] == old(commentList)[i]
    {
      commentList := [comment] + commentList;
    }

    /** `getItemCount()`. */
    function GetItemCount(): nat
      reads this
    {
      |commentList|
    }
  }
}
