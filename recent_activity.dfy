/**
 * The recent-activity feed of the dashboard (`useRecentActivity`): one "started" entry per session,
 * one "finished" entry per session that has an end time and a nonzero cost, one entry per buffet
 * sale, all sorted newest first and cut to ten, each labelled with how long ago it happened.
 * Times are milliseconds since the epoch; the current time `now` is a parameter.
 */
module RecentActivity {
  import opened Wrappers
  import opened Seqs
  import opened JsMath
  import opened JsText
  import opened PersianDigits
  import opened Sorting

  // ---------------------------------------------------------------------------------------------
  // "Time ago" labels

  /** Which of the four phrases `getTimeAgo` picks, with the number it shows. */
  datatype Elapsed = JustNow | MinutesAgo(minutes: int) | HoursAgo(hours: int) | DaysAgo(days: int)

  const MinuteMs := 60000
  const HourMs := 3600000
  const DayMs := 86400000

  /** Lines 16-27: seconds, minutes, hours and days each floored from the one before. */
  function Classify(now: int, t: int): Elapsed
  {
    var diffMs := now - t;
    var diffSeconds := FloorDiv(diffMs, 1000);
    var diffMinutes := FloorDiv(diffSeconds, 60);
    var diffHours := FloorDiv(diffMinutes, 60);
    var diffDays := FloorDiv(diffHours, 24);
    if diffMinutes < 1 then JustNow
    else if diffMinutes < 60 then MinutesAgo(diffMinutes)
    else if diffHours < 24 then HoursAgo(diffHours)
    else DaysAgo(diffDays)
  }

  /**
   * The chained floors are the floors of the elapsed milliseconds by a minute, an hour and a day,
   * so the phrase depends on which of the four ranges the elapsed time falls in, and the number
   * shown is the whole number of minutes (1-59), hours (1-23) or days (at least 1) elapsed.
   * A time in the future counts as "just now".
   */
  lemma ClassifyMeaning(now: int, t: int)
    ensures Classify(now, t).JustNow? <==> now - t < MinuteMs
    ensures Classify(now, t).MinutesAgo? <==> MinuteMs <= now - t < HourMs
    ensures Classify(now, t).HoursAgo? <==> HourMs <= now - t < DayMs
    ensures Classify(now, t).DaysAgo? <==> DayMs <= now - t
    ensures Classify(now, t).MinutesAgo? ==>
              Classify(now, t).minutes == FloorDiv(now - t, MinuteMs) && 1 <= Classify(now, t).minutes < 60
    ensures Classify(now, t).HoursAgo? ==>
              Classify(now, t).hours == FloorDiv(now - t, HourMs) && 1 <= Classify(now, t).hours < 24
    ensures Classify(now, t).DaysAgo? ==>
              Classify(now, t).days == FloorDiv(now - t, DayMs) && 1 <= Classify(now, t).days
  {
    var diffMs := now - t;
    NestedFloorDiv(diffMs, 1000, 60);
    NestedFloorDiv(diffMs, 60000, 60);
    NestedFloorDiv(diffMs, 3600000, 24);
    var m := FloorDiv(diffMs, MinuteMs);
    var h := FloorDiv(diffMs, HourMs);
    var d := FloorDiv(diffMs, DayMs);
    assert m * MinuteMs <= diffMs < m * MinuteMs + MinuteMs;
    assert h * HourMs <= diffMs < h * HourMs + HourMs;
    assert d * DayMs <= diffMs < d * DayMs + DayMs;
  }

  const JustNowText: string := "همین الان"

  /** `getTimeAgo(date)` (lines 14-28): "just now", else "N minutes/hours/days ago" in Persian digits. */
  function TimeAgo(now: int, t: int): string
  {
    match Classify(now, t)
    case JustNow => JustNowText
    case MinutesAgo(m) => PersianNumber(m) + " دقیقه پیش"
    case HoursAgo(h) => PersianNumber(h) + " ساعت پیش"
    case DaysAgo(d) => PersianNumber(d) + " روز پیش"
  }

  /** The label is "just now" exactly when less than a minute has passed (or the time is ahead). */
  lemma TimeAgoJustNow(now: int, t: int)
    ensures TimeAgo(now, t) == JustNowText <==> now - t < MinuteMs
  {
    ClassifyMeaning(now, t);
    var r := TimeAgo(now, t);
    if !Classify(now, t).JustNow? {
      assert r[|r| - 1] == 'ش';
      assert JustNowText[|JustNowText| - 1] == 'ن';
    }
  }

  // ---------------------------------------------------------------------------------------------
  // Durations

  /**
   * Lines 85-89: the whole minutes between start and end, split into hours and the minutes left
   * over (JavaScript's truncating `%`).
   */
  function Duration(ms: int): (int, int)
  {
    var duration := FloorDiv(ms, MinuteMs);
    (FloorDiv(duration, 60), Rem(duration, 60))
  }

  /**
   * The hours are the whole hours elapsed, shown exactly when a full hour has passed; for a
   * nonnegative span the minutes lie in 0..59 and together with the hours make up the whole minutes.
   */
  lemma DurationMeaning(ms: int)
    ensures Duration(ms).0 == FloorDiv(ms, HourMs)
    ensures Duration(ms).0 > 0 <==> ms >= HourMs
    ensures ms >= 0 ==> 0 <= Duration(ms).1 < 60 && Duration(ms).0 * 60 + Duration(ms).1 == FloorDiv(ms, MinuteMs)
  {
    var duration := FloorDiv(ms, MinuteMs);
    NestedFloorDiv(ms, MinuteMs, 60);
    if ms >= 0 {
      SplitMinutes(duration);
    }
  }

  /** A nonnegative number of minutes is its floored hours times 60 plus a remainder in 0..59. */
  lemma SplitMinutes(duration: int)
    requires duration >= 0
    ensures 0 <= Rem(duration, 60) < 60 && FloorDiv(duration, 60) * 60 + Rem(duration, 60) == duration
  {
    RemUnique(duration, 60, FloorDiv(duration, 60), duration - FloorDiv(duration, 60) * 60);
  }

  /** `durationStr` of lines 90-92. */
  function DurationText(ms: int): string
  {
    var (hours, minutes) := Duration(ms);
    if hours > 0 then PersianNumber(hours) + " ساعت و " + PersianNumber(minutes) + " دقیقه"
    else PersianNumber(minutes) + " دقیقه"
  }

  // ---------------------------------------------------------------------------------------------
  // Activities

  datatype ActivityKind = DeviceStart | DeviceEnd | SaleActivity

  datatype Activity = Activity(id: string, kind: ActivityKind, title: string, description: string, time: int, timeAgo: string)

  /** A fetched `device_sessions` row with its device's `name` joined in. */
  datatype ActivitySession = ActivitySession(
    id: string, startTime: int, endTime: Option<int>, totalCost: Option<int>,
    deviceName: Option<string>, customerName: Option<string>)

  /** A fetched `sales` row with its product's and its device's `name` joined in. */
  datatype ActivitySale = ActivitySale(
    id: string, createdAt: int, quantity: int, productName: Option<string>, deviceName: Option<string>)

  /** `x || fallback` on an optional string: absent and empty both give the fallback. */
  function OrElse(x: Option<string>, fallback: string): string
  {
    if x.Some? && x.value != "" then x.value else fallback
  }

  /** Line 84: `session.end_time && session.total_cost`, a cost of 0 counting as absent. */
  predicate Ended(s: ActivitySession)
  {
    s.endTime.Some? && s.totalCost.Some? && s.totalCost.value != 0
  }

  /** The "started" entry of lines 72-81. */
  function StartActivity(now: int, s: ActivitySession): Activity
  {
    var customer := OrElse(s.customerName, "");
    Activity("session-start-" + s.id, DeviceStart, OrElse(s.deviceName, "دستگاه"),
             if customer != "" then "شروع استفاده توسط " + customer else "شروع استفاده",
             s.startTime, TimeAgo(now, s.startTime))
  }

  /** The "finished" entry of lines 85-101. */
  function EndActivity(now: int, s: ActivitySession): Activity
    requires Ended(s)
  {
    var end := s.endTime.value;
    Activity("session-end-" + s.id, DeviceEnd, OrElse(s.deviceName, "دستگاه"),
             "پایان استفاده - " + DurationText(end - s.startTime) + " - " + PersianNumber(s.totalCost.value) + " ت",
             end, TimeAgo(now, end))
  }

  /** The entries one session contributes, in the order they are pushed. */
  function SessionEntries(now: int, s: ActivitySession): seq<Activity>
  {
    [StartActivity(now, s)] + (if Ended(s) then [EndActivity(now, s)] else [])
  }

  /** The entry of lines 107-119 for a sale. */
  function SaleEntry(now: int, s: ActivitySale): Activity
  {
    var device := OrElse(s.deviceName, "");
    var product := OrElse(s.productName, "محصول");
    Activity("sale-" + s.id, SaleActivity, "فروش بوفه",
             PersianNumber(s.quantity) + " × " + product + (if device != "" then " - " + device else ""),
             s.createdAt, TimeAgo(now, s.createdAt))
  }

  /** What the loop of lines 67-103 pushes. */
  function SessionActivities(now: int, sessions: seq<ActivitySession>): seq<Activity>
  {
    if sessions == [] then []
    else SessionActivities(now, sessions[..|sessions| - 1]) + SessionEntries(now, sessions[|sessions| - 1])
  }

  /** What the loop of lines 106-120 pushes. */
  function SaleActivities(now: int, sales: seq<ActivitySale>): seq<Activity>
  {
    if sales == [] then []
    else SaleActivities(now, sales[..|sales| - 1]) + [SaleEntry(now, sales[|sales| - 1])]
  }

  /** `allActivities` before sorting. */
  function Activities(now: int, sessions: seq<ActivitySession>, sales: seq<ActivitySale>): seq<Activity>
  {
    SessionActivities(now, sessions) + SaleActivities(now, sales)
  }

  /** The body of the loop of lines 67-103: the "started" entry, then the "finished" one if the session ended. */
  method PushSession(now: int, s: ActivitySession) returns (pushed: seq<Activity>)
    ensures pushed == SessionEntries(now, s)
  {
    pushed := [StartActivity(now, s)];
    if Ended(s) {
      pushed := pushed + [EndActivity(now, s)];
    }
  }

  /** The `forEach` loop of lines 67-103, pushing onto the empty `allActivities`. */
  method PushSessionActivities(now: int, sessions: seq<ActivitySession>) returns (all: seq<Activity>)
    ensures all == SessionActivities(now, sessions)
  {
    all := [];
    var k := 0;
    while k < |sessions|
      invariant 0 <= k <= |sessions|
      invariant all == SessionActivities(now, sessions[..k])
    {
      SessionActivitiesStep(now, sessions, k);
      var pushed := PushSession(now, sessions[k]);
      all := all + pushed;
      k := k + 1;
    }
    assert sessions[..|sessions|] == sessions;
  }

  /** One more session adds its entries at the end. */
  lemma SessionActivitiesStep(now: int, sessions: seq<ActivitySession>, k: int)
    requires 0 <= k < |sessions|
    ensures SessionActivities(now, sessions[..k + 1]) == SessionActivities(now, sessions[..k]) + SessionEntries(now, sessions[k])
  {
    assert sessions[..k + 1][..k] == sessions[..k];
  }

  /** The `forEach` loop of lines 106-120, pushing onto `all`. */
  method PushSaleActivities(now: int, sales: seq<ActivitySale>, front: seq<Activity>) returns (all: seq<Activity>)
    ensures all == front + SaleActivities(now, sales)
  {
    all := front;
    var k := 0;
    while k < |sales|
      invariant 0 <= k <= |sales|
      invariant all == front + SaleActivities(now, sales[..k])
    {
      SaleActivitiesStep(now, sales, k);
      PushOntoAppend(front, SaleActivities(now, sales[..k]), SaleEntry(now, sales[k]));
      all := all + [SaleEntry(now, sales[k])];
      k := k + 1;
    }
    assert sales[..|sales|] == sales;
  }

  /** One more sale adds its entry at the end. */
  lemma SaleActivitiesStep(now: int, sales: seq<ActivitySale>, k: int)
    requires 0 <= k < |sales|
    ensures SaleActivities(now, sales[..k + 1]) == SaleActivities(now, sales[..k]) + [SaleEntry(now, sales[k])]
  {
    assert sales[..k + 1][..k] == sales[..k];
  }

  /** Lines 64-120: `allActivities` starts empty and both loops push onto it. */
  method BuildActivities(now: int, sessions: seq<ActivitySession>, sales: seq<ActivitySale>) returns (all: seq<Activity>)
    ensures all == Activities(now, sessions, sales)
  {
    all := PushSessionActivities(now, sessions);
    all := PushSaleActivities(now, sales, all);
  }

  function ActivityTime(a: Activity): int { a.time }

  /** Lines 123-124: sorted by time, newest first, and the first ten kept. */
  function Recent(now: int, sessions: seq<ActivitySession>, sales: seq<ActivitySale>): seq<Activity>
  {
    Newest(Activities(now, sessions, sales), ActivityTime, 10)
  }

  predicate IsStart(a: Activity) { a.kind == DeviceStart }
  predicate IsEnd(a: Activity) { a.kind == DeviceEnd }
  predicate IsSale(a: Activity) { a.kind == SaleActivity }

  lemma CountSnoc<T>(s: seq<T>, x: T, p: T -> bool)
    ensures Count(s + [x], p) == Count(s, p) + (if p(x) then 1 else 0)
  {
    FilterSnoc(s, x, p);
  }

  lemma CountAppend<T>(a: seq<T>, b: seq<T>, p: T -> bool)
    ensures Count(a + b, p) == Count(a, p) + Count(b, p)
  {
    FilterAppend(a, b, p);
  }

  /** Each session gives one "started" entry, one "finished" entry when it ended, and no sale entry. */
  lemma {:induction false} SessionActivityCounts(now: int, sessions: seq<ActivitySession>)
    ensures Count(SessionActivities(now, sessions), IsStart) == |sessions|
    ensures Count(SessionActivities(now, sessions), IsEnd) == Count(sessions, Ended)
    ensures Count(SessionActivities(now, sessions), IsSale) == 0
  {
    if sessions != [] {
      var front := sessions[..|sessions| - 1];
      var s := sessions[|sessions| - 1];
      assert sessions == front + [s];
      SessionActivityCounts(now, front);
      var e := SessionEntries(now, s);
      CountAppend(SessionActivities(now, front), e, IsStart);
      CountAppend(SessionActivities(now, front), e, IsEnd);
      CountAppend(SessionActivities(now, front), e, IsSale);
      CountSnoc(front, s, Ended);
      CountAppend([StartActivity(now, s)], e[1..], IsStart);
      CountAppend([StartActivity(now, s)], e[1..], IsEnd);
      CountAppend([StartActivity(now, s)], e[1..], IsSale);
      assert e == [StartActivity(now, s)] + e[1..];
    }
  }

  /** Each sale gives exactly one sale entry and nothing else. */
  lemma {:induction false} SaleActivityCounts(now: int, sales: seq<ActivitySale>)
    ensures Count(SaleActivities(now, sales), IsSale) == |sales|
    ensures Count(SaleActivities(now, sales), IsStart) == 0
    ensures Count(SaleActivities(now, sales), IsEnd) == 0
  {
    if sales != [] {
      var front := sales[..|sales| - 1];
      SaleActivityCounts(now, front);
      var x := SaleEntry(now, sales[|sales| - 1]);
      CountSnoc(SaleActivities(now, front), x, IsSale);
      CountSnoc(SaleActivities(now, front), x, IsStart);
      CountSnoc(SaleActivities(now, front), x, IsEnd);
    }
  }

  /**
   * Before the cut to ten: exactly one "started" entry per session, one "finished" entry per
   * session with an end time and a nonzero cost, and one entry per sale.
   */
  lemma ActivityCounts(now: int, sessions: seq<ActivitySession>, sales: seq<ActivitySale>)
    ensures Count(Activities(now, sessions, sales), IsStart) == |sessions|
    ensures Count(Activities(now, sessions, sales), IsEnd) == Count(sessions, Ended)
    ensures Count(Activities(now, sessions, sales), IsSale) == |sales|
    ensures |Activities(now, sessions, sales)| == |sessions| + Count(sessions, Ended) + |sales|
  {
    var a := SessionActivities(now, sessions);
    var b := SaleActivities(now, sales);
    SessionActivityCounts(now, sessions);
    SaleActivityCounts(now, sales);
    CountAppend(a, b, IsStart);
    CountAppend(a, b, IsEnd);
    CountAppend(a, b, IsSale);
    EveryKindCounted(a + b);
  }

  /** Every entry has one of the three kinds, so the three counts add up to the length. */
  lemma {:induction false} EveryKindCounted(s: seq<Activity>)
    ensures |s| == Count(s, IsStart) + Count(s, IsEnd) + Count(s, IsSale)
  {
    if s != [] {
      var front := s[..|s| - 1];
      assert s == front + [s[|s| - 1]];
      EveryKindCounted(front);
      CountSnoc(front, s[|s| - 1], IsStart);
      CountSnoc(front, s[|s| - 1], IsEnd);
      CountSnoc(front, s[|s| - 1], IsSale);
    }
  }

  /**
   * The feed holds min(10, all) entries, newest first, each one of the built entries, and no
   * entry left out is newer than any entry kept.
   */
  lemma RecentAreNewest(now: int, sessions: seq<ActivitySession>, sales: seq<ActivitySale>)
    ensures |Recent(now, sessions, sales)| == if |Activities(now, sessions, sales)| < 10 then |Activities(now, sessions, sales)| else 10
    ensures SortedDesc(Recent(now, sessions, sales), ActivityTime)
    ensures multiset(Recent(now, sessions, sales)) <= multiset(Activities(now, sessions, sales))
    ensures forall x: Activity, i ::
              (x in multiset(Activities(now, sessions, sales)) - multiset(Recent(now, sessions, sales)) &&
               0 <= i < |Recent(now, sessions, sales)|) ==>
              x.time <= Recent(now, sessions, sales)[i].time
  {
    var all := Activities(now, sessions, sales);
    NewestAreNewest(all, ActivityTime, 10);
    var r := Recent(now, sessions, sales);
    forall x: Activity, i | x in multiset(all) - multiset(r) && 0 <= i < |r|
      ensures x.time <= r[i].time
    {
      assert ActivityTime(x) <= ActivityTime(r[i]);
    }
  }

  // ---------------------------------------------------------------------------------------------
  // The hook

  class RecentActivityHook {
    var activities: seq<Activity>
    var loading: bool

    constructor ()
      ensures activities == [] && loading
    {
      activities := [];
      loading := true;
    }

    /**
     * `fetchActivities()` at time `now`, with the two query results (None for a query error).
     * With no game center, or when a query fails, only `loading` changes; otherwise the feed is
     * replaced by the ten newest entries.
     */
    method FetchActivities(hasCenter: bool, now: int, sessions: Option<seq<ActivitySession>>, sales: Option<seq<ActivitySale>>)
      modifies this
      ensures !loading
      ensures !(hasCenter && sessions.Some? && sales.Some?) ==> activities == old(activities)
      ensures hasCenter && sessions.Some? && sales.Some? ==> activities == Recent(now, sessions.value, sales.value)
    {
      if !hasCenter {
        loading := false;
        return;
      }
      if sessions.None? || sales.None? {
        loading := false;
        return;
      }
      var all := BuildActivities(now, sessions.value, sales.value);
      activities := Newest(all, ActivityTime, 10);
      loading := false;
    }
  }
}
