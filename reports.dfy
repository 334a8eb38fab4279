/**
 * `fetchReports` of the reports hook: the revenue of each of the last seven days, the revenue per
 * device type with its share, the number of sessions per two-hour slot and the week's summary
 * figures. A day key (`toISOString().split('T')[0]`) is a whole day number, so consecutive days
 * are consecutive integers; `getHours()` of a session's start is an hour 0..23.
 */
module Reports {
  import opened Wrappers
  import opened Seqs
  import opened JsMath
  import opened OrderedMap
  import opened Tally
  import opened PersianDigits

  type Hour = h: int | 0 <= h < 24

  /** A fetched `device_sessions` row, with the `type` of its device joined in when there is one. */
  datatype ReportSession = ReportSession(createdDay: int, totalCost: Option<int>, deviceType: Option<string>, startHour: Hour)

  /** A fetched `sales` row. */
  datatype ReportSale = ReportSale(createdDay: int, totalPrice: Option<int>)

  datatype DailyRevenue = DailyRevenue(date: int, devicesRevenue: int, buffetRevenue: int)

  datatype DeviceTypeRevenue = DeviceTypeRevenue(deviceType: string, typeLabel: string, revenue: int, percentage: int)

  datatype HourlyUsage = HourlyUsage(hour: string, usage: int)

  datatype ReportStats = ReportStats(totalRevenue: int, devicesRevenue: int, buffetRevenue: int, averageDaily: int)

  function SessionDay(s: ReportSession): int { s.createdDay }

  function SaleDay(s: ReportSale): int { s.createdDay }

  /** `session.total_cost || 0`. */
  function SessionCost(s: ReportSession): int { s.totalCost.GetOr(0) }

  /** `sale.total_price || 0`. */
  function SalePrice(s: ReportSale): int { s.totalPrice.GetOr(0) }

  function DevicesRevenue(r: DailyRevenue): int { r.devicesRevenue }

  function BuffetRevenue(r: DailyRevenue): int { r.buffetRevenue }

  function Revenue(r: DeviceTypeRevenue): int { r.revenue }

  /** `Math.round(part / whole * 100)`, computed exactly. */
  function Percent(part: int, whole: int): int
    requires whole > 0
  {
    RoundDiv(part * 100, whole)
  }

  /** A part between nothing and the whole is between 0 and 100 percent, and the whole is 100. */
  lemma PercentBounds(part: int, whole: int)
    requires 0 <= part <= whole && whole > 0
    ensures 0 <= Percent(part, whole) <= 100
    ensures part == whole ==> Percent(part, whole) == 100
  {
    var q := Percent(part, whole);
    if q < 0 {
      MulMonotone(2 * q + 1, -1, whole);
      assert false;
    }
    if q > 100 {
      MulMonotone(201, 2 * q - 1, whole);
      assert false;
    }
    if part == whole {
      FloorDivUnique(2 * part * 100 + whole, 2 * whole, 100);
      assert q == 100;
    }
  }

  // ---------------------------------------------------------------------------------------------
  // Daily revenue

  /** The weights of the elements filed under day d, added left to right. */
  function On<T>(s: seq<T>, day: T -> int, w: T -> int, d: int): int
  {
    if s == [] then 0
    else On(s[..|s| - 1], day, w, d) + (if day(s[|s| - 1]) == d then w(s[|s| - 1]) else 0)
  }

  /** One more element adds its weight to its own day only. */
  lemma OnSnoc<T>(s: seq<T>, x: T, day: T -> int, w: T -> int, d: int)
    ensures On(s + [x], day, w, d) == On(s, day, w, d) + (if day(x) == d then w(x) else 0)
  {
    assert (s + [x])[..|s|] == s;
  }

  lemma OnSnocAll<T>(s: seq<T>, x: T, day: T -> int, w: T -> int)
    ensures forall d :: On(s + [x], day, w, d) == On(s, day, w, d) + (if day(x) == d then w(x) else 0)
  {
    forall d
      ensures On(s + [x], day, w, d) == On(s, day, w, d) + (if day(x) == d then w(x) else 0)
    {
      OnSnoc(s, x, day, w, d);
    }
  }

  /** The revenue of day d: what the sessions (sales) created that day brought in. */
  function DevicesOn(sessions: seq<ReportSession>, d: int): int
  {
    On(sessions, SessionDay, SessionCost, d)
  }

  function BuffetOn(sales: seq<ReportSale>, d: int): int
  {
    On(sales, SaleDay, SalePrice, d)
  }

  function Day(sessions: seq<ReportSession>, sales: seq<ReportSale>, d: int): DailyRevenue
  {
    DailyRevenue(d, DevicesOn(sessions, d), BuffetOn(sales, d))
  }

  /** The rows of the n days from `first` on, oldest first. */
  function Window(first: int, n: nat, sessions: seq<ReportSession>, sales: seq<ReportSale>): seq<DailyRevenue>
  {
    seq(n, (j: int) => Day(sessions, sales, first + j))
  }

  /** `dailyMap.get(d)`: the position of the row for day d, if there is one. */
  function Lookup(rows: seq<DailyRevenue>, d: int): (r: Option<nat>)
    ensures r.Some? ==> r.value < |rows| && rows[r.value].date == d
    ensures r.None? ==> forall j :: 0 <= j < |rows| ==> rows[j].date != d
  {
    if rows == [] then None
    else if rows[0].date == d then Some(0)
    else
      match Lookup(rows[1..], d)
      case None => None
      case Some(j) => Some(j + 1)
  }

  /**
   * The daily table: seven rows seeded with zero for the days from `weekAgo` (lines 82-87), then
   * each session's cost and each sale's price added to the row of its day when that row exists
   * (lines 90-105). Every row ends up holding exactly what was created on its day.
   */
  method DailyRevenueOf(weekAgo: int, sessions: seq<ReportSession>, sales: seq<ReportSale>) returns (daily: seq<DailyRevenue>)
    ensures daily == Window(weekAgo, 7, sessions, sales)
  {
    daily := [];
    var i := 0;
    while i < 7
      invariant 0 <= i <= 7 && |daily| == i
      invariant forall j :: 0 <= j < i ==> daily[j] == DailyRevenue(weekAgo + j, 0, 0)
    {
      daily := daily + [DailyRevenue(weekAgo + i, 0, 0)];
      i := i + 1;
    }
    var k := 0;
    while k < |sessions|
      invariant 0 <= k <= |sessions| && |daily| == 7
      invariant forall j :: 0 <= j < 7 ==> daily[j] == DailyRevenue(weekAgo + j, DevicesOn(sessions[..k], weekAgo + j), 0)
    {
      var s := sessions[k];
      var at := Lookup(daily, s.createdDay);
      if at.Some? {
        var j := at.value;
        daily := daily[j := daily[j].(devicesRevenue := daily[j].devicesRevenue + SessionCost(s))];
      }
      assert sessions[..k + 1] == sessions[..k] + [s];
      OnSnocAll(sessions[..k], s, SessionDay, SessionCost);
      k := k + 1;
    }
    assert sessions[..|sessions|] == sessions;
    k := 0;
    while k < |sales|
      invariant 0 <= k <= |sales| && |daily| == 7
      invariant forall j :: 0 <= j < 7 ==> daily[j] == DailyRevenue(weekAgo + j, DevicesOn(sessions, weekAgo + j), BuffetOn(sales[..k], weekAgo + j))
    {
      var s := sales[k];
      var at := Lookup(daily, s.createdDay);
      if at.Some? {
        var j := at.value;
        daily := daily[j := daily[j].(buffetRevenue := daily[j].buffetRevenue + SalePrice(s))];
      }
      assert sales[..k + 1] == sales[..k] + [s];
      OnSnocAll(sales[..k], s, SaleDay, SalePrice);
      k := k + 1;
    }
    assert sales[..|sales|] == sales;
    var want := Window(weekAgo, 7, sessions, sales);
    forall j | 0 <= j < 7 ensures daily[j] == want[j] {
      assert want[j] == Day(sessions, sales, weekAgo + j);
    }
  }

  /** A session created outside the window changes no row: the map has no key for its day. */
  lemma OutsideWindowIgnored(first: int, n: nat, sessions: seq<ReportSession>, sales: seq<ReportSale>, x: ReportSession)
    requires !(first <= x.createdDay < first + n)
    ensures Window(first, n, sessions + [x], sales) == Window(first, n, sessions, sales)
  {
    var a := Window(first, n, sessions + [x], sales);
    var b := Window(first, n, sessions, sales);
    forall j | 0 <= j < n ensures a[j] == b[j] {
      assert a[j] == Day(sessions + [x], sales, first + j);
      assert b[j] == Day(sessions, sales, first + j);
      OnSnoc(sessions, x, SessionDay, SessionCost, first + j);
    }
  }

  /** The sum, over the n days from `first`, of the weights filed under each day. */
  function DaysSum<T>(s: seq<T>, day: T -> int, w: T -> int, first: int, n: nat): int
  {
    if n == 0 then 0 else DaysSum(s, day, w, first, n - 1) + On(s, day, w, first + n - 1)
  }

  lemma {:induction false} DaysSumEmpty<T>(day: T -> int, w: T -> int, first: int, n: nat)
    ensures DaysSum([], day, w, first, n) == 0
  {
    if n > 0 {
      DaysSumEmpty(day, w, first, n - 1);
    }
  }

  /** One more element adds its weight to the days' sum exactly when its day is among them. */
  lemma {:induction false} DaysSumSnoc<T>(s: seq<T>, x: T, day: T -> int, w: T -> int, first: int, n: nat)
    ensures DaysSum(s + [x], day, w, first, n) == DaysSum(s, day, w, first, n) + (if first <= day(x) < first + n then w(x) else 0)
  {
    if n > 0 {
      DaysSumSnoc(s, x, day, w, first, n - 1);
      OnSnoc(s, x, day, w, first + n - 1);
    }
  }

  /** When every element falls inside the n days, the days' sums add up to the whole sum. */
  lemma {:induction false} WindowSum<T>(s: seq<T>, day: T -> int, w: T -> int, first: int, n: nat)
    requires forall i :: 0 <= i < |s| ==> first <= day(s[i]) < first + n
    ensures DaysSum(s, day, w, first, n) == SumOf(s, w)
  {
    if s == [] {
      DaysSumEmpty(day, w, first, n);
    } else {
      var init := s[..|s| - 1];
      var last := s[|s| - 1];
      assert s == init + [last];
      assert forall i :: 0 <= i < |init| ==> init[i] == s[i];
      WindowSum(init, day, w, first, n);
      DaysSumSnoc(init, last, day, w, first, n);
    }
  }

  /** The devices (buffet) column of the window sums the per-day revenues. */
  lemma {:induction false} WindowColumns(first: int, n: nat, sessions: seq<ReportSession>, sales: seq<ReportSale>)
    ensures SumOf(Window(first, n, sessions, sales), DevicesRevenue) == DaysSum(sessions, SessionDay, SessionCost, first, n)
    ensures SumOf(Window(first, n, sessions, sales), BuffetRevenue) == DaysSum(sales, SaleDay, SalePrice, first, n)
  {
    if n > 0 {
      var w := Window(first, n, sessions, sales);
      assert w == Window(first, n - 1, sessions, sales) + [Day(sessions, sales, first + n - 1)];
      WindowColumns(first, n - 1, sessions, sales);
      SumSnoc(Window(first, n - 1, sessions, sales), Day(sessions, sales, first + n - 1), DevicesRevenue);
      SumSnoc(Window(first, n - 1, sessions, sales), Day(sessions, sales, first + n - 1), BuffetRevenue);
    }
  }

  // ---------------------------------------------------------------------------------------------
  // Revenue per device type

  /** `(session.devices as any)?.type || 'other'`. */
  function TypeOf(s: ReportSession): string
  {
    if s.deviceType.None? || s.deviceType.value == "" then "other" else s.deviceType.value
  }

  /** `typeLabels[type] || type`. */
  function Label(t: string): string
  {
    if t == "pc" then "کامپیوتر"
    else if t == "playstation" then "پلی‌استیشن"
    else if t == "billiard" then "بیلیارد"
    else if t == "other" then "سایر"
    else t
  }

  /** `totalDeviceRevenue > 0 ? Math.round((revenue / totalDeviceRevenue) * 100) : 0`. */
  function Share(revenue: int, total: int): int
  {
    if total > 0 then Percent(revenue, total) else 0
  }

  /** `deviceTypeMap` after the loop of lines 129-133. */
  function TypeTotals(sessions: seq<ReportSession>): Entries<string, int>
  {
    Tally.Tally([], sessions, TypeOf, SessionCost)
  }

  /** The rows of lines 135-141, one per entry of the type map in insertion order. */
  function TypeRows(sessions: seq<ReportSession>): seq<DeviceTypeRevenue>
  {
    var types := TypeTotals(sessions);
    RowsOf(types, ValueSum(types, Itself))
  }

  /** The `.map` of lines 136-141 over the entries of the type map. */
  function RowsOf(types: Entries<string, int>, total: int): (rows: seq<DeviceTypeRevenue>)
  {
    seq(|types|, (i: int) requires 0 <= i < |types| => TypeRow(types[i], total))
  }

  function TypeRow(e: (string, int), total: int): DeviceTypeRevenue
  {
    DeviceTypeRevenue(e.0, Label(e.0), e.1, Share(e.1, total))
  }

  /** The loop of lines 129-133 followed by the conversion of lines 135-141. */
  method TypeRevenueOf(sessions: seq<ReportSession>) returns (rows: seq<DeviceTypeRevenue>)
    ensures rows == TypeRows(sessions)
  {
    var types: Entries<string, int> := [];
    var k := 0;
    while k < |sessions|
      invariant 0 <= k <= |sessions|
      invariant types == Tally.Tally([], sessions[..k], TypeOf, SessionCost)
    {
      var s := sessions[k];
      var current := Get(types, TypeOf(s)).GetOr(0);
      types := Set(types, TypeOf(s), current + SessionCost(s));
      assert sessions[..k + 1][..k] == sessions[..k];
      k := k + 1;
    }
    assert sessions[..|sessions|] == sessions;
    var total := ValueSum(types, Itself);
    rows := seq(|types|, (i: int) requires 0 <= i < |types| => TypeRow(types[i], total));
  }

  /**
   * The type map holds, without repeats, exactly the types some session has (a missing or empty
   * type counting as `other`), each with the revenue of its sessions; its values add up to the
   * revenue of all sessions.
   */
  lemma TypeTotalsMeaning(sessions: seq<ReportSession>)
    ensures DistinctKeys(TypeTotals(sessions))
    ensures forall t :: HasKey(TypeTotals(sessions), t) <==> |Under(sessions, TypeOf, t)| > 0
    ensures forall i :: 0 <= i < |TypeTotals(sessions)| ==>
              TypeTotals(sessions)[i].1 == SumOf(Under(sessions, TypeOf, TypeTotals(sessions)[i].0), SessionCost)
    ensures ValueSum(TypeTotals(sessions), Itself) == SumOf(sessions, SessionCost)
  {
    var types := TypeTotals(sessions);
    TallyShape([], sessions, TypeOf, SessionCost);
    TallySum([], sessions, TypeOf, SessionCost);
    forall i | 0 <= i < |types|
      ensures types[i].1 == SumOf(Under(sessions, TypeOf, types[i].0), SessionCost)
    {
      GetAt(types, i);
      TallyValue([], sessions, TypeOf, SessionCost, types[i].0);
    }
    forall t
      ensures HasKey(types, t) <==> |Under(sessions, TypeOf, t)| > 0
    {
      TallyValue([], sessions, TypeOf, SessionCost, t);
    }
  }

  /** The rows follow the entries of the map one for one, and their revenues add up to its values. */
  lemma RowsOfEntries(types: Entries<string, int>, total: int)
    ensures |RowsOf(types, total)| == |types|
    ensures forall i :: 0 <= i < |types| ==> RowsOf(types, total)[i] == TypeRow(types[i], total)
    ensures SumOf(RowsOf(types, total), Revenue) == ValueSum(types, Itself)
  {
    ValueSumPointwise(RowsOf(types, total), Revenue, types, Itself);
  }

  /**
   * One row per type that some session has, no type twice, each with the revenue of its sessions,
   * its label and its share of all session revenue; the rows' revenues add up to the sessions'
   * total, which is the summary's devices figure.
   */
  lemma TypeRowsMeaning(sessions: seq<ReportSession>)
    ensures forall i, j :: 0 <= i < j < |TypeRows(sessions)| ==> TypeRows(sessions)[i].deviceType != TypeRows(sessions)[j].deviceType
    ensures forall t :: (exists i :: 0 <= i < |TypeRows(sessions)| && TypeRows(sessions)[i].deviceType == t) <==> |Under(sessions, TypeOf, t)| > 0
    ensures forall i :: 0 <= i < |TypeRows(sessions)| ==>
              var row := TypeRows(sessions)[i];
              row.revenue == SumOf(Under(sessions, TypeOf, row.deviceType), SessionCost) &&
              row.typeLabel == Label(row.deviceType) &&
              row.percentage == Share(row.revenue, SumOf(sessions, SessionCost))
    ensures SumOf(TypeRows(sessions), Revenue) == SumOf(sessions, SessionCost)
  {
    TypeRowsKeys(sessions);
    TypeRowsFields(sessions);
  }

  lemma TypeRowsKeys(sessions: seq<ReportSession>)
    ensures forall i, j :: 0 <= i < j < |TypeRows(sessions)| ==> TypeRows(sessions)[i].deviceType != TypeRows(sessions)[j].deviceType
    ensures forall t :: (exists i :: 0 <= i < |TypeRows(sessions)| && TypeRows(sessions)[i].deviceType == t) <==> |Under(sessions, TypeOf, t)| > 0
  {
    var types := TypeTotals(sessions);
    var total := ValueSum(types, Itself);
    var rows := TypeRows(sessions);
    assert rows == RowsOf(types, total);
    TypeTotalsMeaning(sessions);
    RowsOfEntries(types, total);
    forall t
      ensures (exists i :: 0 <= i < |rows| && rows[i].deviceType == t) <==> HasKey(types, t)
    {
      if HasKey(types, t) {
        var i :| 0 <= i < |types| && types[i].0 == t;
        assert rows[i].deviceType == t;
      }
    }
  }

  lemma TypeRowsFields(sessions: seq<ReportSession>)
    ensures forall i :: 0 <= i < |TypeRows(sessions)| ==>
              var row := TypeRows(sessions)[i];
              row.revenue == SumOf(Under(sessions, TypeOf, row.deviceType), SessionCost) &&
              row.typeLabel == Label(row.deviceType) &&
              row.percentage == Share(row.revenue, SumOf(sessions, SessionCost))
    ensures SumOf(TypeRows(sessions), Revenue) == SumOf(sessions, SessionCost)
  {
    var types := TypeTotals(sessions);
    var total := ValueSum(types, Itself);
    var rows := TypeRows(sessions);
    assert rows == RowsOf(types, total);
    TypeTotalsMeaning(sessions);
    RowsOfEntries(types, total);
  }

  // ---------------------------------------------------------------------------------------------
  // Sessions per two-hour slot

  /** `Math.floor(hour / 2) * 2`. */
  function Slot(s: ReportSession): int
  {
    FloorDiv(s.startHour, 2) * 2
  }

  lemma SlotShape(s: ReportSession)
    ensures 0 <= Slot(s) <= 22 && Slot(s) % 2 == 0
    ensures Slot(s) <= s.startHour < Slot(s) + 2
  {
  }

  function One(s: ReportSession): int { 1 }

  /** The keys of the hourly map in the order the loop of lines 147-149 sets them (24 becomes 0). */
  function SeedSlot(i: int): int
  {
    if 10 + 2 * i == 24 then 0 else 10 + 2 * i
  }

  /** The hours shown, in the order of line 161. */
  const ShownSlots: seq<int> := [10, 12, 14, 16, 18, 20, 22, 0]

  /** `Math.max(...Array.from(hourlyMap.values()), 1)`. */
  function MaxOr1(m: Entries<int, int>): (r: int)
    ensures r >= 1
    ensures forall i :: 0 <= i < |m| ==> m[i].1 <= r
    ensures r == 1 || exists i :: 0 <= i < |m| && m[i].1 == r
  {
    if m == [] then 1
    else
      var rest := MaxOr1(m[..|m| - 1]);
      if m[|m| - 1].1 > rest then m[|m| - 1].1 else rest
  }

  /** `hourlyMap` after the loop of lines 151-156. */
  function SlotCounts(seed: Entries<int, int>, sessions: seq<ReportSession>): Entries<int, int>
  {
    Tally.Tally(seed, sessions, Slot, One)
  }

  /** The eight rows of lines 161-164 from the final map. */
  function HourRows(counts: Entries<int, int>): seq<HourlyUsage>
  {
    var peak := MaxOr1(counts);
    seq(8, (i: int) requires 0 <= i < 8 => HourlyUsage(PersianNumber(ShownSlots[i]), Percent(Get(counts, ShownSlots[i]).GetOr(0), peak)))
  }

  /** The seeded map: every slot from 10 to 22 and then 0, each with count 0. */
  function Seed(): Entries<int, int>
  {
    seq(8, (i: int) => (SeedSlot(i), 0))
  }

  /** The loop of lines 146-149. */
  method SeedSlots() returns (counts: Entries<int, int>)
    ensures counts == Seed()
  {
    counts := [];
    var h := 10;
    while h <= 24
      invariant 10 <= h <= 26 && h % 2 == 0
      invariant |counts| == (h - 10) / 2
      invariant forall i :: 0 <= i < |counts| ==> counts[i] == (SeedSlot(i), 0)
    {
      var key := if h == 24 then 0 else h;
      assert key == SeedSlot(|counts|);
      assert !HasKey(counts, key);
      counts := Set(counts, key, 0);
      h := h + 2;
    }
    var want := Seed();
    assert forall i :: 0 <= i < 8 ==> counts[i] == want[i];
  }

  /** The loop of lines 151-156, counting each session in its slot. */
  method CountSlots(seed: Entries<int, int>, sessions: seq<ReportSession>) returns (counts: Entries<int, int>)
    ensures counts == SlotCounts(seed, sessions)
  {
    counts := seed;
    var k := 0;
    while k < |sessions|
      invariant 0 <= k <= |sessions|
      invariant counts == Tally.Tally(seed, sessions[..k], Slot, One)
    {
      var s := sessions[k];
      var current := Get(counts, Slot(s)).GetOr(0);
      counts := Set(counts, Slot(s), current + 1);
      assert sessions[..k + 1][..k] == sessions[..k];
      k := k + 1;
    }
    assert sessions[..|sessions|] == sessions;
  }

  /** The loops of lines 146-156 followed by the conversion of lines 158-164. */
  method HourlyUsageOf(sessions: seq<ReportSession>) returns (rows: seq<HourlyUsage>)
    ensures rows == HourRows(SlotCounts(Seed(), sessions))
  {
    var counts := SeedSlots();
    counts := CountSlots(counts, sessions);
    rows := HourRows(counts);
  }

  /**
   * Always eight rows, labelled 10, 12, ..., 22, 0 in Persian digits; each slot's usage is the
   * number of sessions that started in it as a percentage of the busiest slot of the map (or of 1),
   * so it lies in [0, 100].
   */
  lemma HourRowsMeaning(sessions: seq<ReportSession>)
    ensures |HourRows(SlotCounts(Seed(), sessions))| == 8
    ensures forall i :: 0 <= i < 8 ==>
              var row := HourRows(SlotCounts(Seed(), sessions))[i];
              row.hour == PersianNumber(ShownSlots[i]) &&
              row.usage == Percent(|Under(sessions, Slot, ShownSlots[i])|, MaxOr1(SlotCounts(Seed(), sessions))) &&
              0 <= row.usage <= 100
  {
    var seed := Seed();
    var counts := SlotCounts(seed, sessions);
    var peak := MaxOr1(counts);
    assert DistinctKeys(seed) by {
      forall i, j | 0 <= i < j < 8 ensures seed[i].0 != seed[j].0 {
      }
    }
    TallyNonNegative(seed, sessions, Slot, One);
    forall i | 0 <= i < 8
      ensures Get(counts, ShownSlots[i]).GetOr(0) == |Under(sessions, Slot, ShownSlots[i])|
      ensures 0 <= Get(counts, ShownSlots[i]).GetOr(0) <= peak
    {
      var h := ShownSlots[i];
      assert seed[i] == (h, 0);
      GetAt(seed, i);
      TallyValue(seed, sessions, Slot, One, h);
      OnesCount(Under(sessions, Slot, h));
      GetIsEntry(counts, h);
    }
    forall i | 0 <= i < 8 {
      PercentBounds(Get(counts, ShownSlots[i]).GetOr(0), peak);
    }
  }

  /** Counting ones counts the elements. */
  lemma {:induction false} OnesCount(s: seq<ReportSession>)
    ensures SumOf(s, One) == |s|
  {
    if s != [] {
      OnesCount(s[..|s| - 1]);
    }
  }

  // ---------------------------------------------------------------------------------------------
  // Summary figures

  /** `stats` of lines 169-178. */
  function StatsOf(sessions: seq<ReportSession>, sales: seq<ReportSale>): ReportStats
  {
    var devices := SumOf(sessions, SessionCost);
    var buffet := SumOf(sales, SalePrice);
    ReportStats(devices + buffet, devices, buffet, RoundDiv(devices + buffet, 7))
  }

  /**
   * When every fetched session and sale was created in the seven days from `weekAgo` (what the
   * `created_at >= weekAgo` filter gives when nothing is dated in the future), the daily chart's
   * columns add up to the summary's devices and buffet figures, and the daily average is the
   * week's total divided by 7, rounded half up.
   */
  lemma WeekAddsUp(weekAgo: int, sessions: seq<ReportSession>, sales: seq<ReportSale>)
    requires forall i :: 0 <= i < |sessions| ==> weekAgo <= sessions[i].createdDay < weekAgo + 7
    requires forall i :: 0 <= i < |sales| ==> weekAgo <= sales[i].createdDay < weekAgo + 7
    ensures SumOf(Window(weekAgo, 7, sessions, sales), DevicesRevenue) == StatsOf(sessions, sales).devicesRevenue
    ensures SumOf(Window(weekAgo, 7, sessions, sales), BuffetRevenue) == StatsOf(sessions, sales).buffetRevenue
    ensures StatsOf(sessions, sales).totalRevenue == StatsOf(sessions, sales).devicesRevenue + StatsOf(sessions, sales).buffetRevenue
    ensures 14 * StatsOf(sessions, sales).averageDaily - 7 <= 2 * StatsOf(sessions, sales).totalRevenue < 14 * StatsOf(sessions, sales).averageDaily + 7
  {
    WindowColumns(weekAgo, 7, sessions, sales);
    WindowSum(sessions, SessionDay, SessionCost, weekAgo, 7);
    WindowSum(sales, SaleDay, SalePrice, weekAgo, 7);
  }

  // ---------------------------------------------------------------------------------------------
  // The hook

  class ReportsHook {
    var loading: bool
    var dailyRevenue: seq<DailyRevenue>
    var deviceTypeRevenue: seq<DeviceTypeRevenue>
    var hourlyUsage: seq<HourlyUsage>
    var stats: ReportStats

    constructor ()
      ensures loading
      ensures dailyRevenue == [] && deviceTypeRevenue == [] && hourlyUsage == []
      ensures stats == ReportStats(0, 0, 0, 0)
    {
      loading := true;
      dailyRevenue := [];
      deviceTypeRevenue := [];
      hourlyUsage := [];
      stats := ReportStats(0, 0, 0, 0);
    }

    /**
     * `fetchReports()` on day `today`, with the two query results (None for a query error). With
     * no game center, or when either query fails, nothing but `loading` changes; otherwise all
     * four report states are replaced.
     */
    method FetchReports(hasCenter: bool, today: int, sessions: Option<seq<ReportSession>>, sales: Option<seq<ReportSale>>)
      modifies this
      ensures !loading
      ensures !(hasCenter && sessions.Some? && sales.Some?) ==>
                dailyRevenue == old(dailyRevenue) && deviceTypeRevenue == old(deviceTypeRevenue) &&
                hourlyUsage == old(hourlyUsage) && stats == old(stats)
      ensures hasCenter && sessions.Some? && sales.Some? ==>
                dailyRevenue == Window(today - 6, 7, sessions.value, sales.value) &&
                deviceTypeRevenue == TypeRows(sessions.value) &&
                hourlyUsage == HourRows(SlotCounts(Seed(), sessions.value)) &&
                stats == StatsOf(sessions.value, sales.value)
    {
      if !hasCenter {
        loading := false;
        return;
      }
      loading := true;
      if sessions.None? || sales.None? {
        loading := false;
        return;
      }
      var weekAgo := today - 6;
      dailyRevenue := DailyRevenueOf(weekAgo, sessions.value, sales.value);
      deviceTypeRevenue := TypeRevenueOf(sessions.value);
      hourlyUsage := HourlyUsageOf(sessions.value);
      stats := StatsOf(sessions.value, sales.value);
      loading := false;
    }
  }
}
