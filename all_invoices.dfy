/**
 * `fetchInvoices` of the invoices hook: one invoice per finished session and per sale, grouped by
 * day in a JavaScript `Map`, the days newest first, each with its invoices latest first and its
 * total. A day key (`toISOString().split('T')[0]`) is a whole day number, and the hour and minute
 * `toLocaleTimeString` shows is a minute of the day, so that `localeCompare` on two times means
 * comparing those minutes.
 */
module AllInvoices {
  import opened Wrappers
  import opened Seqs
  import opened JsText
  import opened OrderedMap
  import opened Tally
  import opened Sorting

  /** A fetched finished `device_sessions` row, with the `name` of its device joined in. */
  datatype InvoiceSession = InvoiceSession(
    id: string, endDay: int, endMinute: int, totalCost: Option<int>, deviceName: Option<string>, customerName: Option<string>)

  /** A fetched `sales` row. */
  datatype InvoiceSale = InvoiceSale(
    id: string, createdDay: int, createdMinute: int, quantity: int, totalPrice: Option<int>, customerName: Option<string>)

  datatype InvoiceKind = DeviceInvoice | BuffetInvoice

  datatype Invoice = Invoice(
    id: string, kind: InvoiceKind, date: int, time: int, description: string, amount: int,
    deviceName: Option<string>, customerName: Option<string>, quantity: Option<int>)

  datatype InvoiceByDay = InvoiceByDay(date: int, invoices: seq<Invoice>, totalAmount: int)

  /** `x || undefined` on an optional string: the empty string counts as absent. */
  function NonEmpty(x: Option<string>): Option<string>
  {
    if x.Some? && x.value != "" then x else None
  }

  /** `session.total_cost || 0`. */
  function SessionAmount(s: InvoiceSession): int { s.totalCost.GetOr(0) }

  /** `sale.total_price || 0`. */
  function SaleAmount(s: InvoiceSale): int { s.totalPrice.GetOr(0) }

  /** The invoice pushed for a session (lines 63-72). */
  function SessionInvoice(s: InvoiceSession): Invoice
  {
    var name := if s.deviceName.Some? && s.deviceName.value != "" then s.deviceName.value else "دستگاه";
    Invoice("device-" + s.id, DeviceInvoice, s.endDay, s.endMinute, "استفاده از " + name,
            SessionAmount(s), s.deviceName, NonEmpty(s.customerName), None)
  }

  /** The invoice pushed for a sale (lines 88-98). */
  function SaleInvoice(s: InvoiceSale): Invoice
  {
    Invoice("sale-" + s.id, BuffetInvoice, s.createdDay, s.createdMinute, "فروش " + IntToString(s.quantity) + "x",
            SaleAmount(s), None, NonEmpty(s.customerName), Some(s.quantity))
  }

  /** The invoices the loop of lines 61-73 pushes, in order. */
  function SessionInvoices(sessions: seq<InvoiceSession>): seq<Invoice>
  {
    MapOf(sessions, SessionInvoice)
  }

  /** The invoices the loop of lines 86-99 pushes, in order. */
  function SaleInvoices(sales: seq<InvoiceSale>): seq<Invoice>
  {
    MapOf(sales, SaleInvoice)
  }

  /** `allInvoices` after both loops: the sessions' invoices, then the sales'. */
  function Invoices(sessions: seq<InvoiceSession>, sales: seq<InvoiceSale>): seq<Invoice>
  {
    SessionInvoices(sessions) + SaleInvoices(sales)
  }

  /** The `forEach` loop of lines 61-73. */
  method PushSessionInvoices(sessions: seq<InvoiceSession>) returns (all: seq<Invoice>)
    ensures all == SessionInvoices(sessions)
  {
    all := [];
    var k := 0;
    while k < |sessions|
      invariant 0 <= k <= |sessions|
      invariant all == SessionInvoices(sessions[..k])
    {
      all := all + [SessionInvoice(sessions[k])];
      MapPrefixSnoc(sessions, k, SessionInvoice);
      k := k + 1;
    }
    assert sessions[..k] == sessions;
  }

  /** The `forEach` loop of lines 86-99, pushing onto what the first loop built. */
  method PushSaleInvoices(front: seq<Invoice>, sales: seq<InvoiceSale>) returns (all: seq<Invoice>)
    ensures all == front + SaleInvoices(sales)
  {
    all := front;
    var k := 0;
    while k < |sales|
      invariant 0 <= k <= |sales|
      invariant all == front + SaleInvoices(sales[..k])
    {
      MapPrefixSnoc(sales, k, SaleInvoice);
      PushOntoAppend(front, SaleInvoices(sales[..k]), SaleInvoice(sales[k]));
      all := all + [SaleInvoice(sales[k])];
      k := k + 1;
    }
    assert sales[..k] == sales;
  }

  /** The two loops of lines 61-73 and 86-99. */
  method BuildInvoices(sessions: seq<InvoiceSession>, sales: seq<InvoiceSale>) returns (all: seq<Invoice>)
    ensures all == Invoices(sessions, sales)
  {
    all := PushSessionInvoices(sessions);
    all := PushSaleInvoices(all, sales);
  }

  function Amount(x: Invoice): int { x.amount }

  function InvoiceDate(x: Invoice): int { x.date }

  function Time(x: Invoice): int { x.time }

  /** One invoice per session, in order, and then one per sale. */
  lemma InvoicesAt(sessions: seq<InvoiceSession>, sales: seq<InvoiceSale>)
    ensures |Invoices(sessions, sales)| == |sessions| + |sales|
    ensures forall i :: 0 <= i < |sessions| ==> Invoices(sessions, sales)[i] == SessionInvoice(sessions[i])
    ensures forall i :: 0 <= i < |sales| ==> Invoices(sessions, sales)[|sessions| + i] == SaleInvoice(sales[i])
  {
    MapAppendAt(sessions, SessionInvoice, sales, SaleInvoice);
  }

  /** Each invoice carries its cost or price, 0 when null, so the amounts add up to the costs plus the prices. */
  lemma InvoicesTotal(sessions: seq<InvoiceSession>, sales: seq<InvoiceSale>)
    ensures SumOf(Invoices(sessions, sales), Amount) == SumOf(sessions, SessionAmount) + SumOf(sales, SaleAmount)
  {
    var a := SessionInvoices(sessions);
    var b := SaleInvoices(sales);
    SumAppend(a, b, Amount);
    SumPointwise(a, Amount, sessions, SessionAmount);
    SumPointwise(b, Amount, sales, SaleAmount);
  }

  lemma PrefixCancels(p: string, a: string, b: string)
    requires p + a == p + b
    ensures a == b
  {
    assert a == (p + a)[|p|..];
    assert b == (p + b)[|p|..];
  }

  /** Invoice ids are unique when session ids and sale ids are: the prefixes `device-` and `sale-` differ. */
  lemma InvoiceIdsDistinct(sessions: seq<InvoiceSession>, sales: seq<InvoiceSale>)
    requires forall i, j :: 0 <= i < j < |sessions| ==> sessions[i].id != sessions[j].id
    requires forall i, j :: 0 <= i < j < |sales| ==> sales[i].id != sales[j].id
    ensures forall i, j :: 0 <= i < j < |Invoices(sessions, sales)| ==> Invoices(sessions, sales)[i].id != Invoices(sessions, sales)[j].id
  {
    var all := Invoices(sessions, sales);
    var n := |sessions|;
    InvoicesAt(sessions, sales);
    forall i, j | 0 <= i < j < |all| ensures all[i].id != all[j].id {
      if j < n {
        if all[i].id == all[j].id {
          PrefixCancels("device-", sessions[i].id, sessions[j].id);
        }
      } else if i >= n {
        assert all[n + (i - n)] == SaleInvoice(sales[i - n]) && all[n + (j - n)] == SaleInvoice(sales[j - n]);
        if all[i].id == all[j].id {
          PrefixCancels("sale-", sales[i - n].id, sales[j - n].id);
        }
      } else {
        assert all[n + (j - n)] == SaleInvoice(sales[j - n]);
        assert all[i].id[0] == 'd' && all[j].id[0] == 's';
      }
    }
  }

  // ---------------------------------------------------------------------------------------------
  // Grouping by day

  type Groups = Entries<int, seq<Invoice>>

  /** One step of lines 104-108: the invoice is appended to its day's list, a new day coming last. */
  function AddInvoice(m: Groups, x: Invoice): Groups
  {
    Set(m, x.date, Get(m, x.date).GetOr([]) + [x])
  }

  /** `dateMap` after the loop of lines 104-108. */
  function Grouped(s: seq<Invoice>): Groups
  {
    if s == [] then [] else AddInvoice(Grouped(s[..|s| - 1]), s[|s| - 1])
  }

  /** The loop of lines 102-108. */
  method GroupByDate(all: seq<Invoice>) returns (groups: Groups)
    ensures groups == Grouped(all)
  {
    groups := [];
    var k := 0;
    while k < |all|
      invariant 0 <= k <= |all|
      invariant groups == Grouped(all[..k])
    {
      var x := all[k];
      var invoices := Get(groups, x.date).GetOr([]);
      invoices := invoices + [x];
      groups := Set(groups, x.date, invoices);
      assert all[..k + 1][..k] == all[..k];
      k := k + 1;
    }
    assert all[..|all|] == all;
  }

  lemma AddInvoiceSame(m: Groups, x: Invoice)
    requires DistinctKeys(m)
    ensures Get(AddInvoice(m, x), x.date) == Some(Get(m, x.date).GetOr([]) + [x])
  {
    var v := Get(m, x.date).GetOr([]) + [x];
    var r := Set(m, x.date, v);
    SetAt(m, x.date, v);
    assert Get(r, x.date) == Some(v);
    assert AddInvoice(m, x) == r;
  }

  lemma AddInvoiceOther(m: Groups, x: Invoice, d: int)
    requires d != x.date
    ensures Get(AddInvoice(m, x), d) == Get(m, d)
  {
    var v := Get(m, x.date).GetOr([]) + [x];
    var r := Set(m, x.date, v);
    GetSetOther(m, x.date, v, d);
    assert Get(r, d) == Get(m, d);
    assert AddInvoice(m, x) == r;
  }

  lemma {:induction false} GroupedDistinct(s: seq<Invoice>)
    ensures DistinctKeys(Grouped(s))
  {
    if s != [] {
      var prev := Grouped(s[..|s| - 1]);
      var x := s[|s| - 1];
      GroupedDistinct(s[..|s| - 1]);
      SetAt(prev, x.date, Get(prev, x.date).GetOr([]) + [x]);
    }
  }

  /**
   * A day is in the map exactly when some invoice has that date, and its list is exactly the
   * invoices of that date, in the order they were pushed.
   */
  lemma {:induction false} GroupedValue(s: seq<Invoice>, d: int)
    ensures HasKey(Grouped(s), d) <==> |Under(s, InvoiceDate, d)| > 0
    ensures Get(Grouped(s), d).GetOr([]) == Under(s, InvoiceDate, d)
  {
    if s != [] {
      var init := s[..|s| - 1];
      var x := s[|s| - 1];
      assert s == init + [x];
      GroupedValue(init, d);
      GroupedDistinct(init);
      var prev := Grouped(init);
      assert Grouped(s) == AddInvoice(prev, x);
      UnderSnoc(init, x, InvoiceDate, d);
      if x.date == d {
        AddInvoiceSame(prev, x);
      } else {
        AddInvoiceOther(prev, x, d);
        assert Under(s, InvoiceDate, d) == Under(init, InvoiceDate, d);
      }
    }
  }

  /** What a day's list adds up to. */
  function GroupTotal(v: seq<Invoice>): int { SumOf(v, Amount) }

  /** The day totals of the map add up to all the amounts. */
  lemma {:induction false} GroupedSum(s: seq<Invoice>)
    ensures ValueSum(Grouped(s), GroupTotal) == SumOf(s, Amount)
  {
    if s != [] {
      var init := s[..|s| - 1];
      var x := s[|s| - 1];
      GroupedSum(init);
      GroupedDistinct(init);
      var prev := Grouped(init);
      var before := Get(prev, x.date).GetOr([]);
      ValueSumSet(prev, x.date, before + [x], GroupTotal);
      SumSnoc(before, x, Amount);
      assert (match Get(prev, x.date) case Some(w) => GroupTotal(w) case None => 0) == GroupTotal(before);
      assert Grouped(s) == Set(prev, x.date, before + [x]);
    }
  }

  /**
   * The grouping partitions the invoices: each entry's list is the invoices of its own date and is
   * never empty, and every invoice is in the list of its date.
   */
  lemma GroupsPartition(s: seq<Invoice>)
    ensures forall i :: 0 <= i < |Grouped(s)| ==>
              Grouped(s)[i].1 == Under(s, InvoiceDate, Grouped(s)[i].0) && Grouped(s)[i].1 != []
    ensures forall j :: 0 <= j < |s| ==> exists i :: 0 <= i < |Grouped(s)| && Grouped(s)[i].0 == s[j].date && s[j] in Grouped(s)[i].1
  {
    var g := Grouped(s);
    GroupedDistinct(s);
    forall i | 0 <= i < |g|
      ensures g[i].1 == Under(s, InvoiceDate, g[i].0) && g[i].1 != []
    {
      GetAt(g, i);
      GroupedValue(s, g[i].0);
    }
    forall j | 0 <= j < |s|
      ensures exists i :: 0 <= i < |g| && g[i].0 == s[j].date && s[j] in g[i].1
    {
      GroupedValue(s, s[j].date);
      assert s[j] in Under(s, InvoiceDate, s[j].date);
      var i :| 0 <= i < |g| && g[i].0 == s[j].date;
      GetAt(g, i);
    }
  }

  // ---------------------------------------------------------------------------------------------
  // The days, newest first

  function GroupDate(e: (int, seq<Invoice>)): int { e.0 }

  /** The entry total of line 115. */
  function EntryTotal(e: (int, seq<Invoice>)): int { SumOf(e.1, Amount) }

  /** One element of the `.map` of lines 113-123. */
  function DayOf(e: (int, seq<Invoice>)): InvoiceByDay
  {
    InvoiceByDay(e.0, SortDesc(e.1, Time), EntryTotal(e))
  }

  function TotalAmount(d: InvoiceByDay): int { d.totalAmount }

  /** Lines 111-123: the entries sorted newest date first, then each turned into a day. */
  function Days(groups: Groups): seq<InvoiceByDay>
  {
    var sorted := SortDesc(groups, GroupDate);
    seq(|sorted|, (i: int) requires 0 <= i < |sorted| => DayOf(sorted[i]))
  }

  lemma DaysShape(groups: Groups)
    ensures |Days(groups)| == |groups|
    ensures forall i :: 0 <= i < |groups| ==> Days(groups)[i] == DayOf(SortDesc(groups, GroupDate)[i])
  {
  }

  /** The days come strictly newest first: sorted by date, and no date twice. */
  lemma DaysNewestFirst(s: seq<Invoice>)
    ensures forall i, j :: 0 <= i < j < |Days(Grouped(s))| ==> Days(Grouped(s))[i].date > Days(Grouped(s))[j].date
  {
    var groups := Grouped(s);
    var sorted := SortDesc(groups, GroupDate);
    var days := Days(groups);
    GroupedDistinct(s);
    DistinctKeysPermutation(groups, sorted);
    DaysShape(groups);
    forall i, j | 0 <= i < j < |days| ensures days[i].date > days[j].date {
      assert GroupDate(sorted[i]) >= GroupDate(sorted[j]);
      assert sorted[i].0 != sorted[j].0;
      assert days[i].date == sorted[i].0 && days[j].date == sorted[j].0;
    }
  }

  /**
   * Each day holds exactly the invoices of its date (as a multiset), at least one, latest first,
   * with their amounts as its total.
   */
  lemma DaysHoldTheirInvoices(s: seq<Invoice>)
    ensures forall i :: 0 <= i < |Days(Grouped(s))| ==>
              var day := Days(Grouped(s))[i];
              multiset(day.invoices) == multiset(Under(s, InvoiceDate, day.date)) &&
              day.invoices != [] &&
              SortedDesc(day.invoices, Time) &&
              day.totalAmount == SumOf(day.invoices, Amount)
  {
    var groups := Grouped(s);
    var sorted := SortDesc(groups, GroupDate);
    DaysShape(groups);
    GroupsPartition(s);
    forall i | 0 <= i < |sorted|
      ensures multiset(DayOf(sorted[i]).invoices) == multiset(Under(s, InvoiceDate, sorted[i].0))
      ensures DayOf(sorted[i]).invoices != []
      ensures DayOf(sorted[i]).totalAmount == SumOf(DayOf(sorted[i]).invoices, Amount)
    {
      assert sorted[i] in multiset(groups);
      var p :| 0 <= p < |groups| && groups[p] == sorted[i];
      SumPermutation(groups[p].1, SortDesc(groups[p].1, Time), Amount);
    }
  }

  /** Every entry of the map becomes one of the days, with the same date and the same invoices reordered. */
  lemma DayOfEntry(groups: Groups, p: int) returns (i: int)
    requires 0 <= p < |groups|
    ensures 0 <= i < |Days(groups)| && Days(groups)[i].date == groups[p].0
    ensures multiset(Days(groups)[i].invoices) == multiset(groups[p].1)
  {
    var sorted := SortDesc(groups, GroupDate);
    DaysShape(groups);
    assert groups[p] in multiset(sorted);
    i :| 0 <= i < |sorted| && sorted[i] == groups[p];
    assert Days(groups)[i] == DayOf(groups[p]);
  }

  /** An invoice sits in the entry for its own date. */
  lemma GroupOf(s: seq<Invoice>, j: int) returns (p: int)
    requires 0 <= j < |s|
    ensures 0 <= p < |Grouped(s)| && Grouped(s)[p].0 == s[j].date && s[j] in Grouped(s)[p].1
  {
    var g := Grouped(s);
    GroupedValue(s, s[j].date);
    assert s[j] in Under(s, InvoiceDate, s[j].date);
    p :| 0 <= p < |g| && g[p].0 == s[j].date;
    GroupedDistinct(s);
    GetAt(g, p);
  }

  /** Some day of `days` carries the date of `x` and lists `x`. */
  predicate ListedOnItsDay(days: seq<InvoiceByDay>, x: Invoice)
  {
    exists i :: 0 <= i < |days| && days[i].date == x.date && x in days[i].invoices
  }

  /** Every invoice appears in the day of its date. */
  lemma DaysCoverAll(s: seq<Invoice>)
    ensures forall j :: 0 <= j < |s| ==> ListedOnItsDay(Days(Grouped(s)), s[j])
  {
    forall j | 0 <= j < |s|
      ensures ListedOnItsDay(Days(Grouped(s)), s[j])
    {
      var p := GroupOf(s, j);
      var i := DayOfEntry(Grouped(s), p);
      assert s[j] in multiset(Grouped(s)[p].1);
      assert s[j] in multiset(Days(Grouped(s))[i].invoices);
    }
  }

  /** The days' totals add up to all the amounts: every session's cost plus every sale's price. */
  lemma DaysTotal(sessions: seq<InvoiceSession>, sales: seq<InvoiceSale>)
    ensures SumOf(Days(Grouped(Invoices(sessions, sales))), TotalAmount) == SumOf(sessions, SessionAmount) + SumOf(sales, SaleAmount)
  {
    var all := Invoices(sessions, sales);
    var groups := Grouped(all);
    var sorted := SortDesc(groups, GroupDate);
    DaysShape(groups);
    SumPointwise(Days(groups), TotalAmount, sorted, EntryTotal);
    SumPermutation(sorted, groups, EntryTotal);
    ValueSumPointwise(groups, EntryTotal, groups, GroupTotal);
    GroupedSum(all);
    InvoicesTotal(sessions, sales);
  }

  // ---------------------------------------------------------------------------------------------
  // The hook

  class InvoicesHook {
    var loading: bool
    var invoicesByDay: seq<InvoiceByDay>

    constructor ()
      ensures loading && invoicesByDay == []
    {
      loading := true;
      invoicesByDay := [];
    }

    /**
     * `fetchInvoices()` with the two query results (None for a query error). With no game center,
     * or when either query fails, only `loading` changes; otherwise the days are replaced.
     */
    method FetchInvoices(hasCenter: bool, sessions: Option<seq<InvoiceSession>>, sales: Option<seq<InvoiceSale>>)
      modifies this
      ensures !loading
      ensures !(hasCenter && sessions.Some? && sales.Some?) ==> invoicesByDay == old(invoicesByDay)
      ensures hasCenter && sessions.Some? && sales.Some? ==>
                invoicesByDay == Days(Grouped(Invoices(sessions.value, sales.value)))
    {
      if !hasCenter {
        loading := false;
        return;
      }
      loading := true;
      if sessions.None? || sales.None? {
        loading := false;
        return;
      }
      var all := BuildInvoices(sessions.value, sales.value);
      var groups := GroupByDate(all);
      invoicesByDay := Days(groups);
      loading := false;
    }
  }
}
