/**
 * The notification bell (`useNotifications`): low-stock products, sessions running for more than
 * three hours and devices in maintenance each become an unread notification; the user can mark
 * one notification or all of them as read, and the bell shows how many are still unread.
 * Times are milliseconds since the epoch; the current time `now` is a parameter.
 */
module Notifications {
  import opened Wrappers
  import opened Seqs
  import opened JsMath
  import opened PersianDigits

  datatype NoticeKind = LowStock | SessionLong | Maintenance

  datatype Notification = Notification(id: string, kind: NoticeKind, title: string, message: string, time: int, read: bool)

  /** An active product with fewer than ten in stock, as the first query returns it. */
  datatype StockProduct = StockProduct(id: string, name: string, stock: int)

  /** A session with no end time that started more than three hours ago, with its device's `name`. */
  datatype OpenSession = OpenSession(id: string, startTime: int, deviceName: Option<string>)

  /** A device whose status is `maintenance`. */
  datatype ServicedDevice = ServicedDevice(id: string, name: string, updatedAt: int)

  const HourMs := 3600000

  // ---------------------------------------------------------------------------------------------
  // Building the notifications

  /** Lines 65-67: the whole hours a session has been running, `floor(ms / 1000 / 3600)`. */
  function LongSessionHours(now: int, start: int): int
  {
    FloorDiv(now - start, HourMs)
  }

  /**
   * The hour count is the number of whole hours elapsed since the start, and a session the query
   * returns (started more than three hours before `now`) shows at least three.
   */
  lemma LongSessionHoursMeaning(now: int, start: int)
    ensures LongSessionHours(now, start) * HourMs <= now - start < (LongSessionHours(now, start) + 1) * HourMs
    ensures start < now - 3 * HourMs ==> LongSessionHours(now, start) >= 3
  {
    var h := LongSessionHours(now, start);
    assert h * HourMs <= now - start < h * HourMs + HourMs;
  }

  /** Lines 40-47. */
  function LowStockNote(now: int, p: StockProduct): Notification
  {
    Notification("low-stock-" + p.id, LowStock, "موجودی کم",
                 p.name + " فقط " + PersianNumber(p.stock) + " عدد موجودی دارد", now, false)
  }

  /** Lines 64-75; a missing or empty device name reads "دستگاه". */
  function LongSessionNote(now: int, s: OpenSession): Notification
  {
    var device := if s.deviceName.Some? && s.deviceName.value != "" then s.deviceName.value else "دستگاه";
    Notification("long-session-" + s.id, SessionLong, "جلسه طولانی",
                 device + " بیش از " + PersianNumber(LongSessionHours(now, s.startTime)) + " ساعت فعال است",
                 s.startTime, false)
  }

  /** Lines 88-95. */
  function MaintenanceNote(d: ServicedDevice): Notification
  {
    Notification("maintenance-" + d.id, Maintenance, "در حال سرویس", d.name + " در حالت سرویس است", d.updatedAt, false)
  }

  function LowStockNotes(now: int, ps: seq<StockProduct>): seq<Notification>
  {
    if ps == [] then [] else LowStockNotes(now, ps[..|ps| - 1]) + [LowStockNote(now, ps[|ps| - 1])]
  }

  function LongSessionNotes(now: int, ss: seq<OpenSession>): seq<Notification>
  {
    if ss == [] then [] else LongSessionNotes(now, ss[..|ss| - 1]) + [LongSessionNote(now, ss[|ss| - 1])]
  }

  function MaintenanceNotes(ds: seq<ServicedDevice>): seq<Notification>
  {
    if ds == [] then [] else MaintenanceNotes(ds[..|ds| - 1]) + [MaintenanceNote(ds[|ds| - 1])]
  }

  /**
   * `newNotifications` after the three checks (lines 28-97). A query that fails (None) only
   * skips its own part.
   */
  function Built(now: int, products: Option<seq<StockProduct>>, sessions: Option<seq<OpenSession>>,
                 devices: Option<seq<ServicedDevice>>): seq<Notification>
  {
    LowStockNotes(now, products.GetOr([])) + LongSessionNotes(now, sessions.GetOr([])) + MaintenanceNotes(devices.GetOr([]))
  }

  /** The loop of lines 39-48: the notifications it pushes, in order. */
  method PushLowStock(now: int, ps: seq<StockProduct>) returns (all: seq<Notification>)
    ensures all == LowStockNotes(now, ps)
  {
    all := [];
    var k := 0;
    while k < |ps|
      invariant 0 <= k <= |ps|
      invariant all == LowStockNotes(now, ps[..k])
    {
      var x := LowStockNote(now, ps[k]);
      assert ps[..k + 1][..k] == ps[..k];
      assert LowStockNotes(now, ps[..k + 1]) == LowStockNotes(now, ps[..k]) + [x];
      all := all + [x];
      k := k + 1;
    }
    assert ps[..|ps|] == ps;
  }

  /** The loop of lines 63-76: the notifications it pushes, in order. */
  method PushLongSessions(now: int, ss: seq<OpenSession>) returns (all: seq<Notification>)
    ensures all == LongSessionNotes(now, ss)
  {
    all := [];
    var k := 0;
    while k < |ss|
      invariant 0 <= k <= |ss|
      invariant all == LongSessionNotes(now, ss[..k])
    {
      var x := LongSessionNote(now, ss[k]);
      assert ss[..k + 1][..k] == ss[..k];
      assert LongSessionNotes(now, ss[..k + 1]) == LongSessionNotes(now, ss[..k]) + [x];
      all := all + [x];
      k := k + 1;
    }
    assert ss[..|ss|] == ss;
  }

  /** The loop of lines 87-96: the notifications it pushes, in order. */
  method PushMaintenance(ds: seq<ServicedDevice>) returns (all: seq<Notification>)
    ensures all == MaintenanceNotes(ds)
  {
    all := [];
    var k := 0;
    while k < |ds|
      invariant 0 <= k <= |ds|
      invariant all == MaintenanceNotes(ds[..k])
    {
      var x := MaintenanceNote(ds[k]);
      assert ds[..k + 1][..k] == ds[..k];
      assert MaintenanceNotes(ds[..k + 1]) == MaintenanceNotes(ds[..k]) + [x];
      all := all + [x];
      k := k + 1;
    }
    assert ds[..|ds|] == ds;
  }

  /**
   * Lines 28-97: the list starts empty and each query that succeeds pushes its rows' notifications,
   * low stock first, then long sessions, then maintenance.
   */
  method BuildNotifications(now: int, products: Option<seq<StockProduct>>, sessions: Option<seq<OpenSession>>,
                            devices: Option<seq<ServicedDevice>>) returns (all: seq<Notification>)
    ensures all == Built(now, products, sessions, devices)
  {
    var lowStock: seq<Notification> := [];
    if products.Some? {
      lowStock := PushLowStock(now, products.value);
    }
    var longSessions: seq<Notification> := [];
    if sessions.Some? {
      longSessions := PushLongSessions(now, sessions.value);
    }
    var maintenance: seq<Notification> := [];
    if devices.Some? {
      maintenance := PushMaintenance(devices.value);
    }
    all := lowStock + longSessions + maintenance;
  }

  predicate IsUnread(n: Notification) { !n.read }

  /** `notifications.filter(n => !n.read).length` (line 125). */
  function UnreadCount(ns: seq<Notification>): (r: nat)
    ensures r <= |ns|
  {
    Count(ns, IsUnread)
  }

  lemma {:induction false} CountNone<T>(s: seq<T>, p: T -> bool)
    requires forall i :: 0 <= i < |s| ==> !p(s[i])
    ensures Count(s, p) == 0
  {
    if s != [] {
      var front := s[..|s| - 1];
      assert s == front + [s[|s| - 1]];
      CountNone(front, p);
      FilterSnoc(front, s[|s| - 1], p);
    }
  }

  /** A count that reaches the length means every element satisfies the predicate. */
  lemma {:induction false} CountFull<T>(s: seq<T>, p: T -> bool)
    requires Count(s, p) == |s|
    ensures forall i :: 0 <= i < |s| ==> p(s[i])
  {
    if s != [] {
      var front := s[..|s| - 1];
      assert s == front + [s[|s| - 1]];
      FilterSnoc(front, s[|s| - 1], p);
      CountFull(front, p);
      assert forall i :: 0 <= i < |front| ==> s[i] == front[i];
    }
  }

  lemma {:induction false} LowStockUnread(now: int, ps: seq<StockProduct>)
    ensures |LowStockNotes(now, ps)| == |ps| && UnreadCount(LowStockNotes(now, ps)) == |ps|
  {
    if ps != [] {
      LowStockUnread(now, ps[..|ps| - 1]);
      FilterSnoc(LowStockNotes(now, ps[..|ps| - 1]), LowStockNote(now, ps[|ps| - 1]), IsUnread);
    }
  }

  lemma {:induction false} LongSessionUnread(now: int, ss: seq<OpenSession>)
    ensures |LongSessionNotes(now, ss)| == |ss| && UnreadCount(LongSessionNotes(now, ss)) == |ss|
  {
    if ss != [] {
      LongSessionUnread(now, ss[..|ss| - 1]);
      FilterSnoc(LongSessionNotes(now, ss[..|ss| - 1]), LongSessionNote(now, ss[|ss| - 1]), IsUnread);
    }
  }

  lemma {:induction false} MaintenanceUnread(ds: seq<ServicedDevice>)
    ensures |MaintenanceNotes(ds)| == |ds| && UnreadCount(MaintenanceNotes(ds)) == |ds|
  {
    if ds != [] {
      MaintenanceUnread(ds[..|ds| - 1]);
      FilterSnoc(MaintenanceNotes(ds[..|ds| - 1]), MaintenanceNote(ds[|ds| - 1]), IsUnread);
    }
  }

  /**
   * A fresh list holds one notification per row of each successful query, every one of them
   * unread, so the bell counts them all.
   */
  lemma BuiltAllUnread(now: int, products: Option<seq<StockProduct>>, sessions: Option<seq<OpenSession>>,
                       devices: Option<seq<ServicedDevice>>)
    ensures |Built(now, products, sessions, devices)| ==
              |products.GetOr([])| + |sessions.GetOr([])| + |devices.GetOr([])|
    ensures UnreadCount(Built(now, products, sessions, devices)) == |Built(now, products, sessions, devices)|
    ensures forall i :: 0 <= i < |Built(now, products, sessions, devices)| ==> !Built(now, products, sessions, devices)[i].read
  {
    var a := LowStockNotes(now, products.GetOr([]));
    var b := LongSessionNotes(now, sessions.GetOr([]));
    var c := MaintenanceNotes(devices.GetOr([]));
    LowStockUnread(now, products.GetOr([]));
    LongSessionUnread(now, sessions.GetOr([]));
    MaintenanceUnread(devices.GetOr([]));
    FilterAppend(a, b, IsUnread);
    FilterAppend(a + b, c, IsUnread);
    CountFull(a + b + c, IsUnread);
  }

  // ---------------------------------------------------------------------------------------------
  // Read / unread bookkeeping

  /**
   * `prev.map(n => n.id === id ? { ...n, read: true } : n)` (lines 115-119): same length and order,
   * an entry becomes read exactly when it was read already or carries the id, and nothing but
   * `read` changes.
   */
  function MarkedRead(ns: seq<Notification>, id: string): (r: seq<Notification>)
    ensures |r| == |ns|
    ensures forall i :: 0 <= i < |ns| ==> r[i].read == (ns[i].read || ns[i].id == id)
    ensures forall i :: 0 <= i < |ns| ==> r[i].(read := ns[i].read) == ns[i]
  {
    seq(|ns|, (i: int) requires 0 <= i < |ns| => if ns[i].id == id then ns[i].(read := true) else ns[i])
  }

  /** `prev.map(n => ({ ...n, read: true }))` (lines 121-123). */
  function AllRead(ns: seq<Notification>): (r: seq<Notification>)
    ensures |r| == |ns|
    ensures forall i :: 0 <= i < |ns| ==> r[i].read && r[i].(read := ns[i].read) == ns[i]
  {
    seq(|ns|, (i: int) requires 0 <= i < |ns| => ns[i].(read := true))
  }

  /** Marking the same notification twice is the same as marking it once. */
  lemma MarkAsReadIdempotent(ns: seq<Notification>, id: string)
    ensures MarkedRead(MarkedRead(ns, id), id) == MarkedRead(ns, id)
  {
    var once := MarkedRead(ns, id);
    var twice := MarkedRead(once, id);
    forall i | 0 <= i < |ns| ensures twice[i] == once[i] {
      assert once[i].id == ns[i].id;
    }
  }

  /** An id no notification carries changes nothing. */
  lemma MarkUnknownId(ns: seq<Notification>, id: string)
    requires forall i :: 0 <= i < |ns| ==> ns[i].id != id
    ensures MarkedRead(ns, id) == ns
  {
    var r := MarkedRead(ns, id);
    forall i | 0 <= i < |ns| ensures r[i] == ns[i] {
      assert r[i].read == ns[i].read;
    }
  }

  /** After "mark all as read" nothing is unread, whatever was marked before. */
  lemma MarkAllAsReadClears(ns: seq<Notification>, id: string)
    ensures UnreadCount(AllRead(ns)) == 0
    ensures AllRead(MarkedRead(ns, id)) == AllRead(ns)
  {
    CountNone(AllRead(ns), IsUnread);
    var a := AllRead(MarkedRead(ns, id));
    var b := AllRead(ns);
    forall i | 0 <= i < |ns| ensures a[i] == b[i] {
      assert MarkedRead(ns, id)[i].(read := ns[i].read) == ns[i];
    }
  }

  /** The unread entries that carry `id`. */
  function UnreadWithId(ns: seq<Notification>, id: string): nat
  {
    if ns == [] then 0
    else UnreadWithId(ns[..|ns| - 1], id) + (if !ns[|ns| - 1].read && ns[|ns| - 1].id == id then 1 else 0)
  }

  /** Marking one id read lowers the unread count by exactly the unread entries with that id. */
  lemma {:induction false} MarkAsReadCount(ns: seq<Notification>, id: string)
    ensures UnreadCount(MarkedRead(ns, id)) + UnreadWithId(ns, id) == UnreadCount(ns)
  {
    if ns != [] {
      var front := ns[..|ns| - 1];
      var x := ns[|ns| - 1];
      var r := MarkedRead(ns, id);
      assert ns == front + [x];
      MarkAsReadCount(front, id);
      assert r == MarkedRead(front, id) + [r[|ns| - 1]];
      FilterSnoc(front, x, IsUnread);
      FilterSnoc(MarkedRead(front, id), r[|ns| - 1], IsUnread);
    }
  }

  // ---------------------------------------------------------------------------------------------
  // The hook

  class NotificationsHook {
    var notifications: seq<Notification>
    var loading: bool

    constructor ()
      ensures notifications == [] && loading
    {
      notifications := [];
      loading := true;
    }

    /** `unreadCount` (line 125). */
    function Unread(): nat
      reads this
    {
      UnreadCount(notifications)
    }

    /**
     * `fetchNotifications()` at time `now` with the three query results (None for a query error).
     * With no game center only `loading` changes; otherwise the list is replaced.
     */
    method FetchNotifications(hasCenter: bool, now: int, products: Option<seq<StockProduct>>,
                              sessions: Option<seq<OpenSession>>, devices: Option<seq<ServicedDevice>>)
      modifies this
      ensures !loading
      ensures !hasCenter ==> notifications == old(notifications)
      ensures hasCenter ==> notifications == Built(now, products, sessions, devices)
    {
      if !hasCenter {
        loading := false;
        return;
      }
      notifications := BuildNotifications(now, products, sessions, devices);
      loading := false;
    }

    /** `markAsRead(id)` (lines 115-119). */
    method MarkAsRead(id: string)
      modifies this
      ensures notifications == MarkedRead(old(notifications), id) && loading == old(loading)
    {
      notifications := MarkedRead(notifications, id);
    }

    /** `markAllAsRead()` (lines 121-123). */
    method MarkAllAsRead()
      modifies this
      ensures notifications == AllRead(old(notifications)) && loading == old(loading)
      ensures Unread() == 0
    {
      MarkAllAsReadClears(notifications, "");
      notifications := AllRead(notifications);
    }
  }
}
