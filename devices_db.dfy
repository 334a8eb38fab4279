/**
 * The device/session hook backed by the database (src/hooks/useDevicesDB.ts). The two tables
 * the hook reads and writes, `devices` and `device_sessions`, are fields of the hook object
 * beside the hook's `devices` state (the snapshot the last fetch produced). The timing and cost
 * arithmetic is exact integer arithmetic on millisecond timestamps.
 */
module DevicesDB {
  import opened Wrappers
  import opened Seqs
  import opened JsMath
  import opened Types

  datatype DeviceRow = DeviceRow(
    id: string,
    name: string,
    deviceType: DeviceType,
    status: DeviceStatus,
    hourlyRate: int)

  datatype SessionRow = SessionRow(
    id: string,
    deviceId: string,
    userId: Option<string>,
    startTime: int,
    endTime: Option<int>,
    pausedAt: Option<int>,
    totalPausedSeconds: Option<int>,
    isPaused: bool,
    totalCost: Option<int>,
    customerName: Option<string>)

  /** `DeviceWithSession`: a device row with the open session the fetch paired with it. */
  datatype DeviceWithSession = DeviceWithSession(device: DeviceRow, currentSession: Option<SessionRow>)

  // ---------------------------------------------------------------------------------------
  // Timing and cost

  /** `session.total_paused_seconds || 0`. */
  function StoredPausedSeconds(s: SessionRow): int
  {
    s.totalPausedSeconds.GetOr(0)
  }

  /** `new Date(session.paused_at!).getTime()`: a missing timestamp reads as the epoch. */
  function PausedAtOrEpoch(s: SessionRow): int
  {
    s.pausedAt.GetOr(0)
  }

  /** The paused total a resume writes: the stored total plus the whole seconds of this pause. */
  function ResumedPausedSeconds(s: SessionRow, now: int): (r: int)
    ensures var added := r - StoredPausedSeconds(s);
      added * 1000 <= now - PausedAtOrEpoch(s) < added * 1000 + 1000
  {
    StoredPausedSeconds(s) + FloorDiv(now - PausedAtOrEpoch(s), 1000)
  }

  /** The paused total stop writes: an ongoing pause is folded in, otherwise the stored total. */
  function FinalPausedSeconds(s: SessionRow, end: int): (r: int)
    ensures s.isPaused && s.pausedAt.Some? ==>
              var added := r - StoredPausedSeconds(s);
              added * 1000 <= end - s.pausedAt.value < added * 1000 + 1000
    ensures !(s.isPaused && s.pausedAt.Some?) ==> r == StoredPausedSeconds(s)
  {
    var base := StoredPausedSeconds(s);
    if s.isPaused && s.pausedAt.Some? then base + FloorDiv(end - s.pausedAt.value, 1000) else base
  }

  /** `totalSeconds`: whole seconds from start to end, minus the paused seconds; never clamped. */
  function BilledSeconds(start: int, end: int, pausedSeconds: int): (r: int)
    ensures (r + pausedSeconds) * 1000 <= end - start < (r + pausedSeconds) * 1000 + 1000
  {
    FloorDiv(end - start, 1000) - pausedSeconds
  }

  /** `Math.ceil(totalSeconds / 3600 * hourly_rate)`: the least whole amount covering the time used. */
  function Cost(seconds: int, rate: int): (r: int)
    ensures r * 3600 - 3600 < seconds * rate <= r * 3600
  {
    CeilDiv(seconds * rate, 3600)
  }

  /** No time or no rate costs nothing. */
  lemma CostZero(seconds: int, rate: int)
    requires seconds == 0 || rate == 0
    ensures Cost(seconds, rate) == 0
  {
    assert seconds * rate == 0;
    var r := Cost(seconds, rate);
    assert r * 3600 - 3600 < 0 <= r * 3600;
  }

  /** Rounding up: any positive time at any positive rate costs at least one unit. */
  lemma CostPositive(seconds: int, rate: int)
    requires seconds > 0 && rate > 0
    ensures Cost(seconds, rate) >= 1
  {
    assert seconds * rate >= 1 by {
      MulMonotone(1, seconds, rate);
    }
  }

  /** At a non-negative rate, more time never costs less. */
  lemma CostMonotone(s1: int, s2: int, rate: int)
    requires s1 <= s2 && rate >= 0
    ensures Cost(s1, rate) <= Cost(s2, rate)
  {
    assert s1 * rate <= s2 * rate by {
      if rate > 0 { MulMonotone(s1, s2, rate); }
    }
  }

  // ---------------------------------------------------------------------------------------
  // Session rows and the writes to them

  /** The row `startSession` inserts; the store fills the columns it does not name with null. */
  function NewSession(id: string, deviceId: string, userId: Option<string>, now: int): SessionRow
  {
    SessionRow(id, deviceId, userId, now, None, None, Some(0), false, None, None)
  }

  /** The column sets the hook writes with `.update(...)`. */
  datatype Patch =
    | PausePatch(at: int)
    | ResumePatch(pausedSeconds: int)
    | StopPatch(endTime: int, totalCost: int, pausedSeconds: int)

  function ApplyPatch(row: SessionRow, p: Patch): SessionRow
  {
    match p
    case PausePatch(at) => row.(isPaused := true, pausedAt := Some(at))
    case ResumePatch(t) => row.(isPaused := false, pausedAt := None, totalPausedSeconds := Some(t))
    case StopPatch(e, c, t) =>
      row.(endTime := Some(e), totalCost := Some(c), isPaused := false, pausedAt := None, totalPausedSeconds := Some(t))
  }

  /** `.from('device_sessions').update(p).eq('id', id)`. */
  function UpdateSessions(table: seq<SessionRow>, id: string, p: Patch): seq<SessionRow>
  {
    seq(|table|, i requires 0 <= i < |table| => if table[i].id == id then ApplyPatch(table[i], p) else table[i])
  }

  /** `.from('devices').update({ status }).eq('id', id)`. */
  function UpdateStatus(table: seq<DeviceRow>, id: string, status: DeviceStatus): seq<DeviceRow>
  {
    seq(|table|, i requires 0 <= i < |table| => if table[i].id == id then table[i].(status := status) else table[i])
  }

  /** What the pause button writes for the snapshot session s: resume when paused, else pause. */
  function TogglePatch(s: SessionRow, now: int): (p: Patch)
    ensures p.PausePatch? <==> !s.isPaused
    ensures p.PausePatch? ==> p.at == now
    ensures p.ResumePatch? ==> p.pausedSeconds - StoredPausedSeconds(s) == FloorDiv(now - PausedAtOrEpoch(s), 1000)
    ensures !p.StopPatch?
  {
    if s.isPaused then ResumePatch(ResumedPausedSeconds(s, now)) else PausePatch(now)
  }

  /** What the stop button writes for snapshot session s of a device billed at `rate`. */
  function StopPatchFor(s: SessionRow, rate: int, end: int): (p: Patch)
    ensures p.StopPatch? && p.endTime == end
    ensures p.pausedSeconds == FinalPausedSeconds(s, end)
    ensures p.totalCost == Cost(BilledSeconds(s.startTime, end, p.pausedSeconds), rate)
  {
    var paused := FinalPausedSeconds(s, end);
    StopPatch(end, Cost(BilledSeconds(s.startTime, end, paused), rate), paused)
  }

  /**
   * The toggle on a running session pauses it at `now` and keeps the paused total; on a paused
   * one it resumes, clearing the timestamp and adding the whole seconds since it (null counts as
   * 0 for the total and as the epoch for the timestamp). Identity, start and owner are kept.
   */
  lemma ToggleEffect(s: SessionRow, now: int)
    ensures var t := ApplyPatch(s, TogglePatch(s, now));
      t.id == s.id && t.deviceId == s.deviceId && t.startTime == s.startTime && t.endTime == s.endTime
      && t.isPaused == !s.isPaused
      && (!s.isPaused ==> t.pausedAt == Some(now) && t.totalPausedSeconds == s.totalPausedSeconds)
      && (s.isPaused ==>
            t.pausedAt.None? && t.totalPausedSeconds.Some?
            && (var added := t.totalPausedSeconds.value - StoredPausedSeconds(s);
                added * 1000 <= now - PausedAtOrEpoch(s) < added * 1000 + 1000))
  {
  }

  /**
   * Stop closes the session at `end` with the folded paused total and the cost of the billed
   * seconds at `rate`, unpaused and with no pause timestamp.
   */
  lemma StopEffect(s: SessionRow, rate: int, end: int)
    ensures var t := ApplyPatch(s, StopPatchFor(s, rate, end));
      var paused := FinalPausedSeconds(s, end);
      var billed := BilledSeconds(s.startTime, end, paused);
      t.id == s.id && t.deviceId == s.deviceId && t.startTime == s.startTime
      && t.endTime == Some(end) && !t.isPaused && t.pausedAt.None?
      && t.totalPausedSeconds == Some(paused)
      && t.totalCost == Some(Cost(billed, rate))
      && (billed + paused) * 1000 <= end - s.startTime < (billed + paused) * 1000 + 1000
  {
  }

  /** `is_paused` and `paused_at` agree: a timestamp is stored exactly while paused. */
  predicate PauseConsistent(row: SessionRow)
  {
    row.isPaused <==> row.pausedAt.Some?
  }

  /** Start, the toggle and stop all leave a session's pause flag and timestamp in agreement. */
  lemma TransitionsKeepPauseConsistent(row: SessionRow, now: int, rate: int, id: string, deviceId: string, user: Option<string>)
    ensures PauseConsistent(NewSession(id, deviceId, user, now))
    ensures PauseConsistent(ApplyPatch(row, TogglePatch(row, now)))
    ensures PauseConsistent(ApplyPatch(row, StopPatchFor(row, rate, now)))
    ensures ApplyPatch(row, StopPatchFor(row, rate, now)).endTime == Some(now)
  {
  }

  /** With a consistent row and a clock that does not run backwards, resuming never lowers the paused total. */
  lemma ResumeNeverLowersPausedTotal(row: SessionRow, now: int)
    requires row.isPaused && PauseConsistent(row) && PausedAtOrEpoch(row) <= now
    ensures ResumedPausedSeconds(row, now) >= StoredPausedSeconds(row)
  {
  }

  /**
   * A session started at t0, paused at t1, resumed at t2 and stopped at t3 (in clock order) is
   * billed the whole seconds of the run minus the whole seconds of the pause: never negative,
   * and never more than the whole seconds of the run.
   */
  lemma OnePauseCycle(id: string, deviceId: string, user: Option<string>, rate: int, t0: int, t1: int, t2: int, t3: int)
    requires t0 <= t1 <= t2 <= t3
    ensures var s0 := NewSession(id, deviceId, user, t0);
      var s1 := ApplyPatch(s0, TogglePatch(s0, t1));
      var s2 := ApplyPatch(s1, TogglePatch(s1, t2));
      var p := StopPatchFor(s2, rate, t3);
      var billed := BilledSeconds(t0, t3, p.pausedSeconds);
      var s3 := ApplyPatch(s2, p);
      p.pausedSeconds == FloorDiv(t2 - t1, 1000)
      && 0 <= billed <= FloorDiv(t3 - t0, 1000)
      && !s3.isPaused && s3.pausedAt.None? && s3.endTime == Some(t3) && s3.totalCost == Some(Cost(billed, rate))
  {
    var s0 := NewSession(id, deviceId, user, t0);
    var s1 := ApplyPatch(s0, TogglePatch(s0, t1));
    assert s1.isPaused && s1.pausedAt == Some(t1);
    var s2 := ApplyPatch(s1, TogglePatch(s1, t2));
    assert s2.totalPausedSeconds == Some(FloorDiv(t2 - t1, 1000)) && !s2.isPaused;
    FloorDivMonotone(t2 - t1, t3 - t0, 1000);
    assert FloorDiv(t2 - t1, 1000) >= 0;
  }

  lemma FloorDivMonotone(a: int, b: int, d: int)
    requires a <= b && d > 0
    ensures FloorDiv(a, d) <= FloorDiv(b, d)
  {
    var qa, qb := FloorDiv(a, d), FloorDiv(b, d);
    if qa > qb {
      MulMonotone(qb + 1, qa, d);
    }
  }

  /**
   * The worked example: start at t0, pause 10 s later, resume 30 s after that, stop at t0 + 100 s,
   * at 36000 per hour: 70 seconds billed, cost 700.
   */
  lemma ResumeThenStopExample(id: string, deviceId: string, t0: int)
    ensures var s0 := NewSession(id, deviceId, None, t0);
      var s1 := ApplyPatch(s0, TogglePatch(s0, t0 + 10000));
      var s2 := ApplyPatch(s1, TogglePatch(s1, t0 + 40000));
      var p := StopPatchFor(s2, 36000, t0 + 100000);
      p.pausedSeconds == 30 && BilledSeconds(t0, t0 + 100000, p.pausedSeconds) == 70 && p.totalCost == 700
  {
    var s0 := NewSession(id, deviceId, None, t0);
    var s1 := ApplyPatch(s0, TogglePatch(s0, t0 + 10000));
    var s2 := ApplyPatch(s1, TogglePatch(s1, t0 + 40000));
    assert FloorDiv(30000, 1000) == 30;
    assert s2.totalPausedSeconds == Some(30);
    assert FloorDiv(100000, 1000) == 100;
    assert Cost(70, 36000) == 700 by {
      assert CeilDiv(2520000, 3600) == 700;
    }
  }

  /** Stopping while paused: start at t0, pause 5 s later, stop at t0 + 25 s: 5 seconds billed. */
  lemma StopWhilePausedExample(id: string, deviceId: string, t0: int, rate: int)
    ensures var s0 := NewSession(id, deviceId, None, t0);
      var s1 := ApplyPatch(s0, TogglePatch(s0, t0 + 5000));
      var p := StopPatchFor(s1, rate, t0 + 25000);
      p.pausedSeconds == 20 && BilledSeconds(t0, t0 + 25000, p.pausedSeconds) == 5
  {
    assert FloorDiv(20000, 1000) == 20;
    assert FloorDiv(25000, 1000) == 25;
  }

  // ---------------------------------------------------------------------------------------
  // Pairing devices with their open sessions (fetchDevices) and the stats

  /** `.from('device_sessions').select('*').is('end_time', null)`. */
  function OpenSessions(table: seq<SessionRow>): seq<SessionRow>
  {
    Filter(table, IsOpen)
  }

  predicate IsOpen(s: SessionRow) { s.endTime.None? }

  /** The `find` predicate `s => s.device_id === device.id`. */
  function ForDevice(deviceId: string): SessionRow -> bool
  {
    (s: SessionRow) => s.deviceId == deviceId
  }

  /** `sessionsData.find(s => s.device_id === device.id) || null`: the first session for the device. */
  function FindSession(sessions: seq<SessionRow>, deviceId: string): (r: Option<SessionRow>)
    ensures r.Some? ==> r.value in sessions && r.value.deviceId == deviceId
    ensures r.None? <==> forall i :: 0 <= i < |sessions| ==> sessions[i].deviceId != deviceId
    ensures r.Some? ==> exists i :: 0 <= i < |sessions| && sessions[i] == r.value && sessions[i].deviceId == deviceId
                          && forall j :: 0 <= j < i ==> sessions[j].deviceId != deviceId
  {
    FirstOf(sessions, ForDevice(deviceId))
  }

  /** The device list fetchDevices builds: each device row with the first open session for it. */
  function PairSessions(rows: seq<DeviceRow>, open: seq<SessionRow>): seq<DeviceWithSession>
  {
    seq(|rows|, i requires 0 <= i < |rows| => DeviceWithSession(rows[i], FindSession(open, rows[i].id)))
  }

  /**
   * After a fetch, the devices are the table's rows in order, and a device carries a session
   * exactly when the sessions table holds an open session for it; the one carried is the first
   * open session for the device in table order.
   */
  lemma FetchPairsOpenSessions(rows: seq<DeviceRow>, table: seq<SessionRow>)
    ensures var r := PairSessions(rows, OpenSessions(table));
      |r| == |rows|
      && (forall i :: 0 <= i < |r| ==> r[i].device == rows[i])
      && (forall i :: 0 <= i < |r| && r[i].currentSession.Some? ==>
            exists k :: 0 <= k < |table| && table[k] == r[i].currentSession.value
              && OpenFor(table[k], rows[i].id) && forall j :: 0 <= j < k ==> !OpenFor(table[j], rows[i].id))
      && (forall i :: 0 <= i < |r| && r[i].currentSession.None? ==>
            forall j :: 0 <= j < |table| ==> !OpenFor(table[j], rows[i].id))
  {
    var open := OpenSessions(table);
    var r := PairSessions(rows, open);
    forall i | 0 <= i < |r|
      ensures r[i].currentSession.Some? ==>
            exists k :: 0 <= k < |table| && table[k] == r[i].currentSession.value
              && OpenFor(table[k], rows[i].id) && forall j :: 0 <= j < k ==> !OpenFor(table[j], rows[i].id)
      ensures r[i].currentSession.None? ==> forall j :: 0 <= j < |table| ==> !OpenFor(table[j], rows[i].id)
    {
      OpenFirstSession(table, rows[i].id);
    }
  }

  /** Searching the open sessions for a device finds the first open session for it in the table. */
  lemma OpenFirstSession(table: seq<SessionRow>, deviceId: string)
    ensures var r := FindSession(OpenSessions(table), deviceId);
      (r.Some? ==> exists k :: 0 <= k < |table| && table[k] == r.value && OpenFor(table[k], deviceId)
                     && forall j :: 0 <= j < k ==> !OpenFor(table[j], deviceId))
      && (r.None? ==> forall j :: 0 <= j < |table| ==> !OpenFor(table[j], deviceId))
  {
    var both := Both(IsOpen, ForDevice(deviceId));
    FirstOfFilter(table, IsOpen, ForDevice(deviceId));
    var r := FirstOf(table, both);
    if r.Some? {
      var k :| 0 <= k < |table| && table[k] == r.value && both(table[k]) && forall j :: 0 <= j < k ==> !both(table[j]);
      forall j | 0 <= j < k ensures !OpenFor(table[j], deviceId) {
        assert !both(table[j]);
      }
    } else {
      forall j | 0 <= j < |table| ensures !OpenFor(table[j], deviceId) {
        assert !both(table[j]);
      }
    }
  }

  /** An open session for the device. */
  predicate OpenFor(s: SessionRow, deviceId: string)
  {
    s.endTime.None? && s.deviceId == deviceId
  }

  /** The hook starts a session whatever the device's status: starting twice leaves two open sessions. */
  lemma StartIsUnguarded(table: seq<SessionRow>, id1: string, id2: string, deviceId: string, user: Option<string>, t1: int, t2: int)
    ensures var after := table + [NewSession(id1, deviceId, user, t1)] + [NewSession(id2, deviceId, user, t2)];
      |Filter(OpenSessions(after), ForDevice(deviceId))| == |Filter(OpenSessions(table), ForDevice(deviceId))| + 2
  {
    var p := IsOpen;
    var q := ForDevice(deviceId);
    var n1 := NewSession(id1, deviceId, user, t1);
    var n2 := NewSession(id2, deviceId, user, t2);
    FilterSnoc(table, n1, p);
    FilterSnoc(table + [n1], n2, p);
    FilterSnoc(OpenSessions(table), n1, q);
    FilterSnoc(OpenSessions(table) + [n1], n2, q);
  }

  /** The `find` predicate `d => d.id === deviceId`. */
  function WithId(id: string): DeviceWithSession -> bool
  {
    (d: DeviceWithSession) => d.device.id == id
  }

  /** `devices.find(d => d.id === deviceId)`: the first device with the id. */
  function FindDevice(devices: seq<DeviceWithSession>, id: string): (r: Option<DeviceWithSession>)
    ensures r.Some? ==> r.value in devices && r.value.device.id == id
    ensures r.None? <==> forall i :: 0 <= i < |devices| ==> devices[i].device.id != id
    ensures r.Some? ==> exists i :: 0 <= i < |devices| && devices[i] == r.value && devices[i].device.id == id
                          && forall j :: 0 <= j < i ==> devices[j].device.id != id
  {
    FirstOf(devices, WithId(id))
  }

  /** `getStats()`: the three status counts add up to the number of devices. */
  function GetStats(devices: seq<DeviceWithSession>): (r: Stats)
    ensures r.total == |devices|
    ensures r.available + r.occupied + r.maintenance == r.total
  {
    var statuses := seq(|devices|, i requires 0 <= i < |devices| => devices[i].device.status);
    StatsAddUp(statuses);
    StatsOf(statuses)
  }

  // ---------------------------------------------------------------------------------------
  // The hook

  class DevicesHook {
    /** The hook's `devices` state. */
    var devices: seq<DeviceWithSession>
    /** The `devices` table, in the order the fetch query returns it. */
    var deviceTable: seq<DeviceRow>
    /** The `device_sessions` table. */
    var sessionTable: seq<SessionRow>

    constructor (deviceTable: seq<DeviceRow>, sessionTable: seq<SessionRow>)
      ensures this.devices == []
      ensures this.deviceTable == deviceTable && this.sessionTable == sessionTable
    {
      this.devices := [];
      this.deviceTable := deviceTable;
      this.sessionTable := sessionTable;
    }

    /**
     * `fetchDevices`: read both tables and pair each device with its open session. When either
     * query fails (`readOk` false) the error is only reported and the snapshot is kept.
     */
    method FetchDevices(readOk: bool)
      modifies this
      ensures devices == if readOk then PairSessions(deviceTable, OpenSessions(sessionTable)) else old(devices)
      ensures deviceTable == old(deviceTable) && sessionTable == old(sessionTable)
    {
      if readOk {
        devices := PairSessions(deviceTable, OpenSessions(sessionTable));
      }
    }

    /**
     * `startSession`: insert a running session, mark the device occupied, refetch; no status
     * check. A failed insert (`insertOk` false) writes nothing; a failed status update
     * (`updateOk` false) leaves the inserted session and skips the refetch.
     */
    method StartSession(deviceId: string, sessionId: string, userId: Option<string>, now: int, insertOk: bool, updateOk: bool, readOk: bool)
      modifies this
      ensures sessionTable == if insertOk then old(sessionTable) + [NewSession(sessionId, deviceId, userId, now)] else old(sessionTable)
      ensures deviceTable == if insertOk && updateOk then UpdateStatus(old(deviceTable), deviceId, Occupied) else old(deviceTable)
      ensures devices == if insertOk && updateOk && readOk then PairSessions(deviceTable, OpenSessions(sessionTable)) else old(devices)
    {
      if !insertOk {
        return;
      }
      sessionTable := sessionTable + [NewSession(sessionId, deviceId, userId, now)];
      if !updateOk {
        return;
      }
      deviceTable := UpdateStatus(deviceTable, deviceId, Occupied);
      FetchDevices(readOk);
    }

    /**
     * `pauseSession`: on the snapshot's session of the device, write the toggle (resume when
     * paused, pause otherwise) and refetch; a device that is not in the snapshot or has no
     * session changes nothing, and a failed write (`writeOk` false) writes nothing.
     */
    method PauseSession(deviceId: string, now: int, writeOk: bool, readOk: bool)
      modifies this
      ensures var d := FindDevice(old(devices), deviceId);
        if d.None? || d.value.currentSession.None? || !writeOk then
          devices == old(devices) && deviceTable == old(deviceTable) && sessionTable == old(sessionTable)
        else
          var s := d.value.currentSession.value;
          sessionTable == UpdateSessions(old(sessionTable), s.id, TogglePatch(s, now))
          && deviceTable == old(deviceTable)
          && devices == if readOk then PairSessions(deviceTable, OpenSessions(sessionTable)) else old(devices)
    {
      var d := FindDevice(devices, deviceId);
      if d.None? || d.value.currentSession.None? || !writeOk {
        return;
      }
      var s := d.value.currentSession.value;
      sessionTable := UpdateSessions(sessionTable, s.id, TogglePatch(s, now));
      FetchDevices(readOk);
    }

    /**
     * `stopSession`: fold an ongoing pause into the paused total, bill the active seconds at
     * the snapshot's hourly rate, write the closing columns, free the device and refetch; a
     * device that is not in the snapshot or has no session changes nothing. A failed session
     * write (`sessionOk` false) writes nothing; a failed status update (`deviceOk` false) leaves
     * the closed session and skips the refetch.
     */
    method StopSession(deviceId: string, now: int, sessionOk: bool, deviceOk: bool, readOk: bool)
      modifies this
      ensures var d := FindDevice(old(devices), deviceId);
        if d.None? || d.value.currentSession.None? || !sessionOk then
          devices == old(devices) && deviceTable == old(deviceTable) && sessionTable == old(sessionTable)
        else
          var s := d.value.currentSession.value;
          sessionTable == UpdateSessions(old(sessionTable), s.id, StopPatchFor(s, d.value.device.hourlyRate, now))
          && deviceTable == (if deviceOk then UpdateStatus(old(deviceTable), deviceId, Available) else old(deviceTable))
          && devices == if deviceOk && readOk then PairSessions(deviceTable, OpenSessions(sessionTable)) else old(devices)
    {
      var d := FindDevice(devices, deviceId);
      if d.None? || d.value.currentSession.None? || !sessionOk {
        return;
      }
      var s := d.value.currentSession.value;
      sessionTable := UpdateSessions(sessionTable, s.id, StopPatchFor(s, d.value.device.hourlyRate, now));
      if !deviceOk {
        return;
      }
      deviceTable := UpdateStatus(deviceTable, deviceId, Available);
      FetchDevices(readOk);
    }

    /** `getStats()` over the snapshot. */
    function Stats(): (r: Types.Stats)
      reads this
      ensures r.available + r.occupied + r.maintenance == r.total == |devices|
    {
      GetStats(devices)
    }
  }
}
