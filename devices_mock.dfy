/**
 * The in-memory device hook (src/hooks/useDevices.ts). Each operation maps over the device
 * list and rewrites the devices with the given id; the others are returned as they were.
 */
module MockDevices {
  import opened Wrappers
  import opened JsText
  import opened Types

  /** What a button asks of the hook, with the clock reading it uses. */
  datatype Action = Start(now: int) | Toggle(now: int) | Stop

  /** The session `startSession` creates: id `s<now>`, no pause so far. */
  function FreshSession(deviceId: string, now: int): Session
  {
    Session("s" + IntToString(now), deviceId, None, now, None, None, 0, false)
  }

  /** The toggle on one session: resume when paused with a timestamp, otherwise pause at `now`. */
  function ToggleSession(s: Session, now: int): Session
  {
    if s.isPaused && s.pausedAt.Some? then
      s.(isPaused := false, pausedAt := None, totalPausedMs := s.totalPausedMs + (now - s.pausedAt.value))
    else
      s.(isPaused := true, pausedAt := Some(now))
  }

  /** What one action does to the device it is aimed at. */
  function Step(d: Device, a: Action): Device
  {
    match a
    case Start(now) => d.(status := Occupied, currentSession := Some(FreshSession(d.id, now)))
    case Toggle(now) =>
      if d.currentSession.Some? then d.(currentSession := Some(ToggleSession(d.currentSession.value, now))) else d
    case Stop => d.(status := Available, currentSession := None)
  }

  /** `prev.map(device => device.id === deviceId ? ... : device)`. */
  function Apply(ds: seq<Device>, id: string, a: Action): (r: seq<Device>)
    ensures |r| == |ds|
    ensures forall i :: 0 <= i < |ds| ==> r[i] == if ds[i].id == id then Step(ds[i], a) else ds[i]
  {
    if ds == [] then []
    else [if ds[0].id == id then Step(ds[0], a) else ds[0]] + Apply(ds[1..], id, a)
  }

  function StartSession(ds: seq<Device>, id: string, now: int): seq<Device>
  {
    Apply(ds, id, Start(now))
  }

  function PauseSession(ds: seq<Device>, id: string, now: int): seq<Device>
  {
    Apply(ds, id, Toggle(now))
  }

  function StopSession(ds: seq<Device>, id: string): seq<Device>
  {
    Apply(ds, id, Stop)
  }

  /** `getStats()`: the three status counts add up to the number of devices. */
  function GetStats(ds: seq<Device>): (r: Stats)
    ensures r.total == |ds|
    ensures r.available + r.occupied + r.maintenance == r.total
  {
    var statuses := seq(|ds|, i requires 0 <= i < |ds| => ds[i].status);
    StatsAddUp(statuses);
    StatsOf(statuses)
  }

  /**
   * Every action keeps the list's length and order: each position holds a device with the same
   * id, name, type and rate, and a device with another id is left exactly as it was.
   */
  lemma ActionsKeepTheList(ds: seq<Device>, id: string, a: Action)
    ensures var r := Apply(ds, id, a);
      |r| == |ds|
      && (forall i :: 0 <= i < |ds| ==>
            r[i].id == ds[i].id && r[i].name == ds[i].name
            && r[i].deviceType == ds[i].deviceType && r[i].hourlyRate == ds[i].hourlyRate)
      && (forall i :: 0 <= i < |ds| && ds[i].id != id ==> r[i] == ds[i])
  {
  }

  /** Start makes the device occupied with a fresh running session, whatever its status was. */
  lemma StartEffect(ds: seq<Device>, id: string, now: int, i: int)
    requires 0 <= i < |ds| && ds[i].id == id
    ensures var d := StartSession(ds, id, now)[i];
      d.status == Occupied && d.currentSession.Some?
      && var s := d.currentSession.value;
         s.id == "s" + IntToString(now) && s.deviceId == id && s.userId.None? && s.startTime == now
         && s.endTime.None? && s.totalPausedMs == 0 && !s.isPaused && s.pausedAt.None?
  {
  }

  /**
   * The toggle: a device without a session is unchanged; a session that is not paused, or is
   * paused without a timestamp, is paused at `now` with its total kept; a paused session with a
   * timestamp is resumed, with the time since the timestamp added to its total.
   */
  lemma ToggleEffect(ds: seq<Device>, id: string, now: int, i: int)
    requires 0 <= i < |ds| && ds[i].id == id
    ensures var d := PauseSession(ds, id, now)[i];
      d.status == ds[i].status
      && (ds[i].currentSession.None? ==> d == ds[i])
      && (ds[i].currentSession.Some? ==>
            var s := ds[i].currentSession.value;
            d.currentSession.Some?
            && var t := d.currentSession.value;
               t.id == s.id && t.startTime == s.startTime
               && (s.isPaused && s.pausedAt.Some? ==>
                     !t.isPaused && t.pausedAt.None? && t.totalPausedMs == s.totalPausedMs + (now - s.pausedAt.value))
               && (!(s.isPaused && s.pausedAt.Some?) ==>
                     t.isPaused && t.pausedAt == Some(now) && t.totalPausedMs == s.totalPausedMs))
  {
  }

  /** With a clock that does not run backwards, the toggle never lowers a session's paused total. */
  lemma ToggleNeverLowersPausedTotal(s: Session, now: int)
    requires s.pausedAt.Some? ==> s.pausedAt.value <= now
    ensures ToggleSession(s, now).totalPausedMs >= s.totalPausedMs
  {
  }

  /** Stop frees the device and drops its session; no cost is computed. */
  lemma StopEffect(ds: seq<Device>, id: string, i: int)
    requires 0 <= i < |ds| && ds[i].id == id
    ensures var d := StopSession(ds, id)[i];
      d.status == Available && d.currentSession.None? && d.hourlyRate == ds[i].hourlyRate
  {
  }

  /** A session's pause flag and timestamp agree. */
  predicate PauseConsistent(d: Device)
  {
    d.currentSession.Some? ==> (d.currentSession.value.isPaused <==> d.currentSession.value.pausedAt.Some?)
  }

  /** Every action keeps every device's pause flag and timestamp in agreement. */
  lemma ActionsKeepPauseConsistent(ds: seq<Device>, id: string, a: Action)
    requires forall i :: 0 <= i < |ds| ==> PauseConsistent(ds[i])
    ensures var r := Apply(ds, id, a); forall i :: 0 <= i < |r| ==> PauseConsistent(r[i])
  {
  }

  /** Start then stop on a device leaves it free, without a session, and all else as it was. */
  lemma StartThenStop(ds: seq<Device>, id: string, now: int)
    ensures var r := StopSession(StartSession(ds, id, now), id);
      |r| == |ds|
      && forall i :: 0 <= i < |ds| ==>
           r[i] == if ds[i].id == id then ds[i].(status := Available, currentSession := None) else ds[i]
  {
  }
}
