/**
 * The dashboard card of a database device (src/components/dashboard/DeviceCardDB.tsx): its
 * running clock, refreshed by a one-second interval while the session runs, and its buttons.
 */
module DeviceCardDB {
  import opened Wrappers
  import opened Types
  import opened DevicesDB
  import opened ClockDisplay

  /** The elapsed milliseconds the clock shows: only completed pauses are taken off. */
  function ElapsedMs(s: SessionRow, now: int): int
  {
    now - s.startTime - StoredPausedSeconds(s) * 1000
  }

  function ClockText(elapsed: int): string
  {
    TextOf(Split(elapsed), PadThenPersian)
  }

  /** The effect sets up the interval only for an occupied device with a running session. */
  predicate TimerRuns(d: DeviceWithSession)
  {
    d.device.status == Occupied && d.currentSession.Some? && !d.currentSession.value.isPaused
  }

  /** The time panel is drawn for an occupied device with a session. */
  predicate ShowsClock(d: DeviceWithSession)
  {
    d.device.status == Occupied && d.currentSession.Some?
  }

  /** `currentSession?.is_paused`: a device without a session reads as not paused. */
  predicate ShowsPaused(d: DeviceWithSession)
  {
    d.currentSession.Some? && d.currentSession.value.isPaused
  }

  function CardButtons(d: DeviceWithSession): seq<ActionButton>
  {
    Buttons(d.device.status, ShowsPaused(d))
  }

  /**
   * The clock of a running session shows whole hours, minutes and seconds of the time since the
   * start less the stored paused seconds, and a pause still in progress is not taken off.
   */
  lemma ClockShowsActiveTime(s: SessionRow, now: int, p: int)
    requires ElapsedMs(s, now) >= 0
    ensures var f := Split(ElapsedMs(s, now));
      0 <= f.minutes < 60 && 0 <= f.seconds < 60
      && MsOf(f) <= now - s.startTime - StoredPausedSeconds(s) * 1000 < MsOf(f) + 1000
    ensures ElapsedMs(s.(pausedAt := Some(p), isPaused := true), now) == ElapsedMs(s, now)
  {
    SplitBounds(ElapsedMs(s, now));
  }

  /** The buttons of a card follow its device's status; only a free device offers start. */
  lemma CardButtonsFollowStatus(d: DeviceWithSession)
    ensures StartButton in CardButtons(d) <==> d.device.status == Available
    ensures StopButton in CardButtons(d) <==> d.device.status == Occupied
    ensures PauseButton(true) in CardButtons(d) <==> d.device.status == Occupied && ShowsPaused(d)
    ensures PauseButton(false) in CardButtons(d) <==> d.device.status == Occupied && !ShowsPaused(d)
  {
    ButtonsPerStatus(d.device.status, ShowsPaused(d));
  }

  class Card {
    var device: DeviceWithSession
    /** The `elapsedTime` state. */
    var elapsedTime: string

    constructor (device: DeviceWithSession)
      ensures this.device == device && elapsedTime == InitialClock
    {
      this.device := device;
      elapsedTime := InitialClock;
    }

    /** One interval tick at clock reading `now`; with no interval set up, nothing changes. */
    method Tick(now: int)
      modifies this
      ensures device == old(device)
      ensures TimerRuns(device) ==> elapsedTime == ClockText(ElapsedMs(device.currentSession.value, now))
      ensures !TimerRuns(device) ==> elapsedTime == old(elapsedTime)
    {
      if TimerRuns(device) {
        elapsedTime := ClockText(ElapsedMs(device.currentSession.value, now));
      }
    }
  }
}
