/**
 * The dashboard card of an in-memory device (src/components/dashboard/DeviceCard.tsx). It differs
 * from the database card in how it pads the clock fields (Persian digits first, then `۰`), which
 * shows the same text, and in drawing the time panel for any occupied device.
 */
module DeviceCard {
  import opened Wrappers
  import opened Types
  import opened ClockDisplay

  /** `now - startTime - totalPausedTime * 1000`. */
  function ElapsedMs(s: Session, now: int): int
  {
    now - s.startTime - s.totalPausedMs
  }

  function ClockText(elapsed: int): string
  {
    TextOf(Split(elapsed), PersianThenPad)
  }

  predicate TimerRuns(d: Device)
  {
    d.status == Occupied && d.currentSession.Some? && !d.currentSession.value.isPaused
  }

  predicate ShowsClock(d: Device)
  {
    d.status == Occupied
  }

  predicate ShowsPaused(d: Device)
  {
    d.currentSession.Some? && d.currentSession.value.isPaused
  }

  function CardButtons(d: Device): seq<ActionButton>
  {
    Buttons(d.status, ShowsPaused(d))
  }

  /** This card's clock shows the same text as the database card's for the same elapsed time. */
  lemma ClockMatchesDatabaseCard(elapsed: int)
    ensures ClockText(elapsed) == TextOf(Split(elapsed), PadThenPersian)
  {
    RenderingsAgree(Split(elapsed));
  }

  /** The clock of a running session: whole hours, minutes and seconds of the unpaused time. */
  lemma ClockShowsActiveTime(s: Session, now: int)
    requires ElapsedMs(s, now) >= 0
    ensures var f := Split(ElapsedMs(s, now));
      0 <= f.minutes < 60 && 0 <= f.seconds < 60
      && MsOf(f) <= now - s.startTime - s.totalPausedMs < MsOf(f) + 1000
  {
    SplitBounds(ElapsedMs(s, now));
  }

  lemma CardButtonsFollowStatus(d: Device)
    ensures StartButton in CardButtons(d) <==> d.status == Available
    ensures StopButton in CardButtons(d) <==> d.status == Occupied
    ensures PauseButton(true) in CardButtons(d) <==> d.status == Occupied && ShowsPaused(d)
    ensures PauseButton(false) in CardButtons(d) <==> d.status == Occupied && !ShowsPaused(d)
  {
    ButtonsPerStatus(d.status, ShowsPaused(d));
  }

  class Card {
    var device: Device
    var elapsedTime: string

    constructor (device: Device)
      ensures this.device == device && elapsedTime == InitialClock
    {
      this.device := device;
      elapsedTime := InitialClock;
    }

    method Tick(now: int)
      modifies this
      ensures device == old(device)
      ensures TimerRuns(device) ==> elapsedTime == ClockText(ElapsedMs(device.currentSession.value, now))
      ensures !TimerRuns(device) ==> elapsedTime == old(elapsedTime)
    {
      if TimerRuns(device) {
        elapsedTime := ClockText(ElapsedMs(device.currentSession.value, now));
      }
    }
  }
}
