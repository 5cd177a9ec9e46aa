/** The pause/resume countdown of the play scene as a value: the pause flag,
    the seconds left, and whether the countdown timer is scheduled. */
module Pause {
  import opened Common

  datatype PauseState = PauseState(isPaused: bool, initialTime: int, timerRunning: bool)

  /** The pause button's pointerdown handler. */
  function Paused(p: PauseState): (r: PauseState)
    ensures r.isPaused
    ensures r.initialTime == p.initialTime && r.timerRunning == p.timerRunning
  {
    p.(isPaused := true)
  }

  /** The scene's 'resume' handler: restart the count at three seconds and
      schedule the one-second timer. */
  function Resumed(p: PauseState): (r: PauseState)
    ensures r.initialTime == COUNTDOWN_SECONDS && r.timerRunning
    ensures r.isPaused == p.isPaused
  {
    p.(initialTime := COUNTDOWN_SECONDS, timerRunning := true)
  }

  /** countDown: one second less; when none is left, unpause and remove the
      timer. */
  function Ticked(p: PauseState): (r: PauseState)
    ensures r.initialTime == p.initialTime - 1
    ensures r.initialTime <= 0 ==> !r.isPaused && !r.timerRunning
    ensures r.initialTime > 0 ==> r.isPaused == p.isPaused && r.timerRunning == p.timerRunning
  {
    var t := p.initialTime - 1;
    if t <= 0 then PauseState(false, t, false) else p.(initialTime := t)
  }

  /** `n` successive timer ticks. */
  function Ticks(p: PauseState, n: nat): PauseState {
    if n == 0 then p else Ticked(Ticks(p, n - 1))
  }

  /** After resuming, the first two ticks only count down and the third one
      unpauses and stops the timer, with zero seconds left. */
  lemma {:induction false} CountdownTakesThreeTicks(p: PauseState, n: nat)
    requires n <= COUNTDOWN_SECONDS
    ensures Ticks(Resumed(p), n) ==
      if n < COUNTDOWN_SECONDS then p.(initialTime := COUNTDOWN_SECONDS - n, timerRunning := true)
      else PauseState(false, 0, false)
  {
    if n > 0 {
      CountdownTakesThreeTicks(p, n - 1);
    }
  }

  /** Pausing and resuming keeps the game paused (so flaps are ignored) for
      exactly the first COUNTDOWN_SECONDS - 1 ticks. */
  lemma PausedUntilLastTick(p: PauseState, n: nat)
    requires n <= COUNTDOWN_SECONDS
    ensures Ticks(Resumed(Paused(p)), n).isPaused <==> n < COUNTDOWN_SECONDS
    ensures Ticks(Resumed(Paused(p)), n).timerRunning <==> n < COUNTDOWN_SECONDS
  {
    CountdownTakesThreeTicks(Paused(p), n);
  }
}
