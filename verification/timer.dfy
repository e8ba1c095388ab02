/**
 * The runner's timer as the splitters see it: the phase `state()` reports, and the requests
 * a tick sends to it.
 */
module Timer {
  /** `TimerState`. */
  datatype TimerPhase = NotRunning | Running | Paused | Ended

  /** A request to the timer. */
  datatype TimerAction =
    | StartTimer
    | SplitTimer
    | PauseGameTime
    | ResumeGameTime
    | SetGameTimeZero
    | SetGameTimeFrames(frames: nat)   // game time from a frame counter at 60 frames per second

  /** The phase after a start request: a timer that is not running starts; any other is left alone. */
  function AfterStart(phase: TimerPhase): (r: TimerPhase)
    ensures phase == NotRunning ==> r == Running
    ensures phase != NotRunning ==> r == phase
  {
    if phase == NotRunning then Running else phase
  }
}
