/**
 * The state shared between the keyboard handler and the display loop,
 * collapsed from its atomics and locks into one record.
 */
module Session {
  import opened Stopwatch

  /**
   * `running` is the shutdown flag every loop polls, `watch` the stopwatch
   * (its three fields are updated together), `uiOffset` the index of the
   * visible table arrangement.
   */
  datatype State = State(running: bool, watch: Watch, uiOffset: nat)

  /** The state `start` creates at `now`: running, unpaused, offset zero. */
  function Init(now: nat): (s: State)
    ensures s.running && !s.watch.paused && s.uiOffset == 0
    ensures s.watch.lastStart == now && Elapsed(s.watch, now) == 0
  {
    State(true, Start(now), 0)
  }
}
