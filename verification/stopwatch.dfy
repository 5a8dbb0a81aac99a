/**
 * The pause-aware stopwatch shared by the keyboard handler and the display
 * loop. Instants are milliseconds on a monotonic clock; durations are
 * milliseconds too.
 */
module Stopwatch {

  /**
   * `lastStart` is the instant the current running segment began,
   * `cumulative` the time accumulated by all earlier running segments.
   */
  datatype Watch = Watch(paused: bool, lastStart: nat, cumulative: nat)

  /** Time from `start` to `now`, saturating at zero as `Instant::elapsed` does. */
  function Since(start: nat, now: nat): (d: nat)
    ensures start <= now ==> start + d == now
    ensures now <= start ==> d == 0
  {
    if start <= now then now - start else 0
  }

  /** The watch as the program creates it at `now`: running, nothing accumulated. */
  function Start(now: nat): (w: Watch)
    ensures !w.paused && w.cumulative == 0 && w.lastStart == now
    ensures Elapsed(w, now) == 0
  {
    Watch(false, now, 0)
  }

  /**
   * The elapsed time shown to the user. The display module computing it is
   * not part of this model; this body is the assumed contract: a paused watch
   * shows what it has accumulated, a running one adds its current segment.
   */
  function Elapsed(w: Watch, now: nat): (e: nat)
    ensures w.cumulative <= e
    ensures w.paused ==> e == w.cumulative
  {
    if w.paused then w.cumulative else w.cumulative + Since(w.lastStart, now)
  }

  /**
   * The space-key handler. `fetch_xor` hands back the OLD paused flag: when it
   * was set the watch restarts at `now`, otherwise the segment that just ended
   * is folded into the accumulated time.
   */
  function Toggle(w: Watch, now: nat): (r: Watch)
    ensures r.paused == !w.paused
    ensures !w.paused ==> r.lastStart == w.lastStart && r.cumulative == w.cumulative + Since(w.lastStart, now)
    ensures w.paused ==> r.lastStart == now && r.cumulative == w.cumulative
    ensures w.cumulative <= r.cumulative
    ensures r.lastStart <= now || r.lastStart == w.lastStart
    // toggling never makes the displayed time jump
    ensures Elapsed(r, now) == Elapsed(w, now)
  {
    if w.paused then Watch(false, now, w.cumulative)
    else Watch(true, w.lastStart, w.cumulative + Since(w.lastStart, now))
  }

  /** Elapsed time is constant while paused and grows with the clock, never faster, while running. */
  lemma ElapsedMonotone(w: Watch, t1: nat, t2: nat)
    requires t1 <= t2
    ensures Elapsed(w, t1) <= Elapsed(w, t2) <= Elapsed(w, t1) + (t2 - t1)
    ensures w.paused ==> Elapsed(w, t1) == Elapsed(w, t2)
    ensures !w.paused && w.lastStart <= t1 ==> Elapsed(w, t2) == Elapsed(w, t1) + (t2 - t1)
  {
  }

  /**
   * Pausing at `t1` and resuming at `t2` leaves a running watch that has
   * banked exactly the time shown at `t1`, and from then on shows the
   * original reading minus the paused interval.
   */
  lemma PauseThenResume(w: Watch, t1: nat, t2: nat, t: nat)
    requires !w.paused && w.lastStart <= t1 <= t2 <= t
    ensures var w2 := Toggle(Toggle(w, t1), t2);
      && !w2.paused && w2.lastStart == t2 && w2.cumulative == Elapsed(w, t1)
      && Elapsed(w, t1) <= Elapsed(w2, t2)
      && Elapsed(w2, t) + (t2 - t1) == Elapsed(w, t)
  {
  }

  /** Resuming at `t1` and pausing again at `t2` banks exactly the running interval. */
  lemma ResumeThenPause(w: Watch, t1: nat, t2: nat)
    requires w.paused && t1 <= t2
    ensures var w2 := Toggle(Toggle(w, t1), t2);
      && w2.paused && w2.lastStart == t1 && w2.cumulative == w.cumulative + (t2 - t1)
      && Elapsed(w2, t2) == Elapsed(w, t1) + (t2 - t1)
  {
  }
}
