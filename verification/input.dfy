/**
 * The keyboard handler of `start`: a loop over terminal events that quits,
 * toggles the stopwatch, cycles the visible tables or ignores the event.
 */
module Input {
  import opened Options
  import opened Stopwatch
  import opened Session

  /** The keys the handler can tell apart; every other key is `OtherKey`. */
  datatype Key = Char(c: char) | Ctrl(c: char) | Alt(c: char) | FunctionKey(n: nat) | OtherKey

  /** A terminal event: a key press, a mouse action, or bytes the terminal could not decode. */
  datatype Event = KeyPress(key: Key) | Mouse | Unsupported

  /** An event together with the clock reading at which the handler processes it. */
  datatype Timed = Timed(event: Event, at: nat)

  /** What a handled event does beyond the shared state. */
  datatype Effect =
    | Cleanup                                         // the cleanup callback runs
    | WakeDisplay                                     // the display loop is unparked
    | Redraw(paused: bool, elapsed: nat, offset: nat) // an immediate draw with these arguments

  /** Handling one event either continues the loop, breaks out of it, or panics. */
  datatype Outcome =
    | Continue(state: State, effects: seq<Effect>)
    | Quit(state: State, effects: seq<Effect>)
    | Panic(state: State)

  const PauseKey: Event := KeyPress(Char(' '))
  const CycleKey: Event := KeyPress(Char('\t'))

  /** Ctrl-c and `q` both end the session. */
  predicate IsQuit(e: Event) {
    e == KeyPress(Ctrl('c')) || e == KeyPress(Char('q'))
  }

  /** The events after which the handler processes nothing more. */
  predicate Halts(e: Event, tableCount: nat) {
    IsQuit(e) || (e == CycleKey && tableCount == 0)
  }

  /**
   * The offset Tab stores: `offset + 1 % tableCount`, which by precedence adds
   * `1 % tableCount` and never wraps. `None` is the remainder-by-zero panic.
   */
  function NextOffset(offset: nat, tableCount: nat): (r: Option<nat>)
    ensures r.None? <==> tableCount == 0
    ensures tableCount == 1 ==> r == Some(offset)
    ensures tableCount >= 2 ==> r == Some(offset + 1)
  {
    if tableCount == 0 then None else Some(offset + 1 % tableCount)
  }

  /** One pass of the handler's match on the event `e` processed at `now`. */
  function Step(s: State, e: Event, now: nat, tableCount: nat): (r: Outcome)
    ensures IsQuit(e) ==> r == Quit(s.(running := false), [Cleanup, WakeDisplay])
    ensures e == PauseKey ==>
      && r.Continue? && r.effects == [WakeDisplay]
      && r.state.running == s.running && r.state.uiOffset == s.uiOffset
      && r.state.watch.paused == !s.watch.paused
      && (!s.watch.paused ==> r.state.watch.lastStart == s.watch.lastStart
                              && r.state.watch.cumulative == s.watch.cumulative + Since(s.watch.lastStart, now))
      && (s.watch.paused ==> r.state.watch.lastStart == now && r.state.watch.cumulative == s.watch.cumulative)
    ensures e == CycleKey && tableCount == 0 ==> r == Panic(s)
    ensures e == CycleKey && tableCount > 0 ==>
      && r.Continue? && r.state.running == s.running && r.state.watch == s.watch
      && r.state.uiOffset == (if tableCount == 1 then s.uiOffset else s.uiOffset + 1)
      && r.effects == [Redraw(s.watch.paused, Elapsed(s.watch, now), r.state.uiOffset)]
    ensures !IsQuit(e) && e != PauseKey && e != CycleKey ==> r == Continue(s, [])
    ensures r.Quit? || r.Panic? <==> Halts(e, tableCount)
    ensures r.state.watch.cumulative >= s.watch.cumulative
    ensures r.state.uiOffset >= s.uiOffset
    // the displayed elapsed time is the same just before and just after the event
    ensures Elapsed(r.state.watch, now) == Elapsed(s.watch, now)
  {
    if IsQuit(e) then
      Quit(s.(running := false), [Cleanup, WakeDisplay])
    else if e == PauseKey then
      Continue(s.(watch := Toggle(s.watch, now)), [WakeDisplay])
    else if e == CycleKey then
      match NextOffset(s.uiOffset, tableCount)
      case None => Panic(s)
      case Some(n) => Continue(s.(uiOffset := n), [Redraw(s.watch.paused, Elapsed(s.watch, now), n)])
    else
      Continue(s, [])
  }

  /** How the handler's loop ended. */
  datatype Status = Exhausted | Quitted | Panicked

  /** The state and effects after the loop, how it ended and how many events it took. */
  datatype Trace = Trace(state: State, effects: seq<Effect>, status: Status, consumed: nat)

  /** Index of the first halting event in `evs`, or `|evs|` when there is none. */
  function FirstHalt(evs: seq<Timed>, tableCount: nat): (k: nat)
    ensures k <= |evs|
    ensures forall i :: 0 <= i < k ==> !Halts(evs[i].event, tableCount)
    ensures k < |evs| ==> Halts(evs[k].event, tableCount)
  {
    if |evs| == 0 then 0
    else if Halts(evs[0].event, tableCount) then 0
    else 1 + FirstHalt(evs[1..], tableCount)
  }

  /** The `for evt in keyboard_events` loop over a finite stream of events. */
  function Run(s: State, evs: seq<Timed>, tableCount: nat): (r: Trace)
    ensures var k := FirstHalt(evs, tableCount);
      && (r.status == Exhausted <==> k == |evs|)
      && (r.status == Quitted <==> k < |evs| && IsQuit(evs[k].event))
      && r.consumed == (if k == |evs| then k else k + 1)
    decreases |evs|
  {
    if |evs| == 0 then Trace(s, [], Exhausted, 0)
    else
      match Step(s, evs[0].event, evs[0].at, tableCount)
      case Quit(s', eff) => Trace(s', eff, Quitted, 1)
      case Panic(s') => Trace(s', [], Panicked, 1)
      case Continue(s', eff) =>
        var t := Run(s', evs[1..], tableCount);
        Trace(t.state, eff + t.effects, t.status, 1 + t.consumed)
  }

  /** Events that follow a quit (or the panic) are never processed. */
  lemma {:induction false} NothingAfterHalt(s: State, evs: seq<Timed>, more: seq<Timed>, tableCount: nat)
    requires FirstHalt(evs, tableCount) < |evs|
    ensures Run(s, evs + more, tableCount) == Run(s, evs, tableCount)
    decreases |evs|
  {
    assert (evs + more)[0] == evs[0];
    if !Halts(evs[0].event, tableCount) {
      assert (evs + more)[1..] == evs[1..] + more;
      match Step(s, evs[0].event, evs[0].at, tableCount)
      case Continue(s', eff) =>
        NothingAfterHalt(s', evs[1..], more, tableCount);
    }
  }

  /** The loop's result is that of the prefix ending at the first quit. */
  lemma QuitPrefix(s: State, evs: seq<Timed>, tableCount: nat)
    requires FirstHalt(evs, tableCount) < |evs|
    ensures var k := FirstHalt(evs, tableCount);
      Run(s, evs, tableCount) == Run(s, evs[..k + 1], tableCount)
  {
    var k := FirstHalt(evs, tableCount);
    var pre := evs[..k + 1];
    assert FirstHalt(pre, tableCount) == k;
    assert pre + evs[k + 1..] == evs;
    NothingAfterHalt(s, pre, evs[k + 1..], tableCount);
  }

  /** Number of occurrences of `x` in `effs`. */
  function Count(effs: seq<Effect>, x: Effect): nat {
    multiset(effs)[x]
  }

  /**
   * Starting from a running session, the cleanup callback runs exactly once
   * when the loop ends on a quit and never otherwise, and the running flag is
   * cleared exactly then.
   */
  lemma {:induction false} CleanupExactlyOnce(s: State, evs: seq<Timed>, tableCount: nat)
    requires s.running
    ensures var r := Run(s, evs, tableCount);
      && Count(r.effects, Cleanup) == (if r.status == Quitted then 1 else 0)
      && (r.state.running <==> r.status != Quitted)
    decreases |evs|
  {
    if |evs| > 0 && !Halts(evs[0].event, tableCount) {
      var o := Step(s, evs[0].event, evs[0].at, tableCount);
      var t := Run(o.state, evs[1..], tableCount);
      CleanupExactlyOnce(o.state, evs[1..], tableCount);
      assert Cleanup !in o.effects;
      assert multiset(o.effects + t.effects) == multiset(o.effects) + multiset(t.effects);
    }
  }

  /** A loop ended by a quit finishes with the cleanup and then the wake-up of the display loop. */
  lemma {:induction false} QuitEndsEffects(s: State, evs: seq<Timed>, tableCount: nat)
    ensures var r := Run(s, evs, tableCount);
      r.status == Quitted ==> |r.effects| >= 2 && r.effects[|r.effects| - 2..] == [Cleanup, WakeDisplay]
    decreases |evs|
  {
    if |evs| > 0 && !Halts(evs[0].event, tableCount) {
      var o := Step(s, evs[0].event, evs[0].at, tableCount);
      var t := Run(o.state, evs[1..], tableCount);
      QuitEndsEffects(o.state, evs[1..], tableCount);
      if t.status == Quitted {
        assert (o.effects + t.effects)[|o.effects + t.effects| - 2..] == t.effects[|t.effects| - 2..];
      }
    }
  }

  /** Accumulated time and the view offset never decrease over any event sequence. */
  lemma {:induction false} NeverDecreases(s: State, evs: seq<Timed>, tableCount: nat)
    ensures var r := Run(s, evs, tableCount);
      r.state.watch.cumulative >= s.watch.cumulative && r.state.uiOffset >= s.uiOffset
    decreases |evs|
  {
    if |evs| > 0 {
      match Step(s, evs[0].event, evs[0].at, tableCount)
      case Quit(s', eff) =>
      case Panic(s') =>
      case Continue(s', eff) =>
        NeverDecreases(s', evs[1..], tableCount);
    }
  }

  /** The timestamps are non-decreasing and lie between `t0` and `t`. */
  ghost predicate Clocked(evs: seq<Timed>, t0: nat, t: nat) {
    && (forall i :: 0 <= i < |evs| ==> t0 <= evs[i].at <= t)
    && (forall i, j :: 0 <= i < j < |evs| ==> evs[i].at <= evs[j].at)
  }

  /**
   * With a monotonic clock, the elapsed time shown after the events is never
   * less than before them and never grows faster than the clock.
   */
  lemma {:induction false} ElapsedFollowsClock(s: State, evs: seq<Timed>, tableCount: nat, t0: nat, t: nat)
    requires t0 <= t && s.watch.lastStart <= t0
    requires Clocked(evs, t0, t)
    ensures var w := Run(s, evs, tableCount).state.watch;
      Elapsed(s.watch, t0) <= Elapsed(w, t) <= Elapsed(s.watch, t0) + (t - t0)
    decreases |evs|
  {
    if |evs| == 0 {
      ElapsedMonotone(s.watch, t0, t);
    } else {
      var a := evs[0].at;
      ElapsedMonotone(s.watch, t0, a);
      match Step(s, evs[0].event, a, tableCount)
      case Quit(s', eff) =>
        ElapsedMonotone(s'.watch, a, t);
      case Panic(s') =>
        ElapsedMonotone(s'.watch, a, t);
      case Continue(s', eff) =>
        assert s'.watch.lastStart <= a;
        ElapsedFollowsClock(s', evs[1..], tableCount, a, t);
    }
  }

  /**
   * Only Tab presses: with two or more tables each press adds one to the
   * offset without wrapping, with one table the offset never moves.
   */
  lemma {:induction false} TabPresses(s: State, evs: seq<Timed>, tableCount: nat)
    requires tableCount >= 1
    requires forall i :: 0 <= i < |evs| ==> evs[i].event == CycleKey
    ensures var r := Run(s, evs, tableCount);
      && r.status == Exhausted && r.state.watch == s.watch && r.state.running == s.running
      && r.state.uiOffset == s.uiOffset + (if tableCount == 1 then 0 else |evs|)
    decreases |evs|
  {
    if |evs| > 0 {
      TabPresses(Step(s, evs[0].event, evs[0].at, tableCount).state, evs[1..], tableCount);
    }
  }

  /** `n` Tab presses, one per millisecond from `t`. */
  function TabStream(t: nat, n: nat): (evs: seq<Timed>)
    ensures |evs| == n
    ensures forall i :: 0 <= i < n ==> evs[i] == Timed(CycleKey, t + i)
  {
    if n == 0 then [] else TabStream(t, n - 1) + [Timed(CycleKey, t + n - 1)]
  }

  /**
   * For every table count of two or more, as many Tab presses as there are
   * tables leave the stored offset equal to the table count: it is not kept
   * below it. Three presses over three tables store 3.
   */
  lemma OffsetLeavesTableRange(t: nat, tableCount: nat)
    requires tableCount >= 2
    ensures Run(Init(t), TabStream(t, tableCount), tableCount).state.uiOffset == tableCount
    ensures Run(Init(0), [Timed(CycleKey, 1), Timed(CycleKey, 2), Timed(CycleKey, 3)], 3).state.uiOffset == 3
  {
    TabPresses(Init(t), TabStream(t, tableCount), tableCount);
    TabPresses(Init(0), [Timed(CycleKey, 1), Timed(CycleKey, 2), Timed(CycleKey, 3)], 3);
  }

  /** Events other than quit, space and Tab change nothing and do nothing. */
  lemma {:induction false} OthersIgnored(s: State, evs: seq<Timed>, tableCount: nat)
    requires forall i :: 0 <= i < |evs| ==>
      !IsQuit(evs[i].event) && evs[i].event != PauseKey && evs[i].event != CycleKey
    ensures Run(s, evs, tableCount) == Trace(s, [], Exhausted, |evs|)
    decreases |evs|
  {
    if |evs| > 0 {
      OthersIgnored(s, evs[1..], tableCount);
    }
  }
}
