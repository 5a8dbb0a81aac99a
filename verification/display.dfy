/**
 * The display loop of `start`: each iteration takes the traffic snapshot and
 * the open sockets, submits unresolved addresses to the resolver, updates the
 * UI unless paused, renders, and sleeps out the rest of the cadence.
 */
module Display {
  import opened Options
  import opened Stopwatch
  import opened Session
  import opened Network

  /** The target length of one iteration, in milliseconds. */
  const DisplayDelta: nat := 1000

  function Max(a: nat, b: nat): nat {
    if a >= b then a else b
  }

  /**
   * The `park_timeout` argument after a render that took `render` ms: the
   * rest of the cadence, or no sleep at all on overrun.
   */
  function SleepAfter(render: nat): (sleep: nat)
    ensures render + sleep == Max(render, DisplayDelta)
    ensures sleep == 0 <==> render >= DisplayDelta
  {
    if render < DisplayDelta then DisplayDelta - render else 0
  }

  /** Bytes moved over one connection since the previous snapshot. */
  datatype Totals = Totals(upload: nat, download: nat)

  /** What one iteration collects: the owning process of each local socket, and the traffic snapshot. */
  datatype Snapshot = Snapshot(socketsToProcs: map<LocalSocket, string>, utilization: map<Connection, Totals>)

  /** The data the UI holds and draws from. */
  datatype View = View(snapshot: Snapshot, hosts: IpTable)

  /**
   * What one iteration observes: the shared state, the clock when it reads
   * the stopwatch, the fresh snapshot and connection list, the resolver's
   * cache (`None` when name resolution is off) and the time rendering took.
   */
  datatype Tick = Tick(
    shared: State, now: nat, snapshot: Snapshot, connections: seq<Connection>,
    cache: Option<IpTable>, render: nat)

  /** What an iteration does to the outside world. */
  datatype Output =
    | Resolve(ips: seq<IpAddr>)                                  // addresses handed to the resolver
    | WriteText(view: Option<View>)                              // raw mode: a text dump of the UI
    | Draw(view: Option<View>, paused: bool, elapsed: nat, offset: nat) // interactive mode: a redraw
    | Sleep(ms: nat)                                             // the pacing wait
    | End                                                        // the UI's end-of-session cleanup

  /** The host names this iteration passes to the UI: the cache, or nothing without a resolver. */
  function Hosts(t: Tick): IpTable {
    if t.cache.Some? then t.cache.value else map[]
  }

  predicate IsRender(o: Output) {
    o.WriteText? || o.Draw?
  }

  /** Number of renders in `outs`. */
  function Renders(outs: seq<Output>): nat {
    if |outs| == 0 then 0 else (if IsRender(outs[0]) then 1 else 0) + Renders(outs[1..])
  }

  /** Total time spent in pacing waits in `outs`. */
  function Slept(outs: seq<Output>): nat {
    if |outs| == 0 then 0 else (if outs[0].Sleep? then outs[0].ms else 0) + Slept(outs[1..])
  }

  /** Number of submissions to the resolver in `outs`. */
  function Resolves(outs: seq<Output>): nat {
    if |outs| == 0 then 0 else (if outs[0].Resolve? then 1 else 0) + Resolves(outs[1..])
  }

  /** Number of end-of-session cleanups in `outs`. */
  function Ends(outs: seq<Output>): nat {
    if |outs| == 0 then 0 else (if outs[0].End? then 1 else 0) + Ends(outs[1..])
  }

  lemma {:induction false} CountsAppend(a: seq<Output>, b: seq<Output>)
    ensures Renders(a + b) == Renders(a) + Renders(b)
    ensures Slept(a + b) == Slept(a) + Slept(b)
    ensures Ends(a + b) == Ends(a) + Ends(b)
    ensures Resolves(a + b) == Resolves(a) + Resolves(b)
    decreases |a|
  {
    if |a| == 0 {
      assert a + b == b;
    } else {
      assert (a + b)[0] == a[0];
      assert (a + b)[1..] == a[1..] + b;
      CountsAppend(a[1..], b);
    }
  }

  datatype CycleResult = CycleResult(ui: Option<View>, outputs: seq<Output>)

  /** One iteration of the loop body, given the UI's current contents `ui`. */
  function Cycle(ui: Option<View>, t: Tick, rawMode: bool): (r: CycleResult)
    // a paused UI keeps its contents; otherwise it takes this iteration's data
    ensures t.shared.watch.paused ==> r.ui == ui
    ensures !t.shared.watch.paused ==> r.ui == Some(View(t.snapshot, Hosts(t)))
    // names shown come from the cache read in this iteration, and only from it
    ensures !t.shared.watch.paused && t.cache.Some? ==> r.ui.value.hosts == t.cache.value
    ensures !t.shared.watch.paused && t.cache.None? ==> r.ui.value.hosts == map[]
    // with a resolver, exactly the uncached remote addresses are submitted, before rendering
    ensures t.cache.Some? <==> |r.outputs| > 0 && r.outputs[0].Resolve?
    ensures t.cache.Some? ==> r.outputs[0] == Resolve(Unresolved(t.connections, t.cache.value))
    ensures Resolves(r.outputs) == (if t.cache.Some? then 1 else 0)
    // exactly one render of the updated UI, then the pacing wait
    ensures Renders(r.outputs) == 1 && Ends(r.outputs) == 0
    ensures !rawMode ==> Draw(r.ui, t.shared.watch.paused, Elapsed(t.shared.watch, t.now), t.shared.uiOffset) in r.outputs
    ensures rawMode ==> WriteText(r.ui) in r.outputs
    ensures Slept(r.outputs) == SleepAfter(t.render)
    ensures t.render >= DisplayDelta ==> forall o :: o in r.outputs ==> !o.Sleep?
    // a wait, if any, is the last thing the iteration does
    ensures forall i :: 0 <= i < |r.outputs| - 1 ==> !r.outputs[i].Sleep?
  {
    var resolve := if t.cache.Some? then [Resolve(Unresolved(t.connections, t.cache.value))] else [];
    var paused := t.shared.watch.paused;
    var ui' := if paused then ui else Some(View(t.snapshot, Hosts(t)));
    var show :=
      if rawMode then WriteText(ui')
      else Draw(ui', paused, Elapsed(t.shared.watch, t.now), t.shared.uiOffset);
    var sleep := SleepAfter(t.render);
    var pace := if sleep > 0 then [Sleep(sleep)] else [];
    var outs := resolve + [show] + pace;
    assert Renders(outs) == 1 && Slept(outs) == sleep && Ends(outs) == 0 && Resolves(outs) == |resolve| by {
      CountsAppend(resolve, [show]);
      CountsAppend(resolve + [show], pace);
    }
    CycleResult(ui', outs)
  }

  /** Index of the first tick at which the running flag is clear, or `|ticks|`. */
  function FirstStopped(ticks: seq<Tick>): (k: nat)
    ensures k <= |ticks|
    ensures forall i :: 0 <= i < k ==> ticks[i].shared.running
    ensures k < |ticks| ==> !ticks[k].shared.running
  {
    if |ticks| == 0 || !ticks[0].shared.running then 0 else 1 + FirstStopped(ticks[1..])
  }

  /**
   * The UI's contents and the outputs after the loop, the number of
   * iterations performed, and whether the loop is still going.
   */
  datatype DisplayTrace = DisplayTrace(ui: Option<View>, outputs: seq<Output>, cycles: nat, live: bool)

  /** `while running { .. }` over a finite series of ticks, then the UI's end in interactive mode. */
  function DisplayLoop(ui: Option<View>, ticks: seq<Tick>, rawMode: bool): (r: DisplayTrace)
    ensures r.cycles == FirstStopped(ticks)
    ensures r.live <==> r.cycles == |ticks|
    decreases |ticks|
  {
    if |ticks| == 0 then DisplayTrace(ui, [], 0, true)
    else if !ticks[0].shared.running then DisplayTrace(ui, if rawMode then [] else [End], 0, false)
    else
      var c := Cycle(ui, ticks[0], rawMode);
      var t := DisplayLoop(c.ui, ticks[1..], rawMode);
      DisplayTrace(t.ui, c.outputs + t.outputs, 1 + t.cycles, t.live)
  }

  /**
   * No iteration is skipped or doubled: one render per iteration performed,
   * and the UI's end-of-session cleanup exactly once, only in interactive
   * mode and only once the flag is seen clear.
   */
  lemma {:induction false} OneRenderPerCycle(ui: Option<View>, ticks: seq<Tick>, rawMode: bool)
    ensures var r := DisplayLoop(ui, ticks, rawMode);
      Renders(r.outputs) == r.cycles && Ends(r.outputs) == (if !r.live && !rawMode then 1 else 0)
    decreases |ticks|
  {
    if |ticks| > 0 && ticks[0].shared.running {
      var c := Cycle(ui, ticks[0], rawMode);
      OneRenderPerCycle(c.ui, ticks[1..], rawMode);
      CountsAppend(c.outputs, DisplayLoop(c.ui, ticks[1..], rawMode).outputs);
    } else if |ticks| > 0 && !rawMode {
      assert Ends([End]) == 1;
    }
  }

  /** Total render time of `ticks`. */
  function RenderTime(ticks: seq<Tick>): nat {
    if |ticks| == 0 then 0 else ticks[0].render + RenderTime(ticks[1..])
  }

  /** Total time of `ticks` when each iteration lasts the longer of its render and the cadence. */
  function PacedTime(ticks: seq<Tick>): nat {
    if |ticks| == 0 then 0 else Max(ticks[0].render, DisplayDelta) + PacedTime(ticks[1..])
  }

  /**
   * The nominal waits bring each iteration to the longer of its render and
   * the cadence (an early wake-up only shortens them), and an overrun slows
   * the loop down rather than dropping work.
   */
  lemma {:induction false} PacingTotal(ui: Option<View>, ticks: seq<Tick>, rawMode: bool)
    ensures var r := DisplayLoop(ui, ticks, rawMode);
      var done := ticks[..r.cycles];
      && Slept(r.outputs) + RenderTime(done) == PacedTime(done)
      && PacedTime(done) >= DisplayDelta * r.cycles
    decreases |ticks|
  {
    var r := DisplayLoop(ui, ticks, rawMode);
    if |ticks| > 0 && ticks[0].shared.running {
      var c := Cycle(ui, ticks[0], rawMode);
      var t := DisplayLoop(c.ui, ticks[1..], rawMode);
      PacingTotal(c.ui, ticks[1..], rawMode);
      CountsAppend(c.outputs, t.outputs);
      var done := ticks[..r.cycles];
      assert done[0] == ticks[0];
      assert done[1..] == ticks[1..][..t.cycles];
    } else if |ticks| > 0 && !rawMode {
      assert Slept([End]) == 0;
    }
  }

  /** If every iteration performed saw the watch paused, the UI keeps its contents. */
  lemma {:induction false} PausedFreezesUi(ui: Option<View>, ticks: seq<Tick>, rawMode: bool)
    requires forall i :: 0 <= i < FirstStopped(ticks) ==> ticks[i].shared.watch.paused
    ensures DisplayLoop(ui, ticks, rawMode).ui == ui
    decreases |ticks|
  {
    if |ticks| > 0 && ticks[0].shared.running {
      PausedFreezesUi(ui, ticks[1..], rawMode);
    }
  }

  /**
   * The UI ends up holding the data of the last iteration that ran unpaused:
   * iteration `k` ran unpaused and every later iteration performed was paused.
   */
  lemma {:induction false} ShowsLastUnpaused(ui: Option<View>, ticks: seq<Tick>, rawMode: bool, k: nat)
    requires k < FirstStopped(ticks)
    requires !ticks[k].shared.watch.paused
    requires forall j :: k < j < FirstStopped(ticks) ==> ticks[j].shared.watch.paused
    ensures DisplayLoop(ui, ticks, rawMode).ui == Some(View(ticks[k].snapshot, Hosts(ticks[k])))
    decreases k
  {
    var c := Cycle(ui, ticks[0], rawMode);
    if k == 0 {
      PausedFreezesUi(c.ui, ticks[1..], rawMode);
    } else {
      ShowsLastUnpaused(c.ui, ticks[1..], rawMode, k - 1);
    }
  }
}
