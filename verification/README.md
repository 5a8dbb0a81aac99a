# bandwhich orchestration, modelled in Dafny

bandwhich is a terminal dashboard that shows network bandwidth per process,
connection and remote address. This project models the sequential decision
logic of its orchestration function `start` in `src/main.rs`, along with the
exit-status mapping in `main`:

- **Keyboard handler** (`Input`). This is the loop over terminal events.
  Ctrl-c or `q` clears the running flag, runs the cleanup callback, wakes the
  display loop and leaves the loop. Space toggles the stopwatch. Tab stores
  a new view offset and redraws. Every other event is ignored.
- **Stopwatch** (`Stopwatch`). Each space press performs one fold step.
  `fetch_xor` returns the old paused flag. If that flag was set, the watch
  restarts at the current instant. Otherwise the segment that just ended is
  added to the accumulated time.
- **Display loop** (`Display`). While the running flag is set, each iteration:
  - sends the connection addresses that are not in the cache to the resolver;
  - updates the UI with the new snapshot, but only when not paused;
  - renders once;
  - sleeps for whatever is left of the 1000 ms cadence, or not at all when
    rendering overran it.

  When the flag is cleared, the loop ends the UI, except in raw mode.
- **DNS filter** (`Network`). It picks the remote addresses of the connections
  that are not keys of the name cache. They keep connection order, and
  duplicates are kept.
- **Startup** (`Startup`). This covers choosing the raw or Termion backend,
  and turning a failure into an `Error: …` line plus exit status 2.

Threads, atomics and locks are collapsed into one `Session.State` record.
Time is a `nat` count of milliseconds, passed in explicitly:
- each keyboard event carries the instant it is handled at;
- each display iteration (`Display.Tick`) carries the shared state it
  observed, the instant it read the stopwatch, and its render time.

Collaborators outside this model are inputs of the model: the traffic
snapshot, the open sockets, the resolver's cache and the table count.

The function `elapsed_time` belongs to the display module, which is not part
of this model. `Stopwatch.Elapsed` states its **assumed** contract:
- paused: the accumulated time;
- running: the accumulated time plus the time since the last start.

Durations come from `Instant::elapsed`, which saturates at zero
(`Stopwatch.Since`).

Two behaviours of the code are worth stating explicitly:
- **View offset.** The Tab handler stores `offset + 1 % table_count`, which
  by precedence is `offset + (1 % table_count)`. With two or more tables the
  offset grows by one per Tab and never wraps, so it can pass the table
  count (`Input.OffsetLeavesTableRange`). With one table it never moves.
  With zero tables the remainder panics. The code that draws from the offset
  is not part of this model, so it may still reduce the offset before use.
- **Resolver submissions.** One resolver entry is submitted per connection,
  so duplicates are kept.

## Model

| member | source | states |
|---|---|---|
| Stopwatch.Since | src/main.rs:264-268 | the time from a segment start to now: their difference when the clock moved forward, zero otherwise |
| Stopwatch.Start | src/main.rs:124-126 | the initial watch is running, starts at the creation instant, has nothing accumulated and shows zero elapsed |
| Stopwatch.Elapsed | src/main.rs:216-220 | assumed contract of `elapsed_time`: never below the accumulated time, and equal to it while paused |
| Stopwatch.Toggle | src/main.rs:259-270 | space flips the paused flag. From running it adds `now - last_start` to the accumulated time and keeps the start instant. From paused it restarts at `now` and keeps the accumulated time. In both cases the displayed elapsed time is the same just before and just after the toggle |
| Stopwatch.ElapsedMonotone | src/main.rs:216-220 | elapsed time is constant while paused. While running it grows exactly with the clock. It never decreases and never grows faster than the clock |
| Stopwatch.PauseThenResume | src/main.rs:259-270 | after a pause at t1 and a resume at t2, the watch is running from t2 and has banked exactly the elapsed time shown at t1. It never shows less than it did before the pair, and afterwards it shows the original reading minus the paused interval |
| Stopwatch.ResumeThenPause | src/main.rs:259-270 | a resume at t1 and a pause at t2 bank exactly `t2 - t1` and restart from t1 |
| Session.Init | src/main.rs:123-127 | the session starts running, unpaused, at view offset 0, with zero elapsed time |
| Input.NextOffset | src/main.rs:281-283 | Tab's new offset is the old offset plus one (no wrap) with two or more tables, and unchanged with one table. With zero tables it is a panic |
| Input.Step | src/main.rs:252-287 | Ctrl-c or `q` clears only the running flag and triggers cleanup, then the wake-up, then the break. Space toggles the watch as `Toggle` states, with a wake-up. Tab changes only the offset, or panics with no tables, and redraws with the paused flag, elapsed time and new offset. Every other event changes nothing. The loop halts exactly on a quit or the Tab panic. Accumulated time and offset never decrease, and elapsed time does not jump |
| Input.FirstHalt | src/main.rs:249-257 | the index of the first quit (or panicking Tab) in the event stream, with no earlier halting event, or the stream length when there is none |
| Input.Run | src/main.rs:249-288 | the loop ends on the stream's end exactly when no event halts it, and on a quit exactly when the first halting event is a quit. It consumes the events up to and including that one |
| Input.NothingAfterHalt | src/main.rs:253-257 | once a quit has been handled, appending further events changes nothing: they are never processed |
| Input.QuitPrefix | src/main.rs:249-257 | the loop's result equals its result on the prefix ending at the first quit |
| Input.CleanupExactlyOnce | src/main.rs:253-257 | from a running session, cleanup runs exactly once if the loop ends on a quit and never otherwise, and the running flag is cleared exactly then |
| Input.QuitEndsEffects | src/main.rs:254-257 | a loop ended by a quit finishes with the cleanup followed by the display loop's wake-up, and nothing after them |
| Input.NeverDecreases | src/main.rs:259-285 | over any event sequence, the accumulated time and the view offset never decrease |
| Input.ElapsedFollowsClock | src/main.rs:259-280 | with a monotonic clock, the elapsed time shown after any event sequence is at least what it was before, and it grows by no more than the clock did |
| Input.TabPresses | src/main.rs:274-285 | a run of Tab presses over two or more tables adds its length to the offset. Over one table it leaves the offset alone. Either way it leaves the watch and running flag unchanged |
| Input.OffsetLeavesTableRange | src/main.rs:281-283 | for every table count of two or more, that many Tab presses from a fresh session store an offset equal to the table count, so the stored offset is not kept below it; three presses over three tables store 3 |
| Input.OthersIgnored | src/main.rs:286 | a stream without quit, space or Tab leaves the state unchanged, has no effects and is consumed to its end |
| Network.Unresolved | src/main.rs:201-205 | the submitted addresses number at most the connections, and none of them is a cache key |
| Network.UnresolvedCounts | src/main.rs:201-205 | each uncached address is submitted once per connection to it (duplicates kept), and cached addresses are never submitted |
| Network.UnresolvedAppend | src/main.rs:201-205 | the filter keeps connection order: it distributes over concatenation of connection lists |
| Network.EveryRemoteCovered | src/main.rs:199-207 | every connection's remote address is either named by the cache or submitted for resolution |
| Network.CollectUnresolved | src/main.rs:201-205 | the iterative filter-map-collect pass computes exactly the reference filter |
| Display.SleepAfter | src/main.rs:228-231 | render time plus sleep equals the longer of the render and the 1000 ms cadence. There is no sleep exactly when rendering met or exceeded the cadence |
| Display.Cycle | src/main.rs:192-231 | a paused UI keeps its contents, and otherwise takes this iteration's snapshot and cache. When a resolver exists, exactly one submission is made, first, and it holds exactly the uncached remote addresses. Without a resolver nothing is submitted. There is exactly one render: a draw with the paused flag, elapsed time and offset, or a raw text dump. The waits total the remainder of the cadence, and any wait comes last |
| Display.FirstStopped | src/main.rs:191 | the index of the first iteration that sees the running flag clear, every earlier one seeing it set |
| Display.DisplayLoop | src/main.rs:191-236 | the loop performs exactly the iterations before the running flag is first seen clear, and is still going only if it never saw it clear |
| Display.OneRenderPerCycle | src/main.rs:191-236 | no iteration is skipped or doubled: one render per iteration performed. The UI is ended exactly once, only after the flag is seen clear and only in interactive mode |
| Display.PacingTotal | src/main.rs:228-231 | over the iterations performed, render time plus the nominal waits equals the sum of each iteration's longer of render and cadence, which is at least 1000 ms per iteration (an early wake-up only shortens the waits) |
| Display.PausedFreezesUi | src/main.rs:213-215 | if every iteration performed saw the watch paused, the UI keeps its contents |
| Display.ShowsLastUnpaused | src/main.rs:213-215 | the UI ends up holding the snapshot and host names of the last iteration that ran unpaused |
| Startup.TryMain | src/main.rs:78-101 | startup fails exactly when gathering the OS inputs fails, or when raw mode is off and standard output cannot be made raw, and it then carries the pipe hint. On success the backend is raw exactly when `--raw` was given |
| Startup.ExitWith | src/main.rs:71-76 | the exit status is 0 on success and 2 on failure, and a failure writes one `Error: ` line with its message |
| Startup.StartupFailure | src/main.rs:71-101 | the process exits with status 2 exactly when the inputs fail, or when a terminal is needed and missing. In the latter case it prints the pipe hint |

## Left out

- Thread spawning and joining, `Arc`/`Mutex`/`RwLock`/atomics and `park_timeout`/`unpark` (src/main.rs:123-142, 321-323). They are collapsed into one sequential state record. Each display iteration sees one consistent snapshot of it.
- The early wake-up of the display loop's sleep by `unpark`. The model records the nominal `park_timeout` argument. A wake-up only shortens the wait.
- Packet capture (`Sniffer`, the per-interface threads) and the internals of `Utilization::update`/`clone_and_reset` (src/main.rs:295-318). They are foreign I/O and code in modules that are not part of this model. The snapshot is an input of each `Display.Tick`.
- The resize handler (`on_winch`, src/main.rs:144-176). It is OS signal plumbing that only triggers a redraw.
- Terminal rendering: `Ui::draw`, `output_text`, `end`, raw-mode setup and the Termion backend. Renders are recorded as outputs with their arguments, except the `dns_shown` flag passed to `ui.draw` (src/main.rs:225, 284), which is a constant of the session. `Ui::get_table_count` is a parameter of the keyboard handler, and `update_state` stores the snapshot and host names as the UI's contents.
- The DNS client's `cache`/`resolve` behaviour and `get_open_sockets`. They are external collaborators; their results are inputs of each `Display.Tick`.
- Flag parsing (`StructOpt`, src/main.rs:36-69) and `os::get_input`. Their outcomes are parameters of `Startup.TryMain`.
- Panics beyond the Tab remainder-by-zero: the poisoned UI mutex it leaves behind, `join().unwrap()` failures and their process status. The Rust runtime owns those; the model stops the keyboard loop with `Panicked`.
- Input.NextOffset: the offset is an unbounded `nat`, so the `usize` overflow after 2^64 Tab presses is not modelled. It is unreachable in practice.
- Stopwatch.Elapsed: its body is an assumed contract. The display module that defines `elapsed_time` is not part of this model.
