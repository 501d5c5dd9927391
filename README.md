# disable-input: a Dafny model of the device lock supervisor

`disable-input` takes an exclusive grab on Linux input devices for a
while. It runs `evtest --grab <event node>` once per device and keeps that
process alive. This project models the sequential logic of that program
and proves properties of it:

- **Device discovery** (`list` in `src/input.rs`). The lines `evtest`
  prints on stderr become `Device` records: lines starting with
  `/dev/input/event` are kept, split at their first `:`, and both halves
  are trimmed (module `Input`, with Rust's `trim`, `split_once`,
  `starts_with` and `join` in module `Text`).
- **Diagnostic collector** (`wait_for_stderr_end`). It reads at most the
  first five lines of a grab process's stderr and joins them with `"\n"`
  (module `Input`).
- **Lock supervisor** (`Device::lock`, its thread's loop, `Drop for
  LockedDevice`). It is modelled as the class `Supervisor.LockedDevice`.
  The class holds the stop flag, the current grab process, the set of
  running grab processes and a fixed first-lock time. The pure functions
  `Decide` and `Run` describe one turn of the loop and a whole run of it.
- **Non-blocking line reader** (`BackgroundLineReader` in
  `src/input/background_reader.rs`). The channel is modelled as a queue in
  the class `BackgroundReader.LineReader`. The producer thread's loop is
  `Send`/`Finish`/`Produce`; the consumer's `lines()` is `Lines`.

Threads are modelled as interleaved method calls on shared state.
The mutex, the atomic flag and the channel become plain fields.
Time is an integer count of nanoseconds.
Spawning a process is modelled as a parameter that says whether the spawn failed.
Grab processes are numbered in the order they are spawned.

The model follows what the code does, including these behaviours, which a
reader might not expect from a program that promises to hold a grab until
it is released:

- A read error on a grab process's stderr makes `line.unwrap()` panic
  (src/input.rs:90). It is not treated as the end of the stream. The model
  gives `Fatal(ReadPanic)`, and it comes before the stop check, as in the
  code.
- A device line without a `:` makes `split_once(":").unwrap()` panic
  (src/input.rs:116). The line is not skipped. The model gives
  `MissingColon`.
- A respawn overwrites the shared `Child` without killing the old process
  (src/input.rs:60). A stream can end after five lines while its process
  is still alive. In that case the old process keeps running beside the
  new one.
- A failed respawn (`lock_input(..).unwrap()`, src/input.rs:59) panics
  (`Fatal(RespawnFailed)`).
- The stop flag is read once per turn (src/input.rs:52), before the
  replacement is spawned and stored (src/input.rs:59-60). A release can
  come between the two. It then sets the flag and kills the old process,
  but the replacement is still spawned and stored, and nothing kills it.
  The device stays grabbed after the release. The turn is split into
  `LockedDevice.CheckStreamEnd` and `LockedDevice.SpawnReplacement`, and
  `Release` may be called between them. `Scenarios.ReleaseDuringRespawn`
  shows the run.

What a panic does: every panic of the supervisor (src/input.rs:56, 59, 90)
happens on the thread started at src/input.rs:48. It unwinds only that
thread. The handle keeps the thread's `JoinHandle` (src/input.rs:20,
66-70) and never joins it, so the program goes on, and later drops the
handle as usual. Only the supervising loop has ended. If the grab process
had exited, the device is no longer grabbed. If its stream ended while it
still runs (after five lines, or on a read error), it keeps the grab until
the release kills it. So
`Fatal` in the model ends the supervising loop (`supervising` becomes
false) and leaves the handle as it was. It does not end the program. The
panics in `list` (src/input.rs:116) happen on the calling thread.

## Model

| member | source | states |
|---|---|---|
| `Text.Trim` | src/input.rs:117-118 | `trim` removes only whitespace (Rust's `char::is_whitespace` set), only from the two ends, and what is left neither starts nor ends with whitespace; an empty result means the text was all whitespace |
| `Text.TrimIdempotent` | src/input.rs:117-118 | trimming a trimmed field changes nothing |
| `Text.TrimOfTrimmed` | src/input.rs:117-118 | text without whitespace at either end is returned unchanged |
| `Text.IndexOf` | src/input.rs:116 | finds the first occurrence of the character, and finds nothing exactly when it does not occur |
| `Text.SplitOnce` | src/input.rs:116 | `split_once` fails exactly when there is no `:`; otherwise the halves joined around `:` give the line back and the first half has no `:` |
| `Text.SplitJoin` | src/input.rs:92 | joining lines that contain no newline with `"\n"` and splitting at newlines again gives back the lines |
| `Input.ListOutcome` | src/input.rs:101-121 | `list` yields devices exactly when `evtest` started, the drain succeeded and every kept line has a `:`; it returns an error rather than panicking exactly when the spawn or the drain failed, and that error is `CommandError::Io` of the spawn error, or else of the drain error |
| `Input.ParseDevicesOutcome` | src/input.rs:110-121 | `list` succeeds exactly when every kept line has a `:`; then it yields one device per kept line, the k-th device parsed from the k-th kept line; otherwise it panics on the first kept line without `:` |
| `Input.DeviceLinesInOrder` | src/input.rs:113-114 | the kept lines are exactly the lines starting with `/dev/input/event`, in their original order: they sit at strictly increasing positions, and every such line is among them |
| `Input.PositionsPointAtKeptLines` | src/input.rs:113-114 | for any filter predicate, the k-th kept line is the line at the k-th recorded position |
| `Input.PositionsIncrease` | src/input.rs:113-114 | the positions of the kept lines increase strictly, so `filter` preserves order |
| `Input.PositionsComplete` | src/input.rs:114 | no line that the filter predicate accepts is dropped |
| `Input.KeptLinesAccepted` | src/input.rs:114 | every kept line is accepted by the filter predicate |
| `Input.CollectKeptSucceeds` | src/input.rs:113-121 | the `filter`/`map`/`collect` pipeline succeeds exactly when the parser accepts every kept line |
| `Input.CollectKeptYields` | src/input.rs:113-121 | a successful pipeline yields one device per kept line, the k-th being what the parser makes of the k-th kept line |
| `Input.CollectKeptPanics` | src/input.rs:113-121 | a failed pipeline stops at the first kept line the parser rejects, and such a line exists |
| `Input.FirstRejected` | src/input.rs:115-120 | the first rejected line is rejected and every line before it is accepted; there is none exactly when every line is accepted |
| `Input.SplitAtFirstColon` | src/input.rs:116-118 | a line `path:name` with no `:` in `path` gives `Device(trim(path), trim(name))`, so a later `:` stays in the name |
| `Input.EventPathHasPrefix` | src/input.rs:114-117 | every discovered device's event path starts with `/dev/input/event` |
| `Input.WaitForStderrEnd` | src/input.rs:86-93 | takes at most five items, never more than the stream has; returns the first five lines (or all of them) joined with `"\n"`, or panics on the first read error among them, having consumed exactly up to it |
| `Input.CollectedLines` | src/input.rs:88-92 | the collected text holds at most five lines, the first lines of the stream in stream order, recovered by splitting at newlines |
| `BackgroundReader.ForwardedStopsAtError` | src/input/background_reader.rs:15-21 | the producer sends a prefix of its stream in read order, holds at most one error as its last item, ends in an error exactly when the stream holds one, and sends the whole stream otherwise |
| `BackgroundReader.ForwardedStep` | src/input/background_reader.rs:16-20 | after `i` lines the producer's next item ends the forwarded prefix if it is an error, and the whole stream is forwarded when it ends without one |
| `BackgroundReader.DrainEmptiesProducedQueue` | src/input/background_reader.rs:29-39 | on a queue the producer filled, `lines()` leaves nothing behind and returns an error exactly when the queue ends in one |
| `BackgroundReader.LineReader.constructor` | src/input/background_reader.rs:11-26 | a new reader has an empty channel and a running producer |
| `BackgroundReader.LineReader.Send` | src/input/background_reader.rs:16-20 | the item read is appended to the channel; the producer stops exactly when the item is an error |
| `BackgroundReader.LineReader.Finish` | src/input/background_reader.rs:15-21 | at the end of the stream the producer stops and the channel is unchanged |
| `BackgroundReader.LineReader.Produce` | src/input/background_reader.rs:14-21 | the producer's loop appends to the channel every item up to and including the first error, then stops; the invariant (at most one error, always last, and the producer stopped after it) is kept |
| `BackgroundReader.LineReader.Lines` | src/input/background_reader.rs:29-39 | takes items up to the first error; returns the lines in send order, or the error alone (dropping the lines before it); the channel is left empty; an error means the producer has stopped; an empty channel gives `Ok([])` |
| `BackgroundReader.PollTwice` | src/input/background_reader.rs:36 | with nothing sent between two calls, the second returns `Ok([])` |
| `BackgroundReader.PollAfterError` | src/input/background_reader.rs:15-20 | once an error has been returned, a later call returns `Ok([])`, whatever the producer attempts |
| `Supervisor.DecisionCases` | src/input.rs:51-61 | at a stream end the loop stops exactly when the diagnostics were read and the flag is set (checked before the grace period); it fails as a startup failure exactly when not stopping inside the grace period, carrying the collected diagnostics; it respawns exactly when not stopping, past the grace period and the spawn succeeds |
| `Supervisor.RunRespawnsOncePerEnd` | src/input.rs:50-62 | the loop respawns once per stream end until the first stream end that is not a respawn, which is the last it handles |
| `Supervisor.StoppingNeverRespawns` | src/input.rs:52-54 | with the stop flag set, no respawn ever happens |
| `Supervisor.NoStartupFailureAfterGrace` | src/input.rs:55-57 | once every stream end lies past the grace period, none of them is a startup failure |
| `Supervisor.StartupFailureOnlyBeforeRespawn` | src/input.rs:44-61 | the grace period runs from the single first-lock instant; with time moving forward, a startup failure can only end the loop before its first respawn |
| `Supervisor.HistoryAfterSpawn` | src/input.rs:59-61 | storing a freshly spawned process makes it the newest and current one; a spawn logged after a stop can only be this one, by a turn whose stop check came before the stop |
| `Supervisor.HistoryAfterCheck` | src/input.rs:52-57 | a turn goes on to respawn only while no stop has been logged |
| `Supervisor.HistoryAfterRelease` | src/input.rs:29-33 | setting the stop flag and killing the current process keeps the history consistent and records the flag |
| `Supervisor.LockedDevice.constructor` | src/input.rs:39-47 | a new handle has its first grab process running and current, the stop flag clear, and the first-lock time fixed |
| `Supervisor.LockedDevice.CheckStreamEnd` | src/input.rs:51-57 | the first part of a turn decides as `Check` does: read panic, then stop, then startup failure, otherwise go on to respawn; the exited process leaves the running set; nothing is spawned |
| `Supervisor.LockedDevice.SpawnReplacement` | src/input.rs:59-61 | the second part of a turn does not look at the stop flag again: a failed spawn is fatal; otherwise exactly one fresh process is spawned and made current, and the process it replaces is not killed |
| `Supervisor.LockedDevice.OnStreamEnd` | src/input.rs:51-61 | a turn with no release inside it follows `Decide` and leaves the processes as `Step` gives them: the exited process leaves the running set, and a respawn adds exactly one fresh process and makes it current |
| `Supervisor.LockedDevice.Maintain` | src/input.rs:48-63 | the loop over successive stream ends gives `Run`'s outcome, leaves the processes as `RunProcs` gives them and logs one spawn per respawn, numbered in order |
| `Supervisor.RunProcsShape` | src/input.rs:48-63 | after a run with n respawns the next number moved by n, the last process spawned is current, no process is added except those of the run, every process that was running and not current stays running, and while the loop goes on its current process runs |
| `Supervisor.LockedDevice.Release` | src/input.rs:29-33 | `drop` sets the stop flag, then kills the process current at that moment; nothing else changes; it may come between the two parts of a turn |
| `Supervisor.Lock` | src/input.rs:36-71 | a failed spawn returns `CommandError::Io`; otherwise a handle for the device's event path whose grab process is running and whose supervisor is looping |
| `Scenarios.StartupRejection` | src/input.rs:55-57 | a grab process exiting one second after the lock with "Permission denied" is fatal with that text |
| `Scenarios.TransientRecovery` | src/input.rs:58-61 | a grab lost thirty seconds in is replaced by a fresh running process for the same device |
| `Scenarios.NormalRelease` | src/input.rs:29-33 | after release, the killed process's stream end stops the loop and nothing is respawned |
| `Scenarios.ReleaseDuringRespawn` | src/input.rs:31-60 | a release between the stop check and the store of the replacement kills only the old process; the replacement becomes current, keeps running and is never killed, with the flag set and the loop still going |

## Left out

- Spawning `evtest`, stdio piping and `kill()` (src/input.rs:74-84, 102-106, 32) are OS process I/O. A spawn is a parameter saying whether it failed. A kill removes the process from the running set.
- `Release` does not model `kill().unwrap()` panicking when the OS refuses the kill.
- Threads, `Arc<Mutex<_>>`, `AtomicBool` memory ordering and `mpsc` channel semantics are concurrency. The two sides are interleaved method calls on plain fields.
- `Maintain` and `Run` treat the stop flag as constant during one run. A release between turns is modelled as `Release` followed by further `OnStreamEnd` calls. A release inside a turn is modelled by calling `Release` between `CheckStreamEnd` and `SpawnReplacement`.
- `SpawnReplacement` spawns and stores the replacement in one step. A release between the spawn (src/input.rs:59) and the store (src/input.rs:60) kills the same old process as one just before the spawn, so one step covers both windows.
- `thread::sleep` and `Instant` (src/input.rs:44, 55, 109) are wall-clock time. Time is an integer parameter in nanoseconds, and the settling sleep of `list` is not modelled.
- `List` takes the outcome of `lines()` as a parameter instead of calling `LineReader.Lines`.
- `println!` in `list` is console output.
- UTF-8 decoding in `BufRead::lines` is left out. A stream is the sequence of items it yields, and the only property of lines used is that they carry no `"\n"`.
- `CommandError::Failed` is declared but never produced by the code.
- src/main.rs (sudo escalation, setuid, `chown`, help text, device selection by name) is privilege plumbing and glue. It is not part of this model.
