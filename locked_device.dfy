/**
 * The lock supervisor of `src/input.rs`: `Device::lock`, the loop of the
 * thread it starts, and `Drop for LockedDevice`. Grab processes are
 * numbered in spawn order; which of them are running is part of the
 * state. Time is an integer count of nanoseconds, as `Instant` measures
 * it, and the stop flag and the shared current process are plain fields:
 * the two threads are modelled as interleaved method calls.
 */
module Supervisor {
  import opened Wrappers
  import opened Lines
  import opened Input

  /** A grab process that exits this soon after the first lock failed to start. */
  const GracePeriod: int := 5_000_000_000

  datatype FatalReason =
    | ReadPanic(error: IoError)           // `line.unwrap()` on a diagnostic read error
    | StartupFailure(diagnostics: string)  // `panic!("{err}")` inside the grace period
    | RespawnFailed(error: IoError)        // `lock_input(..).unwrap()` could not spawn

  /** What the supervising thread does when a grab process's diagnostic stream ends. */
  datatype Decision = Stop | Fatal(reason: FatalReason) | Respawn

  /**
   * One end of a grab process's diagnostic stream: when it was handled, the
   * items the stream yielded, whether it ended because the process exited
   * (rather than by yielding five lines), and the outcome of spawning a
   * replacement, should one be spawned.
   */
  datatype StreamEnd = StreamEnd(now: int, diagnostics: seq<Item>, exited: bool, spawnError: Option<IoError>)

  /**
   * The first part of a turn, up to the spawn of a replacement: collect the
   * diagnostics, leave if the stop flag is set, fail inside the grace
   * period. `Respawn` here means the thread goes on to spawn.
   */
  function Check(stopping: bool, firstLock: int, now: int, diagnostics: seq<Item>): Decision {
    match Collected(diagnostics)
    case Err(err) => Fatal(ReadPanic(err))
    case Ok(text) =>
      if stopping then Stop
      else if now - firstLock < GracePeriod then Fatal(StartupFailure(text))
      else Respawn
  }

  /** The outcome of spawning the replacement. */
  function SpawnOutcome(spawnError: Option<IoError>): Decision {
    match spawnError
    case Some(err) => Fatal(RespawnFailed(err))
    case None => Respawn
  }

  /** One whole turn of the supervising loop, with the stop flag as it stands at the check. */
  function Decide(stopping: bool, firstLock: int, e: StreamEnd): Decision {
    var c := Check(stopping, firstLock, e.now, e.diagnostics);
    if c.Respawn? then SpawnOutcome(e.spawnError) else c
  }

  /**
   * The classification, case by case: the stop check comes before the
   * grace period, a stopping supervisor never respawns, and it respawns
   * exactly when it is not stopping, the grace period is over and the
   * diagnostics were read and the spawn succeeds.
   */
  lemma DecisionCases(stopping: bool, firstLock: int, e: StreamEnd)
    ensures Decide(stopping, firstLock, e) == Stop <==> Collected(e.diagnostics).Ok? && stopping
    ensures Decide(stopping, firstLock, e).Respawn? <==>
      Collected(e.diagnostics).Ok? && !stopping && e.now - firstLock >= GracePeriod && e.spawnError.None?
    ensures (Decide(stopping, firstLock, e).Fatal? && Decide(stopping, firstLock, e).reason.StartupFailure?) <==>
      Collected(e.diagnostics).Ok? && !stopping && e.now - firstLock < GracePeriod
    ensures Decide(stopping, firstLock, e).Fatal? && Decide(stopping, firstLock, e).reason.StartupFailure? ==>
      Collected(e.diagnostics) == Ok(Decide(stopping, firstLock, e).reason.diagnostics)
  {
  }

  /** How the supervising loop stands after a run of stream ends. */
  datatype RunOutcome =
    | Ended(respawns: nat, last: Decision)  // the loop left, by `break` or by a panic
    | Running(respawns: nat)                // every stream end so far led to a respawn

  function WithRespawn(o: RunOutcome): RunOutcome {
    match o
    case Ended(n, d) => Ended(n + 1, d)
    case Running(n) => Running(n + 1)
  }

  /** The supervising loop over successive stream ends, the stop flag as it stands. */
  function Run(stopping: bool, firstLock: int, ends: seq<StreamEnd>): RunOutcome {
    if ends == [] then Running(0)
    else
      var d := Decide(stopping, firstLock, ends[0]);
      if d.Respawn? then WithRespawn(Run(stopping, firstLock, ends[1..])) else Ended(0, d)
  }

  /**
   * The loop respawns once per stream end until the first stream end that
   * is not a respawn, and that one is the last it handles.
   */
  lemma {:induction false} RunRespawnsOncePerEnd(stopping: bool, firstLock: int, ends: seq<StreamEnd>)
    ensures var o := Run(stopping, firstLock, ends);
      && (o.Running? ==> o.respawns == |ends| && forall i :: 0 <= i < |ends| ==> Decide(stopping, firstLock, ends[i]).Respawn?)
      && (o.Ended? ==>
            && o.respawns < |ends|
            && (forall i :: 0 <= i < o.respawns ==> Decide(stopping, firstLock, ends[i]).Respawn?)
            && Decide(stopping, firstLock, ends[o.respawns]) == o.last
            && !o.last.Respawn?)
  {
    if ends != [] {
      RunRespawnsOncePerEnd(stopping, firstLock, ends[1..]);
      assert forall i :: 0 < i < |ends| ==> ends[i] == ends[1..][i - 1];
    }
  }

  /** A stopping supervisor never respawns. */
  lemma {:induction false} StoppingNeverRespawns(firstLock: int, ends: seq<StreamEnd>)
    ensures Run(true, firstLock, ends).respawns == 0
  {
    if ends != [] {
      assert !Decide(true, firstLock, ends[0]).Respawn?;
    }
  }

  predicate Nondecreasing(ends: seq<StreamEnd>) {
    forall i, j :: 0 <= i < j < |ends| ==> ends[i].now <= ends[j].now
  }

  /** Once the grace period is over, no stream end is a startup failure. */
  lemma {:induction false} NoStartupFailureAfterGrace(stopping: bool, firstLock: int, ends: seq<StreamEnd>)
    requires forall i :: 0 <= i < |ends| ==> ends[i].now - firstLock >= GracePeriod
    ensures var o := Run(stopping, firstLock, ends);
      !(o.Ended? && o.last.Fatal? && o.last.reason.StartupFailure?)
  {
    if ends != [] {
      assert forall i :: 0 < i < |ends| ==> ends[i] == ends[1..][i - 1];
      NoStartupFailureAfterGrace(stopping, firstLock, ends[1..]);
    }
  }

  /**
   * The grace period is measured from the first lock and never restarts:
   * with time moving forward, a startup failure can only end the loop
   * before its first respawn.
   */
  lemma StartupFailureOnlyBeforeRespawn(stopping: bool, firstLock: int, ends: seq<StreamEnd>)
    requires Nondecreasing(ends)
    ensures var o := Run(stopping, firstLock, ends);
      o.Ended? && o.last.Fatal? && o.last.reason.StartupFailure? ==> o.respawns == 0
  {
    if ends != [] && Decide(stopping, firstLock, ends[0]).Respawn? {
      assert forall i :: 0 <= i < |ends[1..]| ==> ends[1..][i] == ends[i + 1];
      NoStartupFailureAfterGrace(stopping, firstLock, ends[1..]);
    }
  }

  /** What happens to the grab processes, in order. */
  datatype Event = Spawned(id: nat) | StopSet | Killed(id: nat)

  /**
   * What a handle's event history guarantees: `current` is the newest
   * process spawned, the stop flag is set exactly when a stop was logged,
   * and a spawn logged after a stop can only be of the current process,
   * by a respawn whose stop check came before the stop.
   */
  ghost predicate History(log: seq<Event>, current: nat, stopping: bool, respawning: bool) {
    && (forall i :: 0 <= i < |log| && log[i].Spawned? ==> log[i].id <= current)
    && Spawned(current) in log
    && (stopping <==> StopSet in log)
    && (forall i, j :: 0 <= i < j < |log| && log[i] == StopSet && log[j].Spawned? ==> !respawning && log[j].id == current)
  }

  /** Passing the stop check before any stop keeps the history. */
  lemma HistoryAfterCheck(log: seq<Event>, current: nat, stopping: bool, respawning: bool)
    requires History(log, current, stopping, false) && (respawning ==> !stopping)
    ensures History(log, current, stopping, respawning)
  {
  }

  /**
   * Spawning a newer process and making it current keeps the history,
   * whether or not a stop came since the stop check.
   */
  lemma HistoryAfterSpawn(log: seq<Event>, current: nat, stopping: bool, id: nat)
    requires History(log, current, stopping, true) && current < id
    ensures History(log + [Spawned(id)], id, stopping, false)
  {
    var l := log + [Spawned(id)];
    assert forall i :: 0 <= i < |log| ==> l[i] == log[i];
    assert l[|log|] == Spawned(id);
  }

  /** Logging a stop and a kill sets the stop flag and keeps the history. */
  lemma HistoryAfterRelease(log: seq<Event>, current: nat, stopping: bool, respawning: bool)
    requires History(log, current, stopping, respawning)
    ensures History(log + [StopSet, Killed(current)], current, true, respawning)
  {
    var l := log + [StopSet, Killed(current)];
    assert forall i :: 0 <= i < |log| ==> l[i] == log[i];
    assert l[|log|] == StopSet && l[|log| + 1] == Killed(current);
  }

  /** The grab processes as the supervisor sees them: the current one, those running, and the next number. */
  datatype Procs = Procs(current: nat, running: set<nat>, nextId: nat)

  /**
   * The processes after a turn that decided `d` at stream end `e`: the
   * process whose stream ended leaves the running set if it exited, and a
   * respawn starts the next process and makes it current.
   */
  function Step(p: Procs, e: StreamEnd, d: Decision): Procs {
    var left := if e.exited then p.running - {p.current} else p.running;
    if d.Respawn? then Procs(p.nextId, left + {p.nextId}, p.nextId + 1)
    else Procs(p.current, left, p.nextId)
  }

  /** The processes after the supervising loop has handled `ends`, as `Run` decides them. */
  function RunProcs(stopping: bool, firstLock: int, ends: seq<StreamEnd>, p: Procs): Procs {
    if ends == [] then p
    else
      var d := Decide(stopping, firstLock, ends[0]);
      var q := Step(p, ends[0], d);
      if d.Respawn? then RunProcs(stopping, firstLock, ends[1..], q) else q
  }

  /** The spawns of `k` processes numbered from `n`. */
  function Spawns(n: nat, k: nat): (r: seq<Event>)
    ensures |r| == k && forall i :: 0 <= i < k ==> r[i] == Spawned(n + i)
  {
    seq(k, i requires 0 <= i < k => Spawned(n + i))
  }

  predicate Numbered(p: Procs) {
    p.current < p.nextId && forall id :: id in p.running ==> id < p.nextId
  }

  /**
   * After a run with `n` respawns the next number has moved by `n`, the
   * last process spawned is current, only processes of the run can have
   * been added, and no process other than those whose stream ended has
   * stopped: every running process that was not current before stays
   * running. While the loop goes on, the current process is running.
   */
  lemma {:induction false} RunProcsShape(stopping: bool, firstLock: int, ends: seq<StreamEnd>, p: Procs)
    requires Numbered(p)
    ensures var o := Run(stopping, firstLock, ends);
      var q := RunProcs(stopping, firstLock, ends, p);
      && Numbered(q)
      && q.nextId == p.nextId + o.respawns
      && q.current == (if o.respawns == 0 then p.current else q.nextId - 1)
      && (forall id :: id in q.running ==> id in p.running || p.nextId <= id)
      && (forall id :: id in p.running && id != p.current ==> id in q.running)
      && (o.Running? && o.respawns > 0 ==> q.current in q.running)
  {
    if ends != [] {
      var d := Decide(stopping, firstLock, ends[0]);
      if d.Respawn? {
        RunProcsShape(stopping, firstLock, ends[1..], Step(p, ends[0], d));
      }
    }
  }

  /** How the run from the `i`-th stream end goes on after its first turn decided `d`. */
  lemma TurnOfRun(stopping: bool, firstLock: int, ends: seq<StreamEnd>, i: nat, p: Procs, d: Decision)
    requires i < |ends| && d == Decide(stopping, firstLock, ends[i])
    ensures ends[i..][1..] == ends[i + 1..]
    ensures Run(stopping, firstLock, ends[i..]) ==
      if d.Respawn? then WithRespawn(Run(stopping, firstLock, ends[i + 1..])) else Ended(0, d)
    ensures RunProcs(stopping, firstLock, ends[i..], p) ==
      if d.Respawn? then RunProcs(stopping, firstLock, ends[i + 1..], Step(p, ends[i], d)) else Step(p, ends[i], d)
  {
    assert ends[i..][1..] == ends[i + 1..];
  }

  /** One more spawn logged after a numbered run of spawns. */
  lemma SpawnsNext(log: seq<Event>, n: nat, k: nat)
    ensures log + Spawns(n, k) + [Spawned(n + k)] == log + Spawns(n, k + 1)
  {
    assert Spawns(n, k + 1) == Spawns(n, k) + [Spawned(n + k)];
  }

  /** The handle of one held device and the state its supervising thread shares with it. */
  class LockedDevice {
    const eventPath: string
    /** When the device was first locked; respawns do not move it. */
    const firstLock: int
    /** The stop flag: only ever set. */
    var stopping: bool
    /** The grab process the handle refers to. */
    var current: nat
    /** The grab processes that are still running. */
    var running: set<nat>
    /** The number the next spawned grab process gets. */
    var nextId: nat
    /** The supervising thread is still in its loop. */
    var supervising: bool
    /** The supervising thread has passed the stop check and is about to spawn a replacement. */
    var respawning: bool
    ghost var log: seq<Event>

    ghost predicate Valid()
      reads this
    {
      && Numbered(Procs(current, running, nextId))
      && (respawning ==> supervising)
      && History(log, current, stopping, respawning)
    }

    /** The state `Device::lock` sets up once `evtest --grab` has been spawned as process 0. */
    constructor (path: string, now: int)
      ensures Valid()
      ensures eventPath == path && firstLock == now
      ensures !stopping && supervising && !respawning
      ensures current == 0 && running == {0} && nextId == 1
      ensures log == [Spawned(0)]
    {
      eventPath := path;
      firstLock := now;
      stopping := false;
      current := 0;
      running := {0};
      nextId := 1;
      supervising := true;
      respawning := false;
      log := [Spawned(0)];
    }

    /**
     * The first part of a loop turn, at the end of the current process's
     * diagnostic stream: collect the diagnostics and check the stop flag
     * and the grace period. On `Respawn` the thread goes on to spawn a
     * replacement; otherwise it leaves the loop.
     */
    method CheckStreamEnd(now: int, diagnostics: seq<Item>, exited: bool) returns (d: Decision)
      requires Valid() && supervising && !respawning
      modifies this
      ensures Valid()
      ensures d == Check(old(stopping), firstLock, now, diagnostics)
      ensures supervising == respawning == d.Respawn?
      ensures running == if exited then old(running) - {old(current)} else old(running)
      ensures stopping == old(stopping) && current == old(current) && nextId == old(nextId) && log == old(log)
    {
      if exited {
        running := running - {current};
      }
      var err, _ := WaitForStderrEnd(diagnostics);
      if err.Err? {
        supervising := false;
        return Fatal(ReadPanic(err.error));
      }
      if stopping {
        supervising := false;
        return Stop;
      }
      if now - firstLock < GracePeriod {
        supervising := false;
        return Fatal(StartupFailure(err.value));
      }
      respawning := true;
      HistoryAfterCheck(log, current, stopping, respawning);
      return Respawn;
    }

    /**
     * The second part of a loop turn: spawn a replacement for the same
     * device and store it as the current process. The stop flag is not
     * looked at again, and the process replaced is not killed.
     */
    method SpawnReplacement(spawnError: Option<IoError>) returns (d: Decision)
      requires Valid() && respawning
      modifies this
      ensures Valid() && !respawning
      ensures d == SpawnOutcome(spawnError) && supervising == d.Respawn?
      ensures stopping == old(stopping)
      ensures if d.Respawn? then
          && current == old(nextId) && current !in old(running) && nextId == old(nextId) + 1
          && running == old(running) + {current}
          && log == old(log) + [Spawned(current)]
        else
          && current == old(current) && nextId == old(nextId)
          && running == old(running) && log == old(log)
    {
      respawning := false;
      if spawnError.Some? {
        supervising := false;
        return Fatal(RespawnFailed(spawnError.value));
      }
      HistoryAfterSpawn(log, current, stopping, nextId);
      current := nextId;
      nextId := nextId + 1;
      running := running + {current};
      log := log + [Spawned(current)];
      return Respawn;
    }

    /**
     * One loop turn with no release in the middle of it: the check and, if
     * it passes, the spawn.
     */
    method OnStreamEnd(e: StreamEnd) returns (d: Decision)
      requires Valid() && supervising && !respawning
      modifies this
      ensures Valid() && !respawning
      ensures d == Decide(old(stopping), firstLock, e)
      ensures stopping == old(stopping)
      ensures supervising == d.Respawn?
      ensures Procs(current, running, nextId) == Step(Procs(old(current), old(running), old(nextId)), e, d)
      ensures current !in old(running) || current == old(current)
      ensures log == if d.Respawn? then old(log) + [Spawned(current)] else old(log)
    {
      d := CheckStreamEnd(e.now, e.diagnostics, e.exited);
      if d.Respawn? {
        d := SpawnReplacement(e.spawnError);
      }
    }

    /** The loop's progress through `ends` after `i` turns that all respawned, from processes `p0` and history `log0`. */
    ghost predicate Progress(ends: seq<StreamEnd>, i: nat, p0: Procs, log0: seq<Event>)
      reads this
    {
      && i <= |ends|
      && nextId == p0.nextId + i
      && Run(stopping, firstLock, ends) == Shift(i, Run(stopping, firstLock, ends[i..]))
      && RunProcs(stopping, firstLock, ends, p0) == RunProcs(stopping, firstLock, ends[i..], Procs(current, running, nextId))
      && log == log0 + Spawns(p0.nextId, i)
    }

    /** The `i`-th turn of `Maintain`: it keeps the loop's progress when it respawns and gives the run's outcome otherwise. */
    method MaintainTurn(ends: seq<StreamEnd>, i: nat, ghost p0: Procs, ghost log0: seq<Event>) returns (d: Decision)
      requires Valid() && supervising && !respawning
      requires i < |ends| && Progress(ends, i, p0, log0)
      modifies this
      ensures Valid() && !respawning && stopping == old(stopping) && supervising == d.Respawn?
      ensures d.Respawn? ==> Progress(ends, i + 1, p0, log0)
      ensures !d.Respawn? ==>
        && Run(stopping, firstLock, ends) == Ended(i, d)
        && Procs(current, running, nextId) == RunProcs(stopping, firstLock, ends, p0)
        && log == log0 + Spawns(p0.nextId, i)
    {
      ghost var p := Procs(current, running, nextId);
      d := OnStreamEnd(ends[i]);
      TurnOfRun(stopping, firstLock, ends, i, p, d);
      if d.Respawn? {
        assert current == p0.nextId + i;
        SpawnsNext(log0, p0.nextId, i);
      }
    }

    /**
     * The supervising thread's loop, over the stream ends it meets while
     * the stop flag stays as it is: it decides as `Run` does, the processes
     * end up as `RunProcs` gives them, and one spawn is logged per respawn.
     */
    method Maintain(ends: seq<StreamEnd>) returns (o: RunOutcome)
      requires Valid() && supervising && !respawning
      modifies this
      ensures Valid() && !respawning
      ensures o == Run(old(stopping), firstLock, ends)
      ensures stopping == old(stopping) && supervising == o.Running?
      ensures Procs(current, running, nextId) == RunProcs(old(stopping), firstLock, ends, Procs(old(current), old(running), old(nextId)))
      ensures log == old(log) + Spawns(old(nextId), o.respawns)
    {
      ghost var p0 := Procs(current, running, nextId);
      assert ends[0..] == ends;
      var i := 0;
      while i < |ends|
        invariant Valid() && supervising && !respawning && stopping == old(stopping)
        invariant Progress(ends, i, p0, old(log))
      {
        var d := MaintainTurn(ends, i, p0, old(log));
        if !d.Respawn? {
          return Ended(i, d);
        }
        i := i + 1;
      }
      return Running(i);
    }

    /**
     * `Drop for LockedDevice`: set the stop flag, then kill the process
     * the handle refers to at that moment. It can come at any point of a
     * loop turn, also between the stop check and the store of a
     * replacement.
     */
    method Release()
      requires Valid()
      modifies this
      ensures Valid() && stopping
      ensures running == old(running) - {old(current)}
      ensures current == old(current) && nextId == old(nextId)
      ensures supervising == old(supervising) && respawning == old(respawning)
      ensures log == old(log) + [StopSet, Killed(old(current))]
    {
      HistoryAfterRelease(log, current, stopping, respawning);
      stopping := true;
      running := running - {current};
      log := log + [StopSet, Killed(current)];
    }
  }

  /** `o` after `n` more respawns in front of it. */
  function Shift(n: nat, o: RunOutcome): RunOutcome {
    match o
    case Ended(k, d) => Ended(k + n, d)
    case Running(k) => Running(k + n)
  }

  /**
   * `Device::lock`: spawn `evtest --grab` for the device's event path; if
   * that fails, return `CommandError::Io`, otherwise a handle whose grab
   * process is running and whose supervisor is looping.
   */
  method Lock(device: Device, now: int, spawnError: Option<IoError>) returns (r: Result<LockedDevice, CommandError>)
    ensures r.Err? <==> spawnError.Some?
    ensures r.Err? ==> r.error == Io(spawnError.value)
    ensures r.Ok? ==>
      && fresh(r.value) && r.value.Valid()
      && r.value.eventPath == device.eventPath && r.value.firstLock == now
      && !r.value.stopping && r.value.supervising && !r.value.respawning
      && r.value.current == 0 && r.value.running == {0} && r.value.nextId == 1
      && r.value.log == [Spawned(0)]
  {
    if spawnError.Some? {
      return Err(Io(spawnError.value));
    }
    var handle := new LockedDevice(device.eventPath, now);
    return Ok(handle);
  }
}
