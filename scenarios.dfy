/**
 * Concrete runs of the lock supervisor: a grab rejected at startup, a grab
 * lost and recovered later on, a release, and a release that lands in the
 * middle of a respawn.
 */
module Scenarios {
  import opened Wrappers
  import opened Lines
  import opened Input
  import opened Supervisor

  /** A grab process that exits one second after the lock with "Permission denied" is fatal, never retried. */
  method StartupRejection(device: Device, t0: int) returns (d: Decision)
    ensures d == Fatal(StartupFailure("Permission denied"))
  {
    var r := Lock(device, t0, None);
    var handle := r.value;
    var before := handle.nextId;
    d := handle.OnStreamEnd(StreamEnd(t0 + 1_000_000_000, [Ok("Permission denied")], true, None));
    assert handle.nextId == before;
  }

  /** A grab lost thirty seconds in is replaced by a fresh process for the same device. */
  method TransientRecovery(device: Device, t0: int) returns (d: Decision, handle: LockedDevice)
    ensures d == Respawn
    ensures handle.eventPath == device.eventPath && handle.Valid() && !handle.stopping
    ensures handle.running == {handle.current} && handle.current != 0
  {
    var r := Lock(device, t0, None);
    handle := r.value;
    d := handle.OnStreamEnd(StreamEnd(t0 + 30_000_000_000, [], true, None));
  }

  /** After a release the killed process's stream ends: the loop stops and nothing is respawned. */
  method NormalRelease(device: Device, t0: int, later: int) returns (d: Decision, handle: LockedDevice)
    ensures d == Stop
    ensures handle.running == {} && handle.nextId == 1 && !handle.supervising
  {
    var r := Lock(device, t0, None);
    handle := r.value;
    handle.Release();
    d := handle.OnStreamEnd(StreamEnd(later, [], true, None));
  }

  /**
   * A release that comes after the supervisor's stop check but before it
   * stores the replacement: the flag is set and the old process is killed,
   * yet the replacement is spawned, becomes current and is never killed,
   * so the device stays grabbed after the release.
   */
  method ReleaseDuringRespawn(device: Device, t0: int) returns (handle: LockedDevice)
    ensures handle.Valid() && handle.stopping && handle.supervising
    ensures handle.current == 1 && handle.running == {1}
    ensures handle.log == [Spawned(0), StopSet, Killed(0), Spawned(1)]
    ensures Killed(handle.current) !in handle.log
  {
    var r := Lock(device, t0, None);
    handle := r.value;
    var d := handle.CheckStreamEnd(t0 + 30_000_000_000, [], true);
    handle.Release();
    d := handle.SpawnReplacement(None);
  }
}
