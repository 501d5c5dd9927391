/**
 * The sequential parts of `src/input.rs`: the error type, the `Device`
 * record, the parser that turns the drained `evtest` diagnostics into
 * devices (`list`), and the bounded collector of a grab process's
 * diagnostics (`wait_for_stderr_end`).
 */
module Input {
  import opened Wrappers
  import opened Text
  import opened Lines

  datatype CommandError = Io(error: IoError) | Failed(stderr: string)

  /** An input device as `evtest` lists it: its event node and its name. */
  datatype Device = Device(eventPath: string, name: string)

  /** How `list` ends when it does not return devices. */
  datatype ListFailure =
    | Returned(error: CommandError)  // the `Err` that `list` returns
    | MissingColon(line: string)     // the panic of `split_once(":").unwrap()` on this line

  /** Lines that name a device start with this prefix. */
  const EventPrefix: string := "/dev/input/event"

  /** The number of diagnostic lines a grab process is given before its end is handled. */
  const DiagnosticLines: nat := 5

  predicate IsDeviceLine(line: string) {
    StartsWith(line, EventPrefix)
  }

  /** The lines that `keep` accepts, in their original order: `filter(keep)`. */
  function Kept(lines: seq<string>, keep: string -> bool): seq<string> {
    if lines == [] then []
    else if keep(lines[0]) then [lines[0]] + Kept(lines[1..], keep)
    else Kept(lines[1..], keep)
  }

  /** The lines that `list` keeps. */
  function DeviceLines(lines: seq<string>): seq<string> {
    Kept(lines, IsDeviceLine)
  }

  /** One kept line: the path before the first `:`, the name after it, both trimmed. */
  function ParseDevice(line: string): Option<Device> {
    match SplitOnce(line, ':')
    case None => None
    case Some((path, name)) => Some(Device(Trim(path), Trim(name)))
  }

  /**
   * The filter/map/collect pipeline of `list`: keep the device lines, map
   * each through `parse`, and collect, panicking on the first line `parse`
   * rejects.
   */
  function CollectKept(lines: seq<string>, keep: string -> bool, parse: string -> Option<Device>): Result<seq<Device>, ListFailure> {
    if lines == [] then Ok([])
    else if !keep(lines[0]) then CollectKept(lines[1..], keep, parse)
    else match parse(lines[0])
      case None => Err(MissingColon(lines[0]))
      case Some(d) =>
        match CollectKept(lines[1..], keep, parse)
        case Ok(ds) => Ok([d] + ds)
        case Err(f) => Err(f)
  }

  /** `list` over the drained lines. */
  function ParseDevices(lines: seq<string>): Result<seq<Device>, ListFailure> {
    CollectKept(lines, IsDeviceLine, ParseDevice)
  }

  /**
   * `list`: `spawnError` is the failure to start `evtest`, if any, and
   * `drained` what the background reader's `lines()` returned after the
   * settling delay.
   */
  function List(spawnError: Option<IoError>, drained: Result<seq<string>, IoError>): Result<seq<Device>, ListFailure> {
    if spawnError.Some? then Err(Returned(Io(spawnError.value)))
    else match drained
      case Err(e) => Err(Returned(Io(e)))
      case Ok(lines) => ParseDevices(lines)
  }

  /**
   * `list` yields devices exactly when `evtest` started, the drain
   * succeeded and every kept line has a `:`. It returns an error (rather
   * than panicking) exactly when `evtest` could not be started or the
   * drain failed, and that error is the I/O error that occurred first.
   */
  lemma ListOutcome(spawnError: Option<IoError>, drained: Result<seq<string>, IoError>)
    ensures List(spawnError, drained).Ok? <==>
      spawnError.None? && drained.Ok? && forall k :: 0 <= k < |DeviceLines(drained.value)| ==> ':' in DeviceLines(drained.value)[k]
    ensures List(spawnError, drained).Err? && List(spawnError, drained).error.Returned? <==> spawnError.Some? || drained.Err?
    ensures spawnError.Some? ==> List(spawnError, drained) == Err(Returned(Io(spawnError.value)))
    ensures spawnError.None? && drained.Err? ==> List(spawnError, drained) == Err(Returned(Io(drained.error)))
  {
    if spawnError.None? && drained.Ok? {
      ParseDevicesOutcome(drained.value);
    }
  }

  /** A kept line is rejected exactly when it has no `:`. */
  lemma ParseDeviceFails(line: string)
    ensures ParseDevice(line).None? <==> ':' !in line
  {
  }

  /** Putting a kept line in front of the kept lines. */
  lemma KeptCons(lines: seq<string>, keep: string -> bool)
    requires lines != [] && keep(lines[0])
    ensures Kept(lines, keep) == [lines[0]] + Kept(lines[1..], keep)
    ensures Kept(lines, keep)[0] == lines[0] && Kept(lines, keep)[1..] == Kept(lines[1..], keep)
  {
  }

  /** Collecting succeeds exactly when `parse` accepts every kept line. */
  lemma {:induction false} CollectKeptSucceeds(lines: seq<string>, keep: string -> bool, parse: string -> Option<Device>)
    ensures CollectKept(lines, keep, parse).Ok? <==> forall k :: 0 <= k < |Kept(lines, keep)| ==> parse(Kept(lines, keep)[k]).Some?
  {
    if lines != [] {
      CollectKeptSucceeds(lines[1..], keep, parse);
      if keep(lines[0]) {
        KeptCons(lines, keep);
        var all := Kept(lines, keep);
        var rest := Kept(lines[1..], keep);
        assert forall k :: 0 < k < |all| ==> all[k] == rest[k - 1];
        assert forall k :: 0 <= k < |rest| ==> rest[k] == all[k + 1];
        if parse(lines[0]).None? {
          assert parse(all[0]).None?;
        }
      } else {
        assert Kept(lines, keep) == Kept(lines[1..], keep);
      }
    }
  }

  /** A successful collection holds one device per kept line, in the order of the kept lines. */
  lemma {:induction false} CollectKeptYields(lines: seq<string>, keep: string -> bool, parse: string -> Option<Device>)
    requires CollectKept(lines, keep, parse).Ok?
    ensures var ds := CollectKept(lines, keep, parse).value;
      && |ds| == |Kept(lines, keep)|
      && forall k :: 0 <= k < |ds| ==> parse(Kept(lines, keep)[k]) == Some(ds[k])
  {
    if lines != [] {
      CollectKeptYields(lines[1..], keep, parse);
      if keep(lines[0]) {
        KeptCons(lines, keep);
        var all := Kept(lines, keep);
        var ds := CollectKept(lines, keep, parse).value;
        var rest := CollectKept(lines[1..], keep, parse).value;
        assert ds == [parse(lines[0]).value] + rest;
        assert forall k :: 0 < k < |ds| ==> all[k] == Kept(lines[1..], keep)[k - 1] && ds[k] == rest[k - 1];
      }
    }
  }

  /** A failed collection names the first kept line that `parse` rejects. */
  lemma {:induction false} CollectKeptPanics(lines: seq<string>, keep: string -> bool, parse: string -> Option<Device>)
    requires CollectKept(lines, keep, parse).Err?
    ensures exists j :: 0 <= j < |Kept(lines, keep)| && parse(Kept(lines, keep)[j]).None?
    ensures var j := FirstRejected(Kept(lines, keep), parse).value;
      CollectKept(lines, keep, parse) == Err(MissingColon(Kept(lines, keep)[j]))
  {
    if keep(lines[0]) {
      KeptCons(lines, keep);
      var all := Kept(lines, keep);
      if parse(lines[0]).Some? {
        CollectKeptPanics(lines[1..], keep, parse);
        var j :| 0 <= j < |Kept(lines[1..], keep)| && parse(Kept(lines[1..], keep)[j]).None?;
        assert all[j + 1] == Kept(lines[1..], keep)[j];
      }
    } else {
      assert Kept(lines, keep) == Kept(lines[1..], keep);
      CollectKeptPanics(lines[1..], keep, parse);
    }
  }

  /** The index of the first line that `parse` rejects, if any. */
  function FirstRejected(ls: seq<string>, parse: string -> Option<Device>): (r: Option<nat>)
    ensures r.None? <==> forall k :: 0 <= k < |ls| ==> parse(ls[k]).Some?
    ensures r.Some? ==> r.value < |ls| && parse(ls[r.value]).None? && forall k :: 0 <= k < r.value ==> parse(ls[k]).Some?
  {
    if ls == [] then None
    else if parse(ls[0]).None? then Some(0)
    else match FirstRejected(ls[1..], parse)
      case None => None
      case Some(j) => Some(j + 1)
  }

  /**
   * `list` succeeds exactly when every kept line has a `:`; then it yields
   * one device per kept line, the k-th device parsed from the k-th kept
   * line. Otherwise it panics on the first kept line without a `:`.
   */
  lemma ParseDevicesOutcome(lines: seq<string>)
    ensures ParseDevices(lines).Ok? <==> forall k :: 0 <= k < |DeviceLines(lines)| ==> ':' in DeviceLines(lines)[k]
    ensures ParseDevices(lines).Ok? ==>
      var ds := ParseDevices(lines).value;
      && |ds| == |DeviceLines(lines)|
      && forall k :: 0 <= k < |ds| ==> ParseDevice(DeviceLines(lines)[k]) == Some(ds[k])
    ensures ParseDevices(lines).Err? ==>
      exists j :: 0 <= j < |DeviceLines(lines)|
        && ParseDevices(lines) == Err(MissingColon(DeviceLines(lines)[j]))
        && ':' !in DeviceLines(lines)[j]
        && forall k :: 0 <= k < j ==> ':' in DeviceLines(lines)[k]
  {
    var kept := DeviceLines(lines);
    forall k | 0 <= k < |kept|
      ensures ParseDevice(kept[k]).None? <==> ':' !in kept[k]
    {
      ParseDeviceFails(kept[k]);
    }
    CollectKeptSucceeds(lines, IsDeviceLine, ParseDevice);
    if ParseDevices(lines).Ok? {
      CollectKeptYields(lines, IsDeviceLine, ParseDevice);
    } else {
      CollectKeptPanics(lines, IsDeviceLine, ParseDevice);
      var j := FirstRejected(kept, ParseDevice).value;
      assert ParseDevices(lines) == Err(MissingColon(kept[j]));
    }
  }

  /** `p` with every element increased by one. */
  function Shifted(p: seq<nat>): (r: seq<nat>)
    ensures |r| == |p| && forall k :: 0 <= k < |p| ==> r[k] == p[k] + 1
  {
    seq(|p|, k requires 0 <= k < |p| => p[k] + 1)
  }

  /** The positions in `lines` of the lines that `keep` accepts. */
  function KeptPositions(lines: seq<string>, keep: string -> bool): seq<nat> {
    if lines == [] then []
    else if keep(lines[0]) then [0] + Shifted(KeptPositions(lines[1..], keep))
    else Shifted(KeptPositions(lines[1..], keep))
  }

  /** The positions of the kept lines in the drained output. */
  function DeviceLinePositions(lines: seq<string>): seq<nat> {
    KeptPositions(lines, IsDeviceLine)
  }

  /** Positions that are valid, strictly increasing and point at exactly the lines `keep` accepts. */
  predicate PositionsOf(lines: seq<string>, keep: string -> bool, kept: seq<string>, pos: seq<nat>) {
    && |pos| == |kept|
    && (forall k :: 0 <= k < |pos| ==> pos[k] < |lines| && kept[k] == lines[pos[k]])
    && (forall k, m :: 0 <= k < m < |pos| ==> pos[k] < pos[m])
    && (forall i :: 0 <= i < |lines| && keep(lines[i]) ==> i in pos)
  }

  /** Positions and kept lines after one more line in front. */
  lemma KeptPositionsCons(lines: seq<string>, keep: string -> bool)
    requires lines != []
    ensures var p := KeptPositions(lines[1..], keep);
      var pos := KeptPositions(lines, keep);
      var kt := Kept(lines[1..], keep);
      var kept := Kept(lines, keep);
      if keep(lines[0]) then
        && |pos| == |p| + 1 && |kept| == |kt| + 1 && pos[0] == 0 && kept[0] == lines[0]
        && (forall k :: 0 < k < |pos| ==> pos[k] == p[k - 1] + 1)
        && (forall k :: 0 < k < |kept| ==> kept[k] == kt[k - 1])
      else
        && |pos| == |p| && kept == kt
        && forall k :: 0 <= k < |pos| ==> pos[k] == p[k] + 1
  {
  }

  lemma {:induction false} PositionsPointAtKeptLines(lines: seq<string>, keep: string -> bool)
    ensures |KeptPositions(lines, keep)| == |Kept(lines, keep)|
    ensures forall k :: 0 <= k < |Kept(lines, keep)| ==>
      KeptPositions(lines, keep)[k] < |lines| && Kept(lines, keep)[k] == lines[KeptPositions(lines, keep)[k]]
  {
    if lines != [] {
      var tail := lines[1..];
      PositionsPointAtKeptLines(tail, keep);
      KeptPositionsCons(lines, keep);
      var p := KeptPositions(tail, keep);
      assert forall k :: 0 <= k < |p| ==> tail[p[k]] == lines[p[k] + 1];
    }
  }

  lemma {:induction false} PositionsIncrease(lines: seq<string>, keep: string -> bool)
    ensures forall k, m :: 0 <= k < m < |KeptPositions(lines, keep)| ==>
      KeptPositions(lines, keep)[k] < KeptPositions(lines, keep)[m]
  {
    if lines != [] {
      PositionsIncrease(lines[1..], keep);
      KeptPositionsCons(lines, keep);
    }
  }

  lemma {:induction false} PositionsComplete(lines: seq<string>, keep: string -> bool)
    ensures forall i :: 0 <= i < |lines| && keep(lines[i]) ==> i in KeptPositions(lines, keep)
  {
    if lines != [] {
      var tail := lines[1..];
      PositionsComplete(tail, keep);
      KeptPositionsCons(lines, keep);
      var p := KeptPositions(tail, keep);
      var pos := KeptPositions(lines, keep);
      forall i | 0 < i < |lines| && keep(lines[i])
        ensures i in pos
      {
        assert tail[i - 1] == lines[i];
        var k :| 0 <= k < |p| && p[k] == i - 1;
        if keep(lines[0]) {
          assert pos[k + 1] == i;
        } else {
          assert pos[k] == i;
        }
      }
    }
  }

  lemma {:induction false} KeptLinesAccepted(lines: seq<string>, keep: string -> bool)
    ensures forall k :: 0 <= k < |Kept(lines, keep)| ==> keep(Kept(lines, keep)[k])
  {
    if lines != [] {
      KeptLinesAccepted(lines[1..], keep);
      KeptPositionsCons(lines, keep);
    }
  }

  /**
   * The kept lines are exactly the lines that start with the event prefix,
   * taken in their original order: the k-th kept line is the line at the
   * k-th of a strictly increasing sequence of positions, and every device
   * line's position is among them.
   */
  lemma DeviceLinesInOrder(lines: seq<string>)
    ensures PositionsOf(lines, IsDeviceLine, DeviceLines(lines), DeviceLinePositions(lines))
    ensures forall k :: 0 <= k < |DeviceLines(lines)| ==> IsDeviceLine(DeviceLines(lines)[k])
  {
    PositionsPointAtKeptLines(lines, IsDeviceLine);
    PositionsIncrease(lines, IsDeviceLine);
    PositionsComplete(lines, IsDeviceLine);
    KeptLinesAccepted(lines, IsDeviceLine);
  }

  /** A kept line splits at its first `:`; any later `:` stays in the name. */
  lemma SplitAtFirstColon(line: string, path: string, name: string)
    requires line == path + ":" + name
    requires ':' !in path
    ensures ParseDevice(line) == Some(Device(Trim(path), Trim(name)))
  {
    assert line[..|path|] == path;
    assert line[|path|] == ':';
    var v := IndexOf(line, ':').value;
    assert forall k :: 0 <= k < |path| ==> line[k] == path[k];
    assert forall k :: 0 <= k < v ==> line[..v][k] == line[k];
    assert v == |path|;
    assert line[|path| + 1..] == name;
  }

  /** Trimming keeps a prefix that neither starts nor ends with whitespace. */
  lemma TrimKeepsPrefix(s: string, prefix: string)
    requires StartsWith(s, prefix) && prefix != []
    requires !IsWhitespace(prefix[0]) && !IsWhitespace(prefix[|prefix| - 1])
    ensures StartsWith(Trim(s), prefix)
  {
    assert s[0] == prefix[0];
    assert LeadingWhitespace(s) == 0;
    var t := Trim(s);
    assert s[|prefix| - 1] == prefix[|prefix| - 1];
    assert !AllWhitespace(s[|prefix| - 1..]) by {
      assert s[|prefix| - 1..][0] == s[|prefix| - 1];
    }
    assert |t| >= |prefix|;
    assert t[..|prefix|] == s[..|prefix|];
  }

  /** A prefix without `:` lies wholly before the first `:`. */
  lemma PrefixBeforeColon(line: string, p: string, n: string, prefix: string)
    requires line == p + ":" + n && ':' !in p
    requires StartsWith(line, prefix) && ':' !in prefix
    ensures StartsWith(p, prefix)
  {
    assert |p| >= |prefix| by {
      assert forall k :: 0 <= k < |prefix| ==> line[k] == prefix[k];
      assert line[|p|] == ':';
    }
    assert p[..|prefix|] == line[..|prefix|];
  }

  lemma EventPrefixShape()
    ensures ':' !in EventPrefix && EventPrefix != []
    ensures !IsWhitespace(EventPrefix[0]) && !IsWhitespace(EventPrefix[|EventPrefix| - 1])
  {
  }

  /** Every device found has an event path that starts with the event prefix. */
  lemma EventPathHasPrefix(line: string)
    requires IsDeviceLine(line)
    requires ParseDevice(line).Some?
    ensures StartsWith(ParseDevice(line).value.eventPath, EventPrefix)
  {
    var halves := SplitOnce(line, ':').value;
    EventPrefixShape();
    PrefixBeforeColon(line, halves.0, halves.1, EventPrefix);
    TrimKeepsPrefix(halves.0, EventPrefix);
  }

  /** What `wait_for_stderr_end` gives back for a diagnostic stream. */
  function Collected(stream: seq<Item>): Result<string, IoError> {
    var head := stream[..if |stream| < DiagnosticLines then |stream| else DiagnosticLines];
    match FirstErr(head)
    case Some(i) => Err(head[i].error)
    case None => Ok(Join(Values(head), "\n"))
  }

  /**
   * `wait_for_stderr_end`: reads at most the first five lines of the
   * stream and joins them with newlines. An error item makes
   * `line.unwrap()` panic; `r` is then `Err` with that error. `consumed` is
   * how many items were taken from the stream.
   */
  method WaitForStderrEnd(stream: seq<Item>) returns (r: Result<string, IoError>, consumed: nat)
    ensures r == Collected(stream)
    ensures consumed <= DiagnosticLines && consumed <= |stream|
    ensures r.Ok? ==> consumed == |stream| || consumed == DiagnosticLines
    ensures r.Err? ==> 0 < consumed && stream[consumed - 1] == Err(r.error) && AllOk(stream[..consumed - 1])
  {
    var error: seq<string> := [];
    var i := 0;
    while i < |stream| && i < DiagnosticLines
      invariant i <= |stream| && i <= DiagnosticLines
      invariant AllOk(stream[..i]) && error == Values(stream[..i])
    {
      if stream[i].Err? {
        ghost var head := stream[..if |stream| < DiagnosticLines then |stream| else DiagnosticLines];
        assert head[..i] == stream[..i];
        FirstErrAt(head, i);
        return Err(stream[i].error), i + 1;
      }
      error := error + [stream[i].value];
      assert stream[..i + 1] == stream[..i] + [stream[i]];
      i := i + 1;
    }
    assert stream[..i] == stream[..if |stream| < DiagnosticLines then |stream| else DiagnosticLines];
    return Ok(Join(error, "\n")), i;
  }

  /**
   * The collected text holds at most five lines, the first lines of the
   * stream in stream order: splitting it at newlines gives them back.
   */
  lemma CollectedLines(stream: seq<Item>)
    requires Collected(stream).Ok? && stream != []
    requires NoTerminators(stream)
    ensures var head := stream[..if |stream| < DiagnosticLines then |stream| else DiagnosticLines];
      && AllOk(head)
      && Split(Collected(stream).value, '\n') == Values(head)
      && 0 < |Values(head)| <= DiagnosticLines
  {
    var head := stream[..if |stream| < DiagnosticLines then |stream| else DiagnosticLines];
    assert forall k :: 0 <= k < |head| ==> head[k] == stream[k];
    SplitJoin(Values(head), '\n');
  }
}
