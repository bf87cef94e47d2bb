/**
 * The `result` record of `runCommand` in `run.js` and the four listeners that update it:
 * stdout and stderr data append to their text, `error` records the error and rejects,
 * `exit` records the exit code and resolves. The Promise is modelled by a one-shot
 * settlement that the first terminal event decides; later events still update the record.
 */
module Aggregator {
  import opened Wrappers

  /** The error object Node hands to the `error` listener, e.g. `ENOENT` for a missing executable. */
  datatype SpawnError = SpawnError(code: string)

  /** One event from the child process, in arrival order. */
  datatype Event =
    | StdoutData(chunk: string)
    | StderrData(chunk: string)
    | ErrorEvent(error: SpawnError)
    | ExitEvent(code: int)

  /** The state of the Promise `runCommand` returns. */
  datatype Settlement = Pending | Resolved | Rejected

  /** The `result` record together with the state of its Promise. */
  datatype Snapshot = Snapshot(
    error: Option<SpawnError>,
    exitCode: int,
    stdout: string,
    stderr: string,
    settled: Settlement)

  /** `{error: null, exitCode: 0, stdout: '', stderr: ''}`, not yet settled. */
  const Initial: Snapshot := Snapshot(None, 0, "", "", Pending)

  /** What one listener does to the record; `resolve` and `reject` only act while pending. */
  function Handle(s: Snapshot, e: Event): Snapshot
  {
    match e
    case StdoutData(c) => s.(stdout := s.stdout + c)
    case StderrData(c) => s.(stderr := s.stderr + c)
    case ErrorEvent(err) => s.(error := Some(err), settled := if s.settled == Pending then Rejected else s.settled)
    case ExitEvent(code) => s.(exitCode := code, settled := if s.settled == Pending then Resolved else s.settled)
  }

  /** The record after the listeners have seen `events` in order, starting from `s`. */
  function Replay(s: Snapshot, events: seq<Event>): Snapshot
    decreases |events|
  {
    if events == [] then s else Replay(Handle(s, events[0]), events[1..])
  }

  /** The stdout chunks of `events` concatenated in arrival order. */
  function StdoutText(events: seq<Event>): string
  {
    if events == [] then ""
    else (if events[0].StdoutData? then events[0].chunk else "") + StdoutText(events[1..])
  }

  /** The stderr chunks of `events` concatenated in arrival order. */
  function StderrText(events: seq<Event>): string
  {
    if events == [] then ""
    else (if events[0].StderrData? then events[0].chunk else "") + StderrText(events[1..])
  }

  /** The settlement the first terminal event of `events` decides, `Pending` if there is none. */
  function FirstTerminal(events: seq<Event>): Settlement
  {
    if events == [] then Pending
    else if events[0].ErrorEvent? then Rejected
    else if events[0].ExitEvent? then Resolved
    else FirstTerminal(events[1..])
  }

  /** The code of the last exit event of `events`, or `default` if there is none. */
  function LastExitCode(events: seq<Event>, default: int): int
  {
    if events == [] then default
    else if events[|events| - 1].ExitEvent? then events[|events| - 1].code
    else LastExitCode(events[..|events| - 1], default)
  }

  /** The error of the last error event of `events`, or `default` if there is none. */
  function LastError(events: seq<Event>, default: Option<SpawnError>): Option<SpawnError>
  {
    if events == [] then default
    else if events[|events| - 1].ErrorEvent? then Some(events[|events| - 1].error)
    else LastError(events[..|events| - 1], default)
  }

  /** One more event after a replay is one more listener call. */
  lemma {:induction false} ReplaySnoc(s: Snapshot, events: seq<Event>, e: Event)
    ensures Replay(s, events + [e]) == Handle(Replay(s, events), e)
    decreases |events|
  {
    if events == [] {
      assert ([] + [e])[1..] == [];
    } else {
      assert (events + [e])[0] == events[0];
      assert (events + [e])[1..] == events[1..] + [e];
      ReplaySnoc(Handle(s, events[0]), events[1..], e);
    }
  }

  /** `stdout` gains exactly the stdout chunks, in order, whatever else interleaves. */
  lemma {:induction false} ReplayStdout(s: Snapshot, events: seq<Event>)
    ensures Replay(s, events).stdout == s.stdout + StdoutText(events)
    decreases |events|
  {
    if events == [] {
      assert s.stdout + "" == s.stdout;
    } else {
      var s' := Handle(s, events[0]);
      var piece := if events[0].StdoutData? then events[0].chunk else "";
      ReplayStdout(s', events[1..]);
      assert Replay(s, events) == Replay(s', events[1..]);
      assert StdoutText(events) == piece + StdoutText(events[1..]);
      assert s'.stdout == s.stdout + piece;
      assert (s.stdout + piece) + StdoutText(events[1..]) == s.stdout + (piece + StdoutText(events[1..]));
    }
  }

  /** `stderr` gains exactly the stderr chunks, in order, whatever else interleaves. */
  lemma {:induction false} ReplayStderr(s: Snapshot, events: seq<Event>)
    ensures Replay(s, events).stderr == s.stderr + StderrText(events)
    decreases |events|
  {
    if events == [] {
      assert s.stderr + "" == s.stderr;
    } else {
      var s' := Handle(s, events[0]);
      var piece := if events[0].StderrData? then events[0].chunk else "";
      ReplayStderr(s', events[1..]);
      assert Replay(s, events) == Replay(s', events[1..]);
      assert StderrText(events) == piece + StderrText(events[1..]);
      assert s'.stderr == s.stderr + piece;
      assert (s.stderr + piece) + StderrText(events[1..]) == s.stderr + (piece + StderrText(events[1..]));
    }
  }

  /** The first terminal event decides the settlement, and a settled Promise stays as it is. */
  lemma {:induction false} ReplaySettlement(s: Snapshot, events: seq<Event>)
    ensures Replay(s, events).settled == if s.settled == Pending then FirstTerminal(events) else s.settled
    decreases |events|
  {
    if events != [] {
      ReplaySettlement(Handle(s, events[0]), events[1..]);
    }
  }

  /** `exitCode` holds the code of the last exit event, and is untouched without one. */
  lemma {:induction false} ReplayExitCode(s: Snapshot, events: seq<Event>)
    ensures Replay(s, events).exitCode == LastExitCode(events, s.exitCode)
    decreases |events|
  {
    if events != [] {
      var front := events[..|events| - 1];
      var last := events[|events| - 1];
      assert front + [last] == events;
      ReplaySnoc(s, front, last);
      ReplayExitCode(s, front);
    }
  }

  /** `error` holds the last error event's error, and is untouched without one. */
  lemma {:induction false} ReplayError(s: Snapshot, events: seq<Event>)
    ensures Replay(s, events).error == LastError(events, s.error)
    decreases |events|
  {
    if events != [] {
      var front := events[..|events| - 1];
      var last := events[|events| - 1];
      assert front + [last] == events;
      ReplaySnoc(s, front, last);
      ReplayError(s, front);
    }
  }

  /** The record a caller ends up with, field by field, for any event order. */
  lemma ReplayFromInitial(events: seq<Event>)
    ensures Replay(Initial, events) == Snapshot(
      LastError(events, None),
      LastExitCode(events, 0),
      StdoutText(events),
      StderrText(events),
      FirstTerminal(events))
  {
    ReplayStdout(Initial, events);
    ReplayStderr(Initial, events);
    ReplaySettlement(Initial, events);
    ReplayExitCode(Initial, events);
    ReplayError(Initial, events);
  }

  /** Without error events, `error` stays null. */
  lemma {:induction false} NoErrorEventNoError(events: seq<Event>, default: Option<SpawnError>)
    requires forall i :: 0 <= i < |events| ==> !events[i].ErrorEvent?
    ensures LastError(events, default) == default
    decreases |events|
  {
    if events != [] {
      NoErrorEventNoError(events[..|events| - 1], default);
    }
  }

  /** Without exit events, `exitCode` keeps its value. */
  lemma {:induction false} NoExitEventNoCode(events: seq<Event>, default: int)
    requires forall i :: 0 <= i < |events| ==> !events[i].ExitEvent?
    ensures LastExitCode(events, default) == default
    decreases |events|
  {
    if events != [] {
      NoExitEventNoCode(events[..|events| - 1], default);
    }
  }

  /** With no error event, the first terminal event is the first exit, if any. */
  lemma {:induction false} FirstTerminalWithoutErrors(events: seq<Event>)
    requires forall i :: 0 <= i < |events| ==> !events[i].ErrorEvent?
    ensures FirstTerminal(events) == if exists i :: 0 <= i < |events| && events[i].ExitEvent? then Resolved else Pending
    decreases |events|
  {
    if events != [] {
      FirstTerminalWithoutErrors(events[1..]);
      if exists i :: 0 <= i < |events[1..]| && events[1..][i].ExitEvent? {
        var i :| 0 <= i < |events[1..]| && events[1..][i].ExitEvent?;
        assert events[i + 1].ExitEvent?;
      }
      if exists i :: 0 <= i < |events| && events[i].ExitEvent? {
        var i :| 0 <= i < |events| && events[i].ExitEvent?;
        if i > 0 { assert events[1..][i - 1].ExitEvent?; }
      }
    }
  }

  /**
   * A run with exit events and no error event resolves with `error` null and the last
   * exit code, whether or not output arrives after the exit.
   */
  lemma CleanExit(events: seq<Event>, k: nat)
    requires forall i :: 0 <= i < |events| ==> !events[i].ErrorEvent?
    requires k < |events| && events[k].ExitEvent?
    ensures Replay(Initial, events).error == None
    ensures Replay(Initial, events).settled == Resolved
    ensures Replay(Initial, events).exitCode == LastExitCode(events, 0)
    ensures Replay(Initial, events).stdout == StdoutText(events)
  {
    ReplayFromInitial(events);
    NoErrorEventNoError(events, None);
    FirstTerminalWithoutErrors(events);
  }

  /**
   * A spawn failure (error events and no exit event) rejects, sets `error`, and leaves
   * `exitCode` at 0, keeping whatever output arrived.
   */
  lemma {:induction false} SpawnFailure(events: seq<Event>, k: nat)
    requires forall i :: 0 <= i < |events| ==> !events[i].ExitEvent?
    requires k < |events| && events[k].ErrorEvent?
    ensures Replay(Initial, events).error.Some?
    ensures Replay(Initial, events).exitCode == 0
    ensures Replay(Initial, events).settled == Rejected
    ensures Replay(Initial, events).stdout == StdoutText(events)
    ensures Replay(Initial, events).stderr == StderrText(events)
  {
    ReplayFromInitial(events);
    NoExitEventNoCode(events, 0);
    ErrorRejectsFirst(events, k);
    LastErrorPresent(events, k);
  }

  /** An error event with no exit event before it makes the first terminal event a rejection. */
  lemma {:induction false} ErrorRejectsFirst(events: seq<Event>, k: nat)
    requires k < |events| && events[k].ErrorEvent?
    requires forall i :: 0 <= i < k ==> !events[i].ExitEvent?
    ensures FirstTerminal(events) == Rejected
    decreases k
  {
    if k > 0 && !events[0].ErrorEvent? {
      assert events[1..][k - 1] == events[k];
      ErrorRejectsFirst(events[1..], k - 1);
    }
  }

  /** If any error event arrived, `error` is set. */
  lemma {:induction false} LastErrorPresent(events: seq<Event>, k: nat)
    requires k < |events| && events[k].ErrorEvent?
    ensures LastError(events, None).Some?
    decreases |events|
  {
    if !events[|events| - 1].ErrorEvent? {
      LastErrorPresent(events[..|events| - 1], k);
    }
  }

  /**
   * The `result` object shared by the four listeners. `settled` stands for the Promise,
   * and `received` is the ghost history of the events delivered so far.
   */
  class ProcessResult {
    var error: Option<SpawnError>
    var exitCode: int
    var stdout: string
    var stderr: string
    var settled: Settlement
    ghost var received: seq<Event>

    /** The record viewed as a value. */
    function Snap(): Snapshot
      reads this
    {
      Snapshot(error, exitCode, stdout, stderr, settled)
    }

    /** The record always equals the replay of the events it has received. */
    ghost predicate Valid()
      reads this
    {
      Snap() == Replay(Initial, received)
    }

    /** `const result = {error: null, exitCode: 0, stdout: '', stderr: ''}` */
    constructor ()
      ensures Valid() && received == []
      ensures Snap() == Initial
    {
      error := None;
      exitCode := 0;
      stdout := "";
      stderr := "";
      settled := Pending;
      received := [];
    }

    /** The `stdout` listener: `result.stdout += message`. */
    method OnStdout(message: string)
      requires Valid()
      modifies this
      ensures Valid() && received == old(received) + [StdoutData(message)]
      ensures stdout == old(stdout) + message
      ensures error == old(error) && exitCode == old(exitCode) && stderr == old(stderr) && settled == old(settled)
    {
      ReplaySnoc(Initial, received, StdoutData(message));
      stdout := stdout + message;
      received := received + [StdoutData(message)];
    }

    /** The `stderr` listener: `result.stderr += message`. */
    method OnStderr(message: string)
      requires Valid()
      modifies this
      ensures Valid() && received == old(received) + [StderrData(message)]
      ensures stderr == old(stderr) + message
      ensures error == old(error) && exitCode == old(exitCode) && stdout == old(stdout) && settled == old(settled)
    {
      ReplaySnoc(Initial, received, StderrData(message));
      stderr := stderr + message;
      received := received + [StderrData(message)];
    }

    /** The `error` listener: records the error, then `reject`, which only acts while pending. */
    method OnError(err: SpawnError)
      requires Valid()
      modifies this
      ensures Valid() && received == old(received) + [ErrorEvent(err)]
      ensures error == Some(err)
      ensures settled == if old(settled) == Pending then Rejected else old(settled)
      ensures exitCode == old(exitCode) && stdout == old(stdout) && stderr == old(stderr)
    {
      ReplaySnoc(Initial, received, ErrorEvent(err));
      error := Some(err);
      if settled == Pending {
        settled := Rejected;
      }
      received := received + [ErrorEvent(err)];
    }

    /** The `exit` listener: records the code, then `resolve`, which only acts while pending. */
    method OnExit(code: int)
      requires Valid()
      modifies this
      ensures Valid() && received == old(received) + [ExitEvent(code)]
      ensures exitCode == code
      ensures settled == if old(settled) == Pending then Resolved else old(settled)
      ensures error == old(error) && stdout == old(stdout) && stderr == old(stderr)
    {
      ReplaySnoc(Initial, received, ExitEvent(code));
      exitCode := code;
      if settled == Pending {
        settled := Resolved;
      }
      received := received + [ExitEvent(code)];
    }

    /** The event-emitter wiring: each event goes to the listener registered for it. */
    method Dispatch(e: Event)
      requires Valid()
      modifies this
      ensures Valid() && received == old(received) + [e]
      ensures Snap() == Handle(old(Snap()), e)
    {
      match e
      case StdoutData(c) => OnStdout(c);
      case StderrData(c) => OnStderr(c);
      case ErrorEvent(err) => OnError(err);
      case ExitEvent(code) => OnExit(code);
    }
  }
}
