/** The `kubectl exec -it` terminal, src-tauri/src/commands/exec.rs: the exec
    argument vector, the initial PTY size, the one-slot session table behind
    start_pty_exec / send_exec_input / resize_pty / stop_pty_exec, and the
    reader thread that turns PTY reads into `pty-output` and `pty-done`
    events. */
module Exec {
  import opened Wrappers
  import opened Text

  newtype u16 = x: int | 0 <= x < 0x1_0000

  const DefaultCols: u16 := 80
  const DefaultRows: u16 := 24
  /** Size of the reader thread's buffer. */
  const BufferSize: nat := 4096
  const ShellPath := "/bin/sh"

  /** The PTY dimensions given to `openpty` and to `resize`. */
  datatype PtySize = PtySize(rows: u16, cols: u16, pixelWidth: u16, pixelHeight: u16)

  /** The size the PTY is opened with: the frontend's columns and rows, or 80
      by 24; no pixel size. */
  function InitialSize(cols: Option<u16>, rows: Option<u16>): PtySize {
    PtySize(if rows.Some? then rows.value else DefaultRows,
            if cols.Some? then cols.value else DefaultCols, 0, 0)
  }

  /** A missing dimension takes its default, a given one is kept, and the pixel
      size is zero. */
  lemma InitialSizeDefaults(cols: Option<u16>, rows: Option<u16>)
    ensures InitialSize(None, None) == PtySize(24, 80, 0, 0)
    ensures InitialSize(cols, rows).cols == (if cols.None? then 80 else cols.value)
    ensures InitialSize(cols, rows).rows == (if rows.None? then 24 else rows.value)
    ensures InitialSize(cols, rows).pixelWidth == 0 && InitialSize(cols, rows).pixelHeight == 0
  {
  }

  // ---------------------------------------------------------------------------
  // The command line

  /** The program: the path `which` finds for `kubectl` on PATH, else the bare
      name. */
  function ExecProgram(whichKubectl: Option<string>): string {
    if whichKubectl.Some? then whichKubectl.value else "kubectl"
  }

  /** The arguments of `kubectl exec -it`, in their fixed order. */
  function ExecArgs(name: string, namespace: string, sourceFile: string, contextName: string): seq<string> {
    ["exec", "-it", name, "-n", namespace, "--kubeconfig=" + sourceFile, "--context=" + contextName, "--", ShellPath]
  }

  /** When `args` has the shape of an exec command line, its pod, namespace,
      kubeconfig file and context. */
  function ParseExecArgs(args: seq<string>): Option<(string, string, string, string)> {
    if |args| == 9 && args[0] == "exec" && args[1] == "-it" && args[3] == "-n"
       && StartsWith(args[5], "--kubeconfig=") && StartsWith(args[6], "--context=")
       && args[7] == "--" && args[8] == ShellPath
    then Some((args[2], args[4], args[5][|"--kubeconfig="|..], args[6][|"--context="|..]))
    else None
  }

  /** Every pod, namespace, file and context survives the command line, whatever
      characters they hold: parsing the vector gives them back. */
  lemma ExecArgsRoundTrip(name: string, namespace: string, sourceFile: string, contextName: string)
    ensures ParseExecArgs(ExecArgs(name, namespace, sourceFile, contextName)) == Some((name, namespace, sourceFile, contextName))
  {
    var args := ExecArgs(name, namespace, sourceFile, contextName);
    assert args[5][..|"--kubeconfig="|] == "--kubeconfig=";
    assert args[5][|"--kubeconfig="|..] == sourceFile;
    assert args[6][..|"--context="|] == "--context=";
    assert args[6][|"--context="|..] == contextName;
  }

  /** So two sessions with different targets never share a command line. */
  lemma ExecArgsInjective(n1: string, ns1: string, f1: string, c1: string, n2: string, ns2: string, f2: string, c2: string)
    requires ExecArgs(n1, ns1, f1, c1) == ExecArgs(n2, ns2, f2, c2)
    ensures n1 == n2 && ns1 == ns2 && f1 == f2 && c1 == c2
  {
    ExecArgsRoundTrip(n1, ns1, f1, c1);
    ExecArgsRoundTrip(n2, ns2, f2, c2);
  }

  // ---------------------------------------------------------------------------
  // Setting up the PTY

  /** The failures of the four fallible setup steps, in the order they run:
      `openpty`, `spawn_command`, `try_clone_reader`, `take_writer`. */
  datatype SetupFailures = SetupFailures(open: Option<string>, spawn: Option<string>,
                                         cloneReader: Option<string>, takeWriter: Option<string>)

  /** The error start_pty_exec returns: that of the first step that fails. */
  function SetupError(f: SetupFailures): (e: Option<string>)
    ensures e.None? <==> f.open.None? && f.spawn.None? && f.cloneReader.None? && f.takeWriter.None?
    ensures f.open.Some? ==> e == Some("failed to open PTY: " + f.open.value)
    ensures f.open.None? && f.spawn.Some? ==> e == Some("failed to spawn kubectl exec: " + f.spawn.value)
    ensures f.open.None? && f.spawn.None? && f.cloneReader.Some?
      ==> e == Some("failed to clone PTY reader: " + f.cloneReader.value)
    ensures f.open.None? && f.spawn.None? && f.cloneReader.None? && f.takeWriter.Some?
      ==> e == Some("failed to take PTY writer: " + f.takeWriter.value)
  {
    if f.open.Some? then Some("failed to open PTY: " + f.open.value)
    else if f.spawn.Some? then Some("failed to spawn kubectl exec: " + f.spawn.value)
    else if f.cloneReader.Some? then Some("failed to clone PTY reader: " + f.cloneReader.value)
    else if f.takeWriter.Some? then Some("failed to take PTY writer: " + f.takeWriter.value)
    else None
  }

  // ---------------------------------------------------------------------------
  // The session slot

  /** A live session: the child running `kubectl exec` (program and arguments),
      the PTY master (its size), and the writer (the bytes it has accepted and
      the flushes asked of it). */
  class PtySessionInner {
    const program: string
    const args: seq<string>
    var size: PtySize
    var written: seq<byte>
    var flushes: nat
    /** `Child::kill` has been called on the child. */
    var killSignalled: bool

    constructor (program: string, args: seq<string>, size: PtySize)
      ensures this.program == program && this.args == args && this.size == size
      ensures written == [] && flushes == 0 && !killSignalled
    {
      this.program := program;
      this.args := args;
      this.size := size;
      written := [];
      flushes := 0;
      killSignalled := false;
    }

    /** `write_all`: on failure only the first `failure.value.0` bytes (at most
        all of them) have been accepted. */
    method WriteAll(data: seq<byte>, failure: Option<(nat, string)>) returns (result: Result<()>)
      modifies this
      ensures size == old(size) && flushes == old(flushes) && killSignalled == old(killSignalled)
      ensures failure.None? ==> written == old(written) + data && result == Ok(())
      ensures failure.Some? ==> result == Err(failure.value.1)
      ensures failure.Some? ==> var n := if failure.value.0 < |data| then failure.value.0 else |data|;
        written == old(written) + data[..n]
    {
      if failure.None? {
        written := written + data;
        return Ok(());
      }
      var n := if failure.value.0 < |data| then failure.value.0 else |data|;
      written := written + data[..n];
      result := Err(failure.value.1);
    }

    method Flush(failure: Option<string>) returns (result: Result<()>)
      modifies this
      ensures size == old(size) && written == old(written) && killSignalled == old(killSignalled)
      ensures flushes == old(flushes) + 1
      ensures result == if failure.Some? then Err(failure.value) else Ok(())
    {
      flushes := flushes + 1;
      result := if failure.Some? then Err(failure.value) else Ok(());
    }

    /** `MasterPty::resize`; a failed resize keeps the old size. */
    method Resize(newSize: PtySize, failure: Option<string>) returns (result: Result<()>)
      modifies this
      ensures written == old(written) && flushes == old(flushes) && killSignalled == old(killSignalled)
      ensures size == (if failure.Some? then old(size) else newSize)
      ensures result == if failure.Some? then Err(failure.value) else Ok(())
    {
      if failure.None? {
        size := newSize;
        return Ok(());
      }
      result := Err(failure.value);
    }

    method Kill()
      modifies this
      ensures killSignalled
      ensures size == old(size) && written == old(written) && flushes == old(flushes)
    {
      killSignalled := true;
    }
  }

  /** How the writer takes one `send_exec_input`. */
  datatype InputOutcome = Delivered | WriteFailed(accepted: nat, error: string) | FlushFailed(error: string)

  /** The managed state `PtySession`: the current session, if any. */
  class PtySession {
    var inner: PtySessionInner?

    constructor ()
      ensures inner == null
    {
      inner := null;
    }

    /** start_pty_exec.  `whichKubectl` is the PATH lookup, `failures` the
        outcomes of the four setup steps.  The slot is touched only once every
        step has succeeded: the previous child is then killed and the new
        session installed. */
    method Start(name: string, namespace: string, sourceFile: string, contextName: string,
                 cols: Option<u16>, rows: Option<u16>, whichKubectl: Option<string>,
                 failures: SetupFailures) returns (result: Result<()>)
      modifies this, inner
      ensures SetupError(failures).Some? ==> result == Err(SetupError(failures).value)
      ensures SetupError(failures).Some? ==> inner == old(inner)
      ensures SetupError(failures).Some? && old(inner) != null ==> unchanged(old(inner))
      ensures SetupError(failures).None? ==> result == Ok(()) && inner != null && fresh(inner)
      ensures SetupError(failures).None? ==> inner.program == ExecProgram(whichKubectl)
      ensures SetupError(failures).None? ==> inner.args == ExecArgs(name, namespace, sourceFile, contextName)
      ensures SetupError(failures).None? ==> inner.size == InitialSize(cols, rows)
      ensures SetupError(failures).None? ==> inner.written == [] && inner.flushes == 0 && !inner.killSignalled
      ensures SetupError(failures).None? && old(inner) != null ==> old(inner).killSignalled
    {
      var program := ExecProgram(whichKubectl);
      var size := InitialSize(cols, rows);
      if failures.open.Some? {
        return Err("failed to open PTY: " + failures.open.value);
      }
      var args := ExecArgs(name, namespace, sourceFile, contextName);
      if failures.spawn.Some? {
        return Err("failed to spawn kubectl exec: " + failures.spawn.value);
      }
      if failures.cloneReader.Some? {
        return Err("failed to clone PTY reader: " + failures.cloneReader.value);
      }
      if failures.takeWriter.Some? {
        return Err("failed to take PTY writer: " + failures.takeWriter.value);
      }
      var previous := inner;
      inner := null;
      if previous != null {
        previous.Kill();
      }
      inner := new PtySessionInner(program, args, size);
      result := Ok(());
    }

    /** send_exec_input: the UTF-8 bytes of `data` are written, then flushed;
        with no session nothing happens. */
    method SendInput(data: string, outcome: InputOutcome) returns (result: Result<()>)
      modifies inner
      ensures inner == old(inner)
      ensures inner == null ==> result == Ok(())
      ensures inner != null ==> inner.size == old(inner.size) && inner.killSignalled == old(inner.killSignalled)
      ensures inner != null && outcome.Delivered? ==>
        result == Ok(()) && inner.written == old(inner.written) + Utf8Encode(data) && inner.flushes == old(inner.flushes) + 1
      ensures inner != null && outcome.WriteFailed? ==>
        result == Err("PTY write error: " + outcome.error) && inner.flushes == old(inner.flushes)
      ensures inner != null && outcome.WriteFailed? ==>
        var bytes := Utf8Encode(data);
        inner.written == old(inner.written) + bytes[..if outcome.accepted < |bytes| then outcome.accepted else |bytes|]
      ensures inner != null && outcome.FlushFailed? ==>
        result == Err("PTY flush error: " + outcome.error) && inner.written == old(inner.written) + Utf8Encode(data)
      ensures inner != null && outcome.FlushFailed? ==> inner.flushes == old(inner.flushes) + 1
    {
      if inner == null {
        return Ok(());
      }
      var bytes := Utf8Encode(data);
      var written := inner.WriteAll(bytes, if outcome.WriteFailed? then Some((outcome.accepted, outcome.error)) else None);
      if written.Err? {
        return Err("PTY write error: " + written.error);
      }
      var flushed := inner.Flush(if outcome.FlushFailed? then Some(outcome.error) else None);
      if flushed.Err? {
        return Err("PTY flush error: " + flushed.error);
      }
      result := Ok(());
    }

    /** resize_pty: the master takes the given columns and rows and no pixel
        size; with no session nothing happens. */
    method Resize(cols: u16, rows: u16, failure: Option<string>) returns (result: Result<()>)
      modifies inner
      ensures inner == old(inner)
      ensures inner == null ==> result == Ok(())
      ensures inner != null ==>
        inner.written == old(inner.written) && inner.flushes == old(inner.flushes) && inner.killSignalled == old(inner.killSignalled)
      ensures inner != null && failure.None? ==> result == Ok(()) && inner.size == PtySize(rows, cols, 0, 0)
      ensures inner != null && failure.Some? ==> result == Err("PTY resize error: " + failure.value) && inner.size == old(inner.size)
    {
      if inner == null {
        return Ok(());
      }
      var resized := inner.Resize(PtySize(rows, cols, 0, 0), failure);
      if resized.Err? {
        return Err("PTY resize error: " + resized.error);
      }
      result := Ok(());
    }

    /** stop_pty_exec: the session is taken out of the slot and killed; a
        failed kill is ignored, so the result is always Ok. */
    method Stop() returns (result: Result<()>)
      modifies this, inner
      ensures inner == null && result == Ok(())
      ensures old(inner) != null ==> old(inner).killSignalled
    {
      var previous := inner;
      inner := null;
      if previous != null {
        previous.Kill();
      }
      result := Ok(());
    }
  }

  /** Input and resize on an empty slot change nothing, and a second stop is
      as harmless as the first. */
  method StopThenUse(session: PtySession, data: string, outcome: InputOutcome, cols: u16, rows: u16,
                     resizeFailure: Option<string>)
      returns (input: Result<()>, resize: Result<()>, second: Result<()>)
    modifies session, session.inner
    ensures session.inner == null
    ensures input == Ok(()) && resize == Ok(()) && second == Ok(())
  {
    var first := session.Stop();
    input := session.SendInput(data, outcome);
    resize := session.Resize(cols, rows, resizeFailure);
    second := session.Stop();
  }

  // ---------------------------------------------------------------------------
  // The reader thread

  /** One `read` of the PTY: the bytes it filled in (none at end of file), or
      an error. */
  datatype ReadResult = ReadOk(bytes: seq<byte>) | ReadFailed(error: string)

  /** An event the reader thread emits, with its payload.  Every emit call is
      recorded, the one that fails included. */
  datatype Event = PtyOutput(data: seq<byte>) | PtyDone

  /** A read the loop passes on: one that returned data. */
  predicate Continues(r: ReadResult) {
    r.ReadOk? && r.bytes != []
  }

  /** The events emitted from read `i` on, when the `i`-th emit is the `i`-th
      output.  `failingEmits` holds the emit calls that fail; running out of
      reads counts as end of file. */
  function ReaderEventsFrom(results: seq<ReadResult>, failingEmits: set<nat>, i: nat): seq<Event>
    requires i <= |results|
    decreases |results| - i
  {
    if i == |results| || !Continues(results[i]) then [PtyDone]
    else if i in failingEmits then [PtyOutput(results[i].bytes), PtyDone]
    else [PtyOutput(results[i].bytes)] + ReaderEventsFrom(results, failingEmits, i + 1)
  }

  /** Everything the thread emits. */
  function ReaderEvents(results: seq<ReadResult>, failingEmits: set<nat>): seq<Event> {
    ReaderEventsFrom(results, failingEmits, 0)
  }

  /** The loop with its 4096-byte buffer: each read fills the front of the
      buffer and that slice is emitted; it stops at end of file, a read error or
      an emit that fails, and then emits `pty-done`. */
  method ReadLoop(results: seq<ReadResult>, failingEmits: set<nat>) returns (events: seq<Event>)
    requires forall j :: 0 <= j < |results| && results[j].ReadOk? ==> |results[j].bytes| <= BufferSize
    ensures events == ReaderEvents(results, failingEmits)
  {
    var buf := new byte[BufferSize];
    events := [];
    var i := 0;
    while i < |results|
      invariant i <= |results|
      invariant ReaderEvents(results, failingEmits) == events + ReaderEventsFrom(results, failingEmits, i)
      decreases |results| - i
    {
      var r := results[i];
      if r.ReadFailed? || r.bytes == [] {
        break;
      }
      var n := |r.bytes|;
      for k := 0 to n
        invariant buf[..k] == r.bytes[..k]
      {
        buf[k] := r.bytes[k];
      }
      assert buf[..n] == r.bytes;
      events := events + [PtyOutput(buf[..n])];
      if i in failingEmits {
        break;
      }
      i := i + 1;
    }
    events := events + [PtyDone];
  }

  /** What the emitted events are, stated without the recursion: `m` outputs,
      namely the data of the first `m` reads in order, then one `pty-done`; the
      `m` reads all returned data, no emit before the last output failed, and
      the loop stopped because that emit failed, the reads ran out, or read `m`
      was end of file or an error. */
  lemma {:induction false} ReaderEventsFromShape(results: seq<ReadResult>, failingEmits: set<nat>, i: nat)
    requires i <= |results|
    ensures |ReaderEventsFrom(results, failingEmits, i)| >= 1
    ensures i + |ReaderEventsFrom(results, failingEmits, i)| - 1 <= |results|
    ensures ReaderEventsFrom(results, failingEmits, i)[|ReaderEventsFrom(results, failingEmits, i)| - 1] == PtyDone
    ensures forall k :: i <= k < i + |ReaderEventsFrom(results, failingEmits, i)| - 1 ==>
      Continues(results[k]) && ReaderEventsFrom(results, failingEmits, i)[k - i] == PtyOutput(results[k].bytes)
    ensures forall k :: i <= k < i + |ReaderEventsFrom(results, failingEmits, i)| - 2 ==> k !in failingEmits
    ensures var end := i + |ReaderEventsFrom(results, failingEmits, i)| - 1;
      (end > i && end - 1 in failingEmits) || end == |results| || !Continues(results[end])
    decreases |results| - i
  {
    if i < |results| && Continues(results[i]) && i !in failingEmits {
      ReaderEventsFromShape(results, failingEmits, i + 1);
      var rest := ReaderEventsFrom(results, failingEmits, i + 1);
      var ev := ReaderEventsFrom(results, failingEmits, i);
      assert ev == [PtyOutput(results[i].bytes)] + rest;
      assert i + |ev| == (i + 1) + |rest|;
      forall k | i <= k < i + |ev| - 1
        ensures Continues(results[k]) && ev[k - i] == PtyOutput(results[k].bytes)
      {
        if k > i {
          assert ev[k - i] == rest[k - (i + 1)];
        }
      }
    }
  }

  /** The reader's contract: one `pty-output` per read that returned data, in
      read order, each of at most 4096 bytes, then exactly one `pty-done`, last;
      the loop stops at the first end of file, read error or failed emit. */
  lemma ReaderEventsShape(results: seq<ReadResult>, failingEmits: set<nat>)
    requires forall j :: 0 <= j < |results| && results[j].ReadOk? ==> |results[j].bytes| <= BufferSize
    ensures var ev := ReaderEvents(results, failingEmits);
      var m := |ev| - 1;
      |ev| >= 1 && m <= |results| && ev[m] == PtyDone
      && (forall j :: 0 <= j < m ==> Continues(results[j]) && ev[j] == PtyOutput(results[j].bytes) && |ev[j].data| <= BufferSize)
      && (forall j :: 0 <= j < m - 1 ==> j !in failingEmits)
      && ((m > 0 && m - 1 in failingEmits) || m == |results| || !Continues(results[m]))
  {
    ReaderEventsFromShape(results, failingEmits, 0);
    var ev := ReaderEvents(results, failingEmits);
    forall j | 0 <= j < |ev| - 1
      ensures Continues(results[j]) && ev[j] == PtyOutput(results[j].bytes)
    {
      assert ev[j - 0] == ev[j];
    }
  }

  /** `pty-done` is emitted exactly once, whatever the reads and emits do. */
  lemma DoneExactlyOnce(results: seq<ReadResult>, failingEmits: set<nat>)
    ensures var ev := ReaderEvents(results, failingEmits);
      ev != [] && ev[|ev| - 1] == PtyDone && forall j :: 0 <= j < |ev| - 1 ==> ev[j] != PtyDone
  {
    ReaderEventsFromShape(results, failingEmits, 0);
    var ev := ReaderEvents(results, failingEmits);
    forall j | 0 <= j < |ev| - 1
      ensures ev[j] != PtyDone
    {
      assert ev[j - 0] == PtyOutput(results[j].bytes);
    }
  }
}
